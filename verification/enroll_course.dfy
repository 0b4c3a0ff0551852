/**
 Course purchase initiation. The handler picks the on-sale course that starts
 first, then refuses in order when there is no such course, when the user is
 already registered for it, and when the user already has a SUCCEEDED payment
 for it. Otherwise it asks the payment gateway for a checkout and records one
 PENDING payment for the course's price in roubles. Any failure rolls the
 whole session back. A user seen for the first time is created at the start,
 but the row is committed only together with the payment.
 */
module EnrollCourse {
  import opened Wrappers
  import opened Models
  import opened TextFormat
  import opened Catalog

  const Currency: string := "RUB"
  const DefaultReturnUrl: string := "https://lexi.neuronaikids.ru/webhook"
  const DefaultBuyerName: string := "Пользователь"

  /** What the handler reads of the Telegram user who pressed "buy". */
  datatype Buyer = Buyer(
    telegramId: int,
    username: Option<string>,
    firstName: Option<string>,
    email: Option<string>,
    phone: Option<string>)

  /** The environment variables `WEBHOOK_URL` and `DEFAULT_CUSTOMER_EMAIL`
      (`None` when unset). */
  datatype Settings = Settings(webhookUrl: Option<string>, defaultCustomerEmail: Option<string>)

  /** Python truthiness of an optional string: present and non-empty. */
  predicate Truthy(v: Option<string>) {
    v.Some? && |v.value| > 0
  }

  /** The placeholder address used when nothing else identifies the buyer. */
  function FallbackEmail(telegramId: int): string {
    "user_" + IntToDecimal(telegramId) + "@telegram.local"
  }

  /** Different users never share a placeholder address. */
  lemma {:induction false} FallbackEmailInjective(a: int, b: int)
    requires FallbackEmail(a) == FallbackEmail(b)
    ensures a == b
  {
    var da, db := IntToDecimal(a), IntToDecimal(b);
    var fa, fb := FallbackEmail(a), FallbackEmail(b);
    assert |da| == |db|;
    assert da == fa[5..5 + |da|];
    assert db == fb[5..5 + |db|];
    IntRoundTrip(a);
    IntRoundTrip(b);
  }

  /** The buyer contact the receipt must carry: the buyer's e-mail, else the
      phone, else the configured default e-mail, else the placeholder. */
  function CustomerData(buyer: Buyer, defaultEmail: string): (r: map<string, string>)
    ensures r.Keys == {"email"} || r.Keys == {"phone"}
    ensures forall k :: k in r ==> |r[k]| > 0
    ensures "phone" in r <==> !Truthy(buyer.email) && Truthy(buyer.phone)
    ensures "phone" in r ==> r["phone"] == buyer.phone.value
    ensures Truthy(buyer.email) ==> r["email"] == buyer.email.value
    ensures !Truthy(buyer.email) && !Truthy(buyer.phone) ==>
              r["email"] == (if defaultEmail != "" then defaultEmail else FallbackEmail(buyer.telegramId))
  {
    if Truthy(buyer.email) then map["email" := buyer.email.value]
    else if Truthy(buyer.phone) then map["phone" := buyer.phone.value]
    else if defaultEmail != "" then map["email" := defaultEmail]
    else map["email" := FallbackEmail(buyer.telegramId)]
  }

  datatype ReceiptItem = ReceiptItem(
    description: string,
    quantity: string,
    amount: Kopecks,
    currency: string,
    vatCode: int,
    paymentSubject: string,
    paymentMode: string)

  datatype PaymentMetadata = PaymentMetadata(
    telegramId: int,
    userName: string,
    courseId: int,
    courseName: string)

  /** The payment-creation request sent to the gateway. */
  datatype PaymentRequest = PaymentRequest(
    amount: Kopecks,
    currency: string,
    returnUrl: string,
    capture: bool,
    description: string,
    customer: map<string, string>,
    items: seq<ReceiptItem>,
    metadata: PaymentMetadata,
    idempotenceKey: string)

  /** The request for buying `course`: the charge and its single receipt line
      both equal the course price in roubles, and the locally generated
      payment id doubles as the idempotence key. */
  function BuildRequest(buyer: Buyer, settings: Settings, course: Course, paymentId: string): (req: PaymentRequest)
    ensures req.amount == course.price && req.currency == Currency
    ensures |req.items| == 1 && req.items[0].amount == req.amount && req.items[0].currency == req.currency
    ensures req.customer == CustomerData(buyer, settings.defaultCustomerEmail.GetOr(""))
    ensures req.idempotenceKey == paymentId
    ensures req.metadata.telegramId == buyer.telegramId && req.metadata.courseId == course.id
  {
    var name := if Truthy(buyer.firstName) then buyer.firstName.value else DefaultBuyerName;
    PaymentRequest(
      course.price,
      Currency,
      settings.webhookUrl.GetOr(DefaultReturnUrl),
      true,
      "Оплата курса: " + course.name,
      CustomerData(buyer, settings.defaultCustomerEmail.GetOr("")),
      [ReceiptItem(course.name, "1.00", course.price, Currency, 1, "service", "full_prepayment")],
      PaymentMetadata(buyer.telegramId, name, course.id, course.name),
      paymentId)
  }

  /** What the gateway answered: a created payment with its checkout URL and
      metadata (as stored JSON text), or an error. */
  datatype GatewayReply = Created(confirmationUrl: string, metadataJson: string) | Unavailable

  predicate IsSucceededFor(p: Payment, telegramId: int, courseId: int) {
    p.user == telegramId && p.course == courseId && p.status == Succeeded
  }

  /** How many SUCCEEDED payments the user has for the course. */
  function CountSucceeded(ps: seq<Payment>, telegramId: int, courseId: int): (n: nat)
    ensures n <= |ps|
    ensures n == 0 <==> forall p :: p in ps ==> !IsSucceededFor(p, telegramId, courseId)
  {
    if |ps| == 0 then 0
    else
      assert forall p :: p in ps ==> p == ps[0] || p in ps[1..];
      (if IsSucceededFor(ps[0], telegramId, courseId) then 1 else 0) + CountSucceeded(ps[1..], telegramId, courseId)
  }

  datatype Purchase =
    | NoCourse
    | AlreadyEnrolled(course: Course)
    | AlreadyPaid(course: Course)
    | PaymentLink(course: Course, request: PaymentRequest, url: string)
    | Failure

  /** The store with the buyer's user row, created if missing. */
  function WithBuyer(s: Store, buyer: Buyer): (s': Store)
    ensures s'.users.Keys == s.users.Keys + {buyer.telegramId}
    ensures forall t :: t in s.users ==> s'.users[t] == s.users[t]
    ensures buyer.telegramId !in s.users ==> s'.users[buyer.telegramId] == NewUser(buyer.username)
    ensures s'.(users := s.users) == s
  {
    if buyer.telegramId in s.users then s
    else s.(users := s.users[buyer.telegramId := NewUser(buyer.username)])
  }

  /** The payment recorded for a successful initiation. */
  function PendingPayment(telegramId: int, course: Course, paymentId: string, reply: GatewayReply): PaymentInsert
    requires reply.Created?
  {
    PaymentInsert(telegramId, course.id, paymentId, course.price, Some(Currency), Some(Pending), Some(reply.metadataJson))
  }

  /** `purchase_course_handler` for `buyer` at time `now`; `paymentId` is the
      freshly generated payment id and `reply` the gateway's answer. */
  function PurchaseCourse(s: Store, buyer: Buyer, settings: Settings, now: Time, paymentId: string, reply: GatewayReply): (r: Step<Purchase>)
    ensures !r.result.PaymentLink? ==> r.store == s
    ensures r.result.NoCourse? <==> forall c :: c in s.courses ==> !OnSale(c, now)
    ensures r.result.AlreadyEnrolled? ==>
              && SelectCourse(s.courses, now) == Some(r.result.course)
              && Registration(buyer.telegramId, r.result.course.id) in s.courseRegistrations
    ensures r.result.AlreadyPaid? ==>
              && SelectCourse(s.courses, now) == Some(r.result.course)
              && Registration(buyer.telegramId, r.result.course.id) !in s.courseRegistrations
              && CountSucceeded(s.payments, buyer.telegramId, r.result.course.id) == 1
    ensures SelectCourse(s.courses, now).Some?
            && Registration(buyer.telegramId, SelectCourse(s.courses, now).value.id) in s.courseRegistrations
            ==> r.result == AlreadyEnrolled(SelectCourse(s.courses, now).value)
    ensures SelectCourse(s.courses, now).Some?
            && Registration(buyer.telegramId, SelectCourse(s.courses, now).value.id) !in s.courseRegistrations
            && CountSucceeded(s.payments, buyer.telegramId, SelectCourse(s.courses, now).value.id) == 1
            ==> r.result == AlreadyPaid(SelectCourse(s.courses, now).value)
    ensures r.result.Failure? ==>
              || CountSucceeded(s.payments, buyer.telegramId, SelectCourse(s.courses, now).value.id) > 1
              || reply.Unavailable?
              || HasPaymentId(s.payments, paymentId)
    ensures r.result.PaymentLink? <==>
              && SelectCourse(s.courses, now).Some?
              && Registration(buyer.telegramId, SelectCourse(s.courses, now).value.id) !in s.courseRegistrations
              && CountSucceeded(s.payments, buyer.telegramId, SelectCourse(s.courses, now).value.id) == 0
              && reply.Created?
              && !HasPaymentId(s.payments, paymentId)
    ensures r.result.PaymentLink? ==>
              && r.result.course == SelectCourse(s.courses, now).value
              && r.result.url == reply.confirmationUrl
              && r.result.request == BuildRequest(buyer, settings, r.result.course, paymentId)
              && r.store.payments == s.payments +
                   [Payment(buyer.telegramId, r.result.course.id, paymentId, r.result.course.price,
                            Currency, Pending, Some(reply.metadataJson))]
              && r.store == WithBuyer(s, buyer).(payments := r.store.payments)
  {
    var s1 := WithBuyer(s, buyer);
    match SelectCourse(s1.courses, now)
    case None => Step(NoCourse, s)
    case Some(course) =>
      if Registration(buyer.telegramId, course.id) in s1.courseRegistrations then
        Step(AlreadyEnrolled(course), s)
      else
        var paid := CountSucceeded(s1.payments, buyer.telegramId, course.id);
        if paid > 1 then Step(Failure, s)
        else if paid == 1 then Step(AlreadyPaid(course), s)
        else
          var request := BuildRequest(buyer, settings, course, paymentId);
          match reply
          case Unavailable => Step(Failure, s)
          case Created(url, _) =>
            match InsertPayment(s1.payments, PendingPayment(buyer.telegramId, course, paymentId, reply))
            case None => Step(Failure, s)
            case Some(ps) => Step(PaymentLink(course, request, url), s1.(payments := ps))
  }

  /** Initiating a purchase keeps every store constraint: at most one user
      per Telegram id, unique payment ids, payments referring to existing
      users and courses, amounts within the column's range. */
  lemma {:induction false} PurchasePreservesValid(s: Store, buyer: Buyer, settings: Settings, now: Time, paymentId: string, reply: GatewayReply)
    requires Valid(s)
    ensures Valid(PurchaseCourse(s, buyer, settings, now, paymentId, reply).store)
  {
    var r := PurchaseCourse(s, buyer, settings, now, paymentId, reply);
    if r.result.PaymentLink? {
      var s1 := WithBuyer(s, buyer);
      if buyer.telegramId !in s.users {
        AddUserKeepsValid(s, buyer.telegramId, NewUser(buyer.username));
      }
      assert Valid(s1);
      var c := r.result.course;
      assert HasCourse(s1.courses, c.id);
      AddPaymentKeepsValid(s1, Payment(buyer.telegramId, c.id, paymentId, c.price, Currency, Pending, Some(reply.metadataJson)));
    }
  }

  predicate AllPending(ps: seq<Payment>) {
    forall p :: p in ps ==> p.status == Pending
  }

  /** No handler modelled here moves a payment out of PENDING: from a store
      whose payments are all PENDING, a purchase leaves them all PENDING, and
      the "already paid" refusal cannot occur. */
  lemma {:induction false} PurchaseKeepsAllPending(s: Store, buyer: Buyer, settings: Settings, now: Time, paymentId: string, reply: GatewayReply)
    requires AllPending(s.payments)
    ensures var r := PurchaseCourse(s, buyer, settings, now, paymentId, reply);
            && AllPending(r.store.payments)
            && !r.result.AlreadyPaid?
            && (r.result.Failure? ==> reply.Unavailable? || HasPaymentId(s.payments, paymentId))
  {
  }

  /** Nothing prevents a second initiation: pressing "buy" again before paying,
      with a new payment id and a reachable gateway, records a second PENDING
      payment for the same user and course. */
  lemma {:induction false} SecondPurchaseAddsSecondPending(
    s: Store, buyer: Buyer, settings: Settings, now: Time,
    firstId: string, firstReply: GatewayReply, secondId: string, secondReply: GatewayReply)
    requires Valid(s)
    requires PurchaseCourse(s, buyer, settings, now, firstId, firstReply).result.PaymentLink?
    requires secondReply.Created? && secondId != firstId && !HasPaymentId(s.payments, secondId)
    ensures var first := PurchaseCourse(s, buyer, settings, now, firstId, firstReply);
            var second := PurchaseCourse(first.store, buyer, settings, now, secondId, secondReply);
            && second.result.PaymentLink?
            && second.result.course == first.result.course
            && |second.store.payments| == |s.payments| + 2
  {
  }
}
