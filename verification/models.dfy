/**
 The relational schema of the bot (users, webinars, courses, the two
 registration association tables and payments) as immutable values, together
 with the constraints the schema declares: the payment status enumeration,
 composite primary keys on the registration tables, the unique `telegram_id`
 of a user, the unique gateway `payment_id` of a payment, column defaults and
 the range of a `Numeric(10, 2)` column.

 Users are keyed by their Telegram id. Rows that reference a user (the
 registration tables and payments) carry that Telegram id rather than the
 surrogate `users.id`; the two are in one-to-one correspondence because
 `telegram_id` is unique and non-null.
 */
module Models {
  import opened Wrappers

  /** A point in time; only the order of timestamps matters to the core. */
  type Time = int

  /** An amount of money in kopecks (hundredths of a rouble). */
  type Kopecks = int

  /** The four states of a payment. */
  datatype PaymentStatus = Pending | Succeeded | Canceled | Failed

  /** The value stored in the `payment_status` database enum. */
  function StatusValue(st: PaymentStatus): string {
    match st
    case Pending => "pending"
    case Succeeded => "succeeded"
    case Canceled => "canceled"
    case Failed => "failed"
  }

  /** Python's `PaymentStatus(v)`: each member's value maps back to that
      member, and any other text is not a status. */
  function ParseStatus(v: string): (r: Option<PaymentStatus>)
    ensures r.Some? ==> StatusValue(r.value) == v
    ensures r.None? ==> forall st: PaymentStatus :: StatusValue(st) != v
  {
    if v == "pending" then Some(Pending)
    else if v == "succeeded" then Some(Succeeded)
    else if v == "canceled" then Some(Canceled)
    else if v == "failed" then Some(Failed)
    else None
  }

  /** The enumeration has exactly four members with four distinct values, and
      `PaymentStatus(v)` of each member's value gives back that member. */
  lemma PaymentStatusIsFourDistinctValues()
    ensures forall st: PaymentStatus :: StatusValue(st) in {"pending", "succeeded", "canceled", "failed"}
    ensures |{"pending", "succeeded", "canceled", "failed"}| == 4
    ensures forall a: PaymentStatus, b: PaymentStatus :: StatusValue(a) == StatusValue(b) ==> a == b
    ensures forall st: PaymentStatus :: ParseStatus(StatusValue(st)) == Some(st)
  {
  }

  /** Whether a coin operation credited or debited the balance. */
  datatype OperationType = Earned | Spent

  /** One entry of a user's coin history: a signed amount with its reason. */
  datatype CoinOperation = CoinOperation(
    amount: int,
    kind: OperationType,
    reason: string,
    description: Option<string>)

  /** A user row together with its coin balance and its coin history, oldest first. */
  datatype User = User(
    userName: Option<string>,
    direction: Option<string>,
    balance: int,
    operations: seq<CoinOperation>)

  /** The row a first interaction creates: no track chosen, no coins, no history. */
  function NewUser(userName: Option<string>): (u: User)
    ensures u.userName == userName
    ensures u.balance == 0 && u.operations == [] && u.direction.None?
  {
    User(userName, None, 0, [])
  }

  datatype Webinar = Webinar(id: int, date: Time, topic: string, link: Option<string>)

  datatype Course = Course(
    id: int,
    name: string,
    startDate: Time,
    price: Kopecks,
    description: Option<string>,
    link: Option<string>,
    isActive: bool)

  /** A row of `webinar_registrations` or `course_registrations`:
      (user's Telegram id, webinar or course id). */
  datatype Registration = Registration(user: int, offering: int)

  datatype Payment = Payment(
    user: int,
    course: int,
    paymentId: string,
    amount: Kopecks,
    currency: string,
    status: PaymentStatus,
    metadata: Option<string>)

  /** The persisted state the handlers read and write. */
  datatype Store = Store(
    users: map<int, User>,
    webinars: seq<Webinar>,
    courses: seq<Course>,
    webinarRegistrations: seq<Registration>,
    courseRegistrations: seq<Registration>,
    payments: seq<Payment>)

  /** What an operation answers, together with the store it leaves behind. */
  datatype Step<+T> = Step(result: T, store: Store)

  // ---------------------------------------------------------------------------
  // Column types and defaults

  /** The largest magnitude a `Numeric(10, 2)` column holds, plus one kopeck:
      ten significant digits, two of them after the decimal point. */
  const NumericBound: int := 10_000_000_000

  predicate FitsNumeric10x2(k: Kopecks) {
    -NumericBound < k < NumericBound
  }

  /** The values an insert into `payments` supplies; an omitted currency or
      status takes the column default. */
  datatype PaymentInsert = PaymentInsert(
    user: int,
    course: int,
    paymentId: string,
    amount: Kopecks,
    currency: Option<string>,
    status: Option<PaymentStatus>,
    metadata: Option<string>)

  const DefaultCurrency: string := "RUB"

  /** The row an insert produces once column defaults are applied. */
  function WithDefaults(ins: PaymentInsert): (p: Payment)
    ensures ins.status.None? ==> p.status == Pending
    ensures ins.currency.None? ==> p.currency == "RUB"
    ensures ins.status.Some? ==> p.status == ins.status.value
    ensures ins.currency.Some? ==> p.currency == ins.currency.value
    ensures p.user == ins.user && p.course == ins.course && p.paymentId == ins.paymentId
    ensures p.amount == ins.amount && p.metadata == ins.metadata
  {
    Payment(ins.user, ins.course, ins.paymentId, ins.amount,
            ins.currency.GetOr(DefaultCurrency), ins.status.GetOr(Pending), ins.metadata)
  }

  // ---------------------------------------------------------------------------
  // Key constraints

  /** No two rows of a table are equal: what a primary key spanning every
      column of the table guarantees. */
  predicate NoDuplicateRows<T(==)>(rows: seq<T>) {
    forall i, j :: 0 <= i < j < |rows| ==> rows[i] != rows[j]
  }

  /** Inserting into a registration table, whose primary key is the whole
      (user, offering) pair: a duplicate pair is rejected with no change. */
  function InsertRegistration(table: seq<Registration>, row: Registration): (r: Option<seq<Registration>>)
    ensures r.None? <==> row in table
    ensures r.Some? ==> |r.value| == |table| + 1 && r.value[..|table|] == table && r.value[|table|] == row
    ensures r.Some? && NoDuplicateRows(table) ==> NoDuplicateRows(r.value)
  {
    if row in table then None else Some(table + [row])
  }

  /** Gateway payment ids are pairwise distinct. */
  predicate UniquePaymentIds(ps: seq<Payment>) {
    forall i, j :: 0 <= i < j < |ps| ==> ps[i].paymentId != ps[j].paymentId
  }

  predicate HasPaymentId(ps: seq<Payment>, paymentId: string) {
    exists p :: p in ps && p.paymentId == paymentId
  }

  /** Inserting into `payments`: the unique constraint on `payment_id` rejects
      a second row with the same id; otherwise the row, with column defaults
      applied, is appended. */
  function InsertPayment(ps: seq<Payment>, ins: PaymentInsert): (r: Option<seq<Payment>>)
    ensures r.None? <==> HasPaymentId(ps, ins.paymentId)
    ensures r.Some? ==> |r.value| == |ps| + 1 && r.value[..|ps|] == ps
    ensures r.Some? ==> r.value[|ps|] == WithDefaults(ins)
    ensures r.Some? && UniquePaymentIds(ps) ==> UniquePaymentIds(r.value)
  {
    if HasPaymentId(ps, ins.paymentId) then None else Some(ps + [WithDefaults(ins)])
  }

  // ---------------------------------------------------------------------------
  // The store invariant

  /** The total of a coin history. */
  function OperationsSum(ops: seq<CoinOperation>): int {
    if |ops| == 0 then 0 else ops[0].amount + OperationsSum(ops[1..])
  }

  /** Appending one operation adds its amount to the total. */
  lemma {:induction false} OperationsSumAppend(ops: seq<CoinOperation>, op: CoinOperation)
    ensures OperationsSum(ops + [op]) == OperationsSum(ops) + op.amount
  {
    if |ops| == 0 {
      assert ops + [op] == [op];
    } else {
      assert (ops + [op])[1..] == ops[1..] + [op];
      OperationsSumAppend(ops[1..], op);
    }
  }

  /** Credits carry non-negative amounts and debits non-positive ones. */
  predicate WellSigned(op: CoinOperation) {
    match op.kind
    case Earned => op.amount >= 0
    case Spent => op.amount <= 0
  }

  /** The cached balance is the total of the history, never negative, and
      every entry's sign agrees with its type. */
  predicate LedgerConsistent(u: User) {
    && u.balance == OperationsSum(u.operations)
    && u.balance >= 0
    && forall i :: 0 <= i < |u.operations| ==> WellSigned(u.operations[i])
  }

  predicate HasWebinar(ws: seq<Webinar>, id: int) {
    exists w :: w in ws && w.id == id
  }

  predicate HasCourse(cs: seq<Course>, id: int) {
    exists c :: c in cs && c.id == id
  }

  predicate UniqueWebinarIds(ws: seq<Webinar>) {
    forall i, j :: 0 <= i < j < |ws| ==> ws[i].id != ws[j].id
  }

  predicate UniqueCourseIds(cs: seq<Course>) {
    forall i, j :: 0 <= i < j < |cs| ==> cs[i].id != cs[j].id
  }

  /** Every constraint the schema declares, plus the coin ledger's invariant. */
  predicate Valid(s: Store) {
    && (forall t :: t in s.users ==> LedgerConsistent(s.users[t]))
    && UniqueWebinarIds(s.webinars)
    && UniqueCourseIds(s.courses)
    && (forall c :: c in s.courses ==> FitsNumeric10x2(c.price))
    && NoDuplicateRows(s.webinarRegistrations)
    && (forall r :: r in s.webinarRegistrations ==> r.user in s.users && HasWebinar(s.webinars, r.offering))
    && NoDuplicateRows(s.courseRegistrations)
    && (forall r :: r in s.courseRegistrations ==> r.user in s.users && HasCourse(s.courses, r.offering))
    && UniquePaymentIds(s.payments)
    && (forall p :: p in s.payments ==>
          p.user in s.users && HasCourse(s.courses, p.course) && FitsNumeric10x2(p.amount))
  }

  /** Recording a new webinar registration for an existing user and an
      existing webinar keeps every constraint. */
  lemma {:induction false} AddWebinarRegistrationKeepsValid(s: Store, row: Registration)
    requires Valid(s)
    requires row.user in s.users && HasWebinar(s.webinars, row.offering)
    requires row !in s.webinarRegistrations
    ensures Valid(s.(webinarRegistrations := s.webinarRegistrations + [row]))
  {
  }

  /** Adding a user with a consistent ledger under a fresh Telegram id keeps
      every constraint. */
  lemma {:induction false} AddUserKeepsValid(s: Store, telegramId: int, u: User)
    requires Valid(s)
    requires telegramId !in s.users
    requires LedgerConsistent(u)
    ensures Valid(s.(users := s.users[telegramId := u]))
  {
  }

  /** Appending a payment for an existing user and course, with an amount the
      column holds and a payment id not yet used, keeps every constraint. */
  lemma {:induction false} AddPaymentKeepsValid(s: Store, p: Payment)
    requires Valid(s)
    requires p.user in s.users && HasCourse(s.courses, p.course) && FitsNumeric10x2(p.amount)
    requires !HasPaymentId(s.payments, p.paymentId)
    ensures Valid(s.(payments := s.payments + [p]))
  {
  }

  /** Everything but the named user's row is as before. */
  predicate OnlyUserChanged(s: Store, s': Store, telegramId: int) {
    && s'.users.Keys == s.users.Keys
    && (forall t :: t in s.users && t != telegramId ==> s'.users[t] == s.users[t])
    && s'.webinars == s.webinars
    && s'.courses == s.courses
    && s'.webinarRegistrations == s.webinarRegistrations
    && s'.courseRegistrations == s.courseRegistrations
    && s'.payments == s.payments
  }
}
