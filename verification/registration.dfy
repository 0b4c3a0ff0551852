/**
 Webinar registration: offering the next webinar behind a confirmation
 button whose callback data carries the webinar id, and confirming the
 registration, which records the (user, webinar) pair once and credits the
 confirmation bonus once.
 */
module Registration {
  import opened Wrappers
  import opened Models
  import opened TextFormat
  import opened Catalog
  import CoinService

  const ConfirmPrefix: string := "confirm_registration_"

  /** Coins credited for confirming a webinar registration. */
  const ConfirmationBonus: int := 100
  const BonusReason: string := "подтверждение регистрации"
  const BonusDescription: string := "Бонус за подтверждение регистрации на вебинар"

  /** The history entry the bonus credit appends. */
  const BonusOperation: CoinOperation := CoinOperation(ConfirmationBonus, Earned, BonusReason, Some(BonusDescription))

  /** A user's row after the bonus credit: 100 more coins and one more EARNED
      entry; name and direction are kept. */
  function WithBonus(u: User): User {
    u.(balance := u.balance + ConfirmationBonus, operations := u.operations + [BonusOperation])
  }

  /** The callback data the confirmation handler is dispatched on. */
  predicate IsConfirmCallback(data: string) {
    |ConfirmPrefix| <= |data| && data[..|ConfirmPrefix|] == ConfirmPrefix
  }

  /** The callback data of the confirmation button for a webinar. */
  function ConfirmCallbackData(webinarId: int): (data: string)
    ensures IsConfirmCallback(data)
    ensures |data| > |ConfirmPrefix|
  {
    ConfirmPrefix + IntToDecimal(webinarId)
  }

  /** The webinar id read back from callback data: the integer after the
      last underscore, or `None` when that text is not an integer. */
  function ParseWebinarId(data: string): (r: Option<int>)
    ensures r.Some? ==> |data| > 0 && data[|data| - 1] != '_'
    ensures '_' !in data ==> r == ParseInt(data)
  {
    ParseInt(LastField(data, '_'))
  }

  /** Reading the button's callback data gives back the webinar id it was
      built from, for every integer id. */
  lemma {:induction false} CallbackDataRoundTrip(webinarId: int)
    ensures ParseWebinarId(ConfirmCallbackData(webinarId)) == Some(webinarId)
  {
    LastFieldAfterSeparator(ConfirmPrefix, IntToDecimal(webinarId), '_');
    IntRoundTrip(webinarId);
  }

  datatype Offer = NoWebinar | ConfirmButton(webinar: Webinar, callbackData: string)

  /** `show_next_webinar_handler`: the earliest webinar after `now` with its
      confirmation button, or nothing to offer. */
  function ShowNextWebinar(s: Store, now: Time): (r: Offer)
    ensures r.NoWebinar? <==> forall w :: w in s.webinars ==> w.date <= now
    ensures r.ConfirmButton? ==> r.webinar in s.webinars && r.webinar.date > now
    ensures r.ConfirmButton? ==> forall w :: w in s.webinars && w.date > now ==> r.webinar.date <= w.date
    ensures r.ConfirmButton? ==>
              && r.callbackData == ConfirmCallbackData(r.webinar.id)
              && IsConfirmCallback(r.callbackData)
              && ParseWebinarId(r.callbackData) == Some(r.webinar.id)
  {
    match NextWebinar(s.webinars, now)
    case None => NoWebinar
    case Some(w) =>
      CallbackDataRoundTrip(w.id);
      ConfirmButton(w, ConfirmCallbackData(w.id))
  }

  datatype Confirmation =
    | MalformedCallback
    | UserOrWebinarMissing
    | AlreadyRegistered
    | Registered(balance: int)

  /** `confirm_registration_handler` for the user with `telegramId` pressing a
      button with callback data `data`. The registration row and the coin
      credit are committed one after the other; the model applies both. */
  function ConfirmRegistration(s: Store, telegramId: int, data: string): (r: Step<Confirmation>)
    ensures !r.result.Registered? ==> r.store == s
    ensures r.result.MalformedCallback? <==> ParseWebinarId(data).None?
    ensures r.result.UserOrWebinarMissing? <==>
              ParseWebinarId(data).Some? &&
              (telegramId !in s.users || !HasWebinar(s.webinars, ParseWebinarId(data).value))
    ensures r.result.AlreadyRegistered? <==>
              ParseWebinarId(data).Some? && telegramId in s.users &&
              HasWebinar(s.webinars, ParseWebinarId(data).value) &&
              Registration(telegramId, ParseWebinarId(data).value) in s.webinarRegistrations
    ensures r.result.Registered? ==>
              && ParseWebinarId(data).Some?
              && telegramId in s.users
              && r.store.webinarRegistrations ==
                   s.webinarRegistrations + [Registration(telegramId, ParseWebinarId(data).value)]
              && r.store.users.Keys == s.users.Keys
              && (forall t :: t in s.users && t != telegramId ==> r.store.users[t] == s.users[t])
              && r.store.users[telegramId] == WithBonus(s.users[telegramId])
              && r.result.balance == r.store.users[telegramId].balance
              && r.store.webinars == s.webinars && r.store.courses == s.courses
              && r.store.courseRegistrations == s.courseRegistrations && r.store.payments == s.payments
  {
    match ParseWebinarId(data)
    case None => Step(MalformedCallback, s)
    case Some(id) =>
      if telegramId !in s.users || FindWebinar(s.webinars, id).None? then Step(UserOrWebinarMissing, s)
      else if Registration(telegramId, id) in s.webinarRegistrations then Step(AlreadyRegistered, s)
      else
        // The composite primary key would reject a duplicate pair; the check
        // above means it never does.
        match InsertRegistration(s.webinarRegistrations, Registration(telegramId, id))
        case None => Step(AlreadyRegistered, s)
        case Some(rows) => RecordAndCredit(s.(webinarRegistrations := rows), telegramId)
  }

  /** The second half of a first confirmation, after the registration row is
      committed: credit the bonus and read the balance back for display. */
  function RecordAndCredit(registered: Store, telegramId: int): (r: Step<Confirmation>)
    requires telegramId in registered.users
    ensures r.result.Registered?
    ensures OnlyUserChanged(registered, r.store, telegramId)
    ensures r.store.users[telegramId] == WithBonus(registered.users[telegramId])
    ensures r.result.balance == r.store.users[telegramId].balance
  {
    var credited := CoinService.AddCoins(registered, telegramId, ConfirmationBonus, BonusReason, Some(BonusDescription));
    Step(Registered(CoinService.GetBalance(credited.store, telegramId)), credited.store)
  }

  /** Confirmation keeps every store constraint: the registration table stays
      free of duplicate pairs and refers to existing rows, and the ledger
      stays consistent. */
  lemma {:induction false} ConfirmPreservesValid(s: Store, telegramId: int, data: string)
    requires Valid(s)
    ensures Valid(ConfirmRegistration(s, telegramId, data).store)
  {
    var r := ConfirmRegistration(s, telegramId, data);
    if r.result.Registered? {
      var row := Registration(telegramId, ParseWebinarId(data).value);
      var registered := s.(webinarRegistrations := s.webinarRegistrations + [row]);
      AddWebinarRegistrationKeepsValid(s, row);
      var u := s.users[telegramId];
      CoinService.AppendKeepsLedger(u, BonusOperation);
      assert OnlyUserChanged(registered, r.store, telegramId);
      CoinService.ReplaceUserKeepsValid(registered, r.store, telegramId);
    }
  }

  /** Pressing the same confirmation button twice registers once and credits
      the bonus once: the second press changes nothing, the table still holds
      at most one row per pair, and the net gain is 100 coins exactly when the
      first press registered. */
  lemma {:induction false} ConfirmTwiceRegistersOnce(s: Store, telegramId: int, data: string)
    requires Valid(s)
    ensures var first := ConfirmRegistration(s, telegramId, data);
            var second := ConfirmRegistration(first.store, telegramId, data);
            && !second.result.Registered?
            && second.store == first.store
            && (first.result.Registered? ==> second.result.AlreadyRegistered?)
            && NoDuplicateRows(second.store.webinarRegistrations)
            && CoinService.GetBalance(second.store, telegramId) ==
                 CoinService.GetBalance(s, telegramId) + (if first.result.Registered? then ConfirmationBonus else 0)
  {
  }

  /** The fresh-pair case of the double press: when the user and webinar
      exist and the pair is not yet registered, two presses leave the pair in
      the table exactly once and the balance exactly 100 coins higher. */
  lemma {:induction false} ConfirmTwiceFreshPair(s: Store, telegramId: int, data: string, id: int)
    requires Valid(s)
    requires ParseWebinarId(data) == Some(id)
    requires telegramId in s.users && HasWebinar(s.webinars, id)
    requires Registration(telegramId, id) !in s.webinarRegistrations
    ensures var first := ConfirmRegistration(s, telegramId, data);
            var second := ConfirmRegistration(first.store, telegramId, data);
            && second.store.webinarRegistrations == s.webinarRegistrations + [Registration(telegramId, id)]
            && multiset(second.store.webinarRegistrations)[Registration(telegramId, id)] == 1
            && CoinService.GetBalance(second.store, telegramId) ==
                 CoinService.GetBalance(s, telegramId) + ConfirmationBonus
  {
    ConfirmFreshPair(s, telegramId, data, id);
    ConfirmTwiceRegistersOnce(s, telegramId, data);
    var rows := s.webinarRegistrations;
    assert multiset(rows)[Registration(telegramId, id)] == 0;
    assert multiset(rows + [Registration(telegramId, id)]) == multiset(rows) + multiset{Registration(telegramId, id)};
  }

  /** A callback naming an existing webinar the existing user has not
      registered for always registers and credits. */
  lemma {:induction false} ConfirmFreshPair(s: Store, telegramId: int, data: string, id: int)
    requires ParseWebinarId(data) == Some(id)
    requires telegramId in s.users && HasWebinar(s.webinars, id)
    requires Registration(telegramId, id) !in s.webinarRegistrations
    ensures var r := ConfirmRegistration(s, telegramId, data);
            && r.result == Registered(s.users[telegramId].balance + ConfirmationBonus)
            && r.store.webinarRegistrations == s.webinarRegistrations + [Registration(telegramId, id)]
  {
  }

  /** The end-to-end path: a user shown the next webinar who has not yet
      registered for it, and presses its button, is registered for exactly
      that webinar and credited the bonus. */
  lemma {:induction false} ShowThenConfirm(s: Store, now: Time, telegramId: int)
    requires telegramId in s.users
    requires ShowNextWebinar(s, now).ConfirmButton?
    requires Registration(telegramId, ShowNextWebinar(s, now).webinar.id) !in s.webinarRegistrations
    ensures var offer := ShowNextWebinar(s, now);
            var r := ConfirmRegistration(s, telegramId, offer.callbackData);
            && r.result == Registered(s.users[telegramId].balance + ConfirmationBonus)
            && r.store.webinarRegistrations ==
                 s.webinarRegistrations + [Registration(telegramId, offer.webinar.id)]
  {
    var offer := ShowNextWebinar(s, now);
    assert HasWebinar(s.webinars, offer.webinar.id);
    ConfirmFreshPair(s, telegramId, offer.callbackData, offer.webinar.id);
  }
}
