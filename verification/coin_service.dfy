/**
 The coin ledger: crediting and debiting a user's coin balance while
 appending one operation to the user's history per successful call.
 Amounts are normalised to their magnitude before use, so a credit can never
 lower a balance and a debit can never raise one.
 */
module CoinService {
  import opened Wrappers
  import opened Models

  function Abs(n: int): (m: int)
    ensures m >= 0 && (m == n || m == -n)
  {
    if n < 0 then -n else n
  }

  /** What `add_coins` answers for a Telegram id with no user. */
  const UnknownUserBalance: int := 0

  /** What `subtract_coins` answers when it debits nothing. */
  const Refused: int := -1

  /** `add_coins`: credits `|amount|` coins and records an EARNED operation;
      answers the new balance, or 0 without any change for an unknown user. */
  function AddCoins(s: Store, telegramId: int, amount: int, reason: string, description: Option<string>): (r: Step<int>)
    ensures telegramId !in s.users ==> r == Step(UnknownUserBalance, s)
    ensures telegramId in s.users ==>
      && OnlyUserChanged(s, r.store, telegramId)
      && var u := s.users[telegramId];
         && r.store.users[telegramId] == u.(
              balance := u.balance + Abs(amount),
              operations := u.operations + [CoinOperation(Abs(amount), Earned, reason, description)])
         && r.result == u.balance + Abs(amount)
  {
    var credit := Abs(amount);
    if telegramId !in s.users then Step(UnknownUserBalance, s)
    else
      var u := s.users[telegramId];
      var u' := u.(
        balance := u.balance + credit,
        operations := u.operations + [CoinOperation(credit, Earned, reason, description)]);
      Step(u'.balance, s.(users := s.users[telegramId := u']))
  }

  /** `subtract_coins`: debits `|amount|` coins and records a SPENT operation
      with the negated amount; refuses, changing nothing, for an unknown user
      or a balance below `|amount|`. */
  function SubtractCoins(s: Store, telegramId: int, amount: int, reason: string, description: Option<string>): (r: Step<int>)
    ensures telegramId !in s.users ==> r == Step(Refused, s)
    ensures telegramId in s.users && s.users[telegramId].balance < Abs(amount) ==> r == Step(Refused, s)
    ensures telegramId in s.users && s.users[telegramId].balance >= Abs(amount) ==>
      && OnlyUserChanged(s, r.store, telegramId)
      && var u := s.users[telegramId];
         && r.store.users[telegramId] == u.(
              balance := u.balance - Abs(amount),
              operations := u.operations + [CoinOperation(-Abs(amount), Spent, reason, description)])
         && r.result == u.balance - Abs(amount)
    ensures r.result >= 0 <==> r.store != s
    ensures r.result >= Refused
  {
    var debit := Abs(amount);
    if telegramId !in s.users then Step(Refused, s)
    else
      var u := s.users[telegramId];
      if u.balance < debit then Step(Refused, s)
      else
        var u' := u.(
          balance := u.balance - debit,
          operations := u.operations + [CoinOperation(-debit, Spent, reason, description)]);
        assert |u'.operations| != |u.operations|;
        Step(u'.balance, s.(users := s.users[telegramId := u']))
  }

  /** `get_balance`: the stored balance, or 0 for an unknown user. */
  function GetBalance(s: Store, telegramId: int): (r: int)
    ensures telegramId !in s.users ==> r == 0
    ensures telegramId in s.users ==> r == s.users[telegramId].balance
    ensures Valid(s) ==> r >= 0
    ensures Valid(s) && telegramId in s.users ==> r == OperationsSum(s.users[telegramId].operations)
  {
    if telegramId in s.users then s.users[telegramId].balance else 0
  }

  /** `get_user_with_coins`: the user row with its coin history, if any. */
  function GetUserWithCoins(s: Store, telegramId: int): (r: Option<User>)
    ensures r.Some? <==> telegramId in s.users
    ensures r.Some? ==> r.value == s.users[telegramId]
    ensures r.Some? && Valid(s) ==> r.value.balance == OperationsSum(r.value.operations)
  {
    if telegramId in s.users then Some(s.users[telegramId]) else None
  }

  // ---------------------------------------------------------------------------
  // The ledger invariant

  /** A user whose history totals their balance still does after one more
      well-signed operation that moves the balance by its amount. */
  lemma {:induction false} AppendKeepsLedger(u: User, op: CoinOperation)
    requires LedgerConsistent(u)
    requires WellSigned(op)
    requires u.balance + op.amount >= 0
    ensures LedgerConsistent(u.(balance := u.balance + op.amount, operations := u.operations + [op]))
  {
    OperationsSumAppend(u.operations, op);
    var ops := u.operations + [op];
    assert forall i :: 0 <= i < |ops| ==> WellSigned(ops[i]) by {
      forall i | 0 <= i < |ops|
        ensures WellSigned(ops[i])
      {
        if i < |u.operations| {
          assert ops[i] == u.operations[i];
        }
      }
    }
  }

  /** Replacing one user's row by a ledger-consistent row of the same key
      keeps every store constraint. */
  lemma {:induction false} ReplaceUserKeepsValid(s: Store, s': Store, telegramId: int)
    requires Valid(s)
    requires telegramId in s.users
    requires OnlyUserChanged(s, s', telegramId)
    requires LedgerConsistent(s'.users[telegramId])
    ensures Valid(s')
  {
  }

  lemma {:induction false} AddCoinsPreservesValid(s: Store, telegramId: int, amount: int, reason: string, description: Option<string>)
    requires Valid(s)
    ensures Valid(AddCoins(s, telegramId, amount, reason, description).store)
  {
    if telegramId in s.users {
      var r := AddCoins(s, telegramId, amount, reason, description);
      AppendKeepsLedger(s.users[telegramId], CoinOperation(Abs(amount), Earned, reason, description));
      ReplaceUserKeepsValid(s, r.store, telegramId);
    }
  }

  lemma {:induction false} SubtractCoinsPreservesValid(s: Store, telegramId: int, amount: int, reason: string, description: Option<string>)
    requires Valid(s)
    ensures Valid(SubtractCoins(s, telegramId, amount, reason, description).store)
  {
    if telegramId in s.users && s.users[telegramId].balance >= Abs(amount) {
      var r := SubtractCoins(s, telegramId, amount, reason, description);
      AppendKeepsLedger(s.users[telegramId], CoinOperation(-Abs(amount), Spent, reason, description));
      ReplaceUserKeepsValid(s, r.store, telegramId);
    }
  }

  /** A credit never lowers anyone's balance; a debit never raises anyone's,
      and never takes a balance below zero. */
  lemma {:induction false} BalancesMoveInTheStatedDirection(s: Store, telegramId: int, amount: int, reason: string, description: Option<string>)
    requires Valid(s)
    ensures forall t :: GetBalance(AddCoins(s, telegramId, amount, reason, description).store, t) >= GetBalance(s, t)
    ensures forall t :: 0 <= GetBalance(SubtractCoins(s, telegramId, amount, reason, description).store, t) <= GetBalance(s, t)
  {
  }

  /** Debiting what was just credited succeeds and restores the balance; the
      history keeps both entries, which cancel out. */
  lemma {:induction false} SubtractUndoesAdd(s: Store, telegramId: int, amount: int, reason: string, description: Option<string>)
    requires Valid(s)
    requires telegramId in s.users
    ensures var added := AddCoins(s, telegramId, amount, reason, description).store;
            var back := SubtractCoins(added, telegramId, amount, reason, description);
            && back.result == GetBalance(s, telegramId)
            && GetBalance(back.store, telegramId) == GetBalance(s, telegramId)
            && |back.store.users[telegramId].operations| == |s.users[telegramId].operations| + 2
            && OperationsSum(back.store.users[telegramId].operations) == OperationsSum(s.users[telegramId].operations)
  {
    var added := AddCoins(s, telegramId, amount, reason, description).store;
    AddCoinsPreservesValid(s, telegramId, amount, reason, description);
    SubtractCoinsPreservesValid(added, telegramId, amount, reason, description);
  }

  // ---------------------------------------------------------------------------
  // Any sequence of ledger calls

  datatype LedgerCall =
    | Credit(telegramId: int, amount: int, reason: string, description: Option<string>)
    | Debit(telegramId: int, amount: int, reason: string, description: Option<string>)

  function Apply(s: Store, call: LedgerCall): Store {
    match call
    case Credit(t, a, why, d) => AddCoins(s, t, a, why, d).store
    case Debit(t, a, why, d) => SubtractCoins(s, t, a, why, d).store
  }

  function Run(s: Store, calls: seq<LedgerCall>): Store
    decreases |calls|
  {
    if |calls| == 0 then s else Run(Apply(s, calls[0]), calls[1..])
  }

  /** After any sequence of credits and debits, refused ones included, every
      user's balance is still the total of their history and never negative;
      no user appears or disappears and no other table changes. */
  lemma {:induction false} RunPreservesValid(s: Store, calls: seq<LedgerCall>)
    requires Valid(s)
    ensures Valid(Run(s, calls))
    ensures Run(s, calls).users.Keys == s.users.Keys
    ensures Run(s, calls).(users := s.users) == s
    decreases |calls|
  {
    if |calls| > 0 {
      match calls[0] {
        case Credit(t, a, why, d) => AddCoinsPreservesValid(s, t, a, why, d);
        case Debit(t, a, why, d) => SubtractCoinsPreservesValid(s, t, a, why, d);
      }
      RunPreservesValid(Apply(s, calls[0]), calls[1..]);
    }
  }
}
