/**
 * The per-customer statement: an append-only sequence of operations, the
 * balance computed from it and the statement filtered by calendar day
 * (src/main.ts, getBalance and the /statement/date handler).
 */
module Ledger {
  import opened Wrappers

  /** An operation's `type`: the source only ever writes 'credit' or 'debit'. */
  datatype Kind = Credit | Debit

  /**
   * One statement entry. `amount` is in integer minor units; `createdAt` is the
   * instant of the append, in seconds on the server's local clock; only
   * deposits carry a (possibly absent) description.
   */
  datatype Operation = Operation(kind: Kind, amount: int, createdAt: int, description: Option<string>)

  const SecondsPerDay: int := 86400

  /** The reducer of getBalance: a credit adds its amount, anything else subtracts it. */
  function Apply(acc: int, op: Operation): int
  {
    if op.kind == Credit then acc + op.amount else acc - op.amount
  }

  /** `statement.reduce(Apply, acc)`: a left fold, first operation first. */
  function Fold(acc: int, s: seq<Operation>): int
    decreases |s|
  {
    if s == [] then acc else Fold(Apply(acc, s[0]), s[1..])
  }

  /** getBalance: the fold started at 0. */
  function Balance(s: seq<Operation>): int
  {
    Fold(0, s)
  }

  /** The signed effect of one operation on the balance. */
  function Effect(op: Operation): int
  {
    if op.kind == Credit then op.amount else -op.amount
  }

  /** Sum of the amounts of the credit operations. */
  function Credits(s: seq<Operation>): int
  {
    if s == [] then 0 else (if s[0].kind == Credit then s[0].amount else 0) + Credits(s[1..])
  }

  /** Sum of the amounts of the debit operations. */
  function Debits(s: seq<Operation>): int
  {
    if s == [] then 0 else (if s[0].kind == Debit then s[0].amount else 0) + Debits(s[1..])
  }

  /** Folding from any starting value shifts it by credits minus debits. */
  lemma {:induction false} FoldShift(acc: int, s: seq<Operation>)
    ensures Fold(acc, s) == acc + Credits(s) - Debits(s)
    decreases |s|
  {
    if s != [] {
      FoldShift(Apply(acc, s[0]), s[1..]);
    }
  }

  /** The balance is the sum of the credits minus the sum of the debits; an empty statement has balance 0. */
  lemma BalanceIsCreditsMinusDebits(s: seq<Operation>)
    ensures Balance(s) == Credits(s) - Debits(s)
    ensures s == [] ==> Balance(s) == 0
  {
    FoldShift(0, s);
  }

  /** Appending to the statement applies the reducer once more to the old result. */
  lemma {:induction false} FoldAppend(acc: int, s: seq<Operation>, op: Operation)
    ensures Fold(acc, s + [op]) == Fold(acc, s) + Effect(op)
    decreases |s|
  {
    if s != [] {
      assert (s + [op])[0] == s[0];
      assert (s + [op])[1..] == s[1..] + [op];
      FoldAppend(Apply(acc, s[0]), s[1..], op);
    }
  }

  /** Prefix-sum property: each append shifts the balance by exactly +amount (credit) or -amount (debit). */
  lemma BalanceAppend(s: seq<Operation>, op: Operation)
    ensures op.kind == Credit ==> Balance(s + [op]) == Balance(s) + op.amount
    ensures op.kind == Debit ==> Balance(s + [op]) == Balance(s) - op.amount
  {
    FoldAppend(0, s, op);
  }

  /** The balance of every prefix is the balance of the one before plus the next operation's effect. */
  lemma RunningBalance(s: seq<Operation>, k: nat)
    requires k < |s|
    ensures Balance(s[..k + 1]) == Balance(s[..k]) + Effect(s[k])
  {
    assert s[..k + 1] == s[..k] + [s[k]];
    FoldAppend(0, s[..k], s[k]);
  }

  /** A debit of exactly the current balance leaves the balance at 0. */
  lemma WithdrawAllLeavesZero(s: seq<Operation>, at: int)
    ensures Balance(s + [Operation(Debit, Balance(s), at, None)]) == 0
  {
    BalanceAppend(s, Operation(Debit, Balance(s), at, None));
  }

  /** A debit that the sufficiency check admits never drives the balance below 0. */
  lemma AdmittedDebitNeverOverdraws(s: seq<Operation>, amount: int, at: int)
    requires Balance(s) >= amount
    ensures Balance(s + [Operation(Debit, amount, at, None)]) >= 0
  {
    BalanceAppend(s, Operation(Debit, amount, at, None));
  }

  /** The local calendar day an instant falls on (days since the clock's epoch). */
  function Day(at: int): int
  {
    at / SecondsPerDay
  }

  /** An instant is on day `d` exactly when it lies in that day's 24-hour window, whatever the time of day. */
  lemma DayWindow(at: int, d: int)
    ensures Day(at) == d <==> d * SecondsPerDay <= at < d * SecondsPerDay + SecondsPerDay
  {
    var q, m := at / SecondsPerDay, at % SecondsPerDay;
    assert at == q * SecondsPerDay + m && 0 <= m < SecondsPerDay;
    if d < q {
      assert d * SecondsPerDay + SecondsPerDay <= q * SecondsPerDay;
    } else if d > q {
      assert q * SecondsPerDay + SecondsPerDay <= d * SecondsPerDay;
    }
  }

  /**
   * Does an operation's day string equal the requested one? `date` is None
   * when the query does not parse to a day: "Invalid Date" never equals the
   * day string of a real instant.
   */
  predicate OnDate(op: Operation, date: Option<int>)
  {
    date.Some? && Day(op.createdAt) == date.value
  }

  /** `r` is `s` with some entries dropped and the rest in their original order. */
  ghost predicate IsSubsequence(r: seq<Operation>, s: seq<Operation>)
    decreases |s|
  {
    if r == [] then true
    else if s == [] then false
    else (r[0] == s[0] && IsSubsequence(r[1..], s[1..])) || IsSubsequence(r, s[1..])
  }

  /**
   * The /statement/date filter: the operations of the requested calendar day,
   * in statement order.
   */
  function OnDay(s: seq<Operation>, date: Option<int>): (r: seq<Operation>)
    ensures IsSubsequence(r, s)
    ensures forall op :: op in r <==> op in s && OnDate(op, date)
    ensures forall op {:trigger multiset(r)[op]} :: multiset(r)[op] == if OnDate(op, date) then multiset(s)[op] else 0
    decreases |s|
  {
    if s == [] then []
    else
      var rest := OnDay(s[1..], date);
      assert s == [s[0]] + s[1..];
      if OnDate(s[0], date) then
        assert ([s[0]] + rest)[1..] == rest;
        [s[0]] + rest
      else rest
  }

  /**
   * Filtering a grown statement: the new operation shows up on its own day's
   * statement, after the earlier ones, and on no other day's.
   */
  lemma {:induction false} OnDayAppend(s: seq<Operation>, op: Operation, date: Option<int>)
    ensures OnDay(s + [op], date) == OnDay(s, date) + (if OnDate(op, date) then [op] else [])
    decreases |s|
  {
    if s != [] {
      assert (s + [op])[0] == s[0];
      assert (s + [op])[1..] == s[1..] + [op];
      OnDayAppend(s[1..], op, date);
    }
  }
}
