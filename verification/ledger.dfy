/** A customer's statement: the credit and debit operations recorded on it, the balance
    derived from them (getBalance, src/index.js:26-36) and the statement-by-date filter
    (src/index.js:95-99). Everything here is a pure value. */
module Ledger {
  import opened Wrappers

  datatype OpType = Credit | Debit

  /** A moment in the service's local time zone: the calendar day and the time within it.
      `Date.toDateString` keeps the day and drops the time of day. */
  datatype Instant = Instant(day: int, timeOfDay: nat)

  /** One entry of a statement. `description` is `undefined` on debits and on credits
      whose request carried none. */
  datatype Operation = Operation(kind: OpType, amount: int, createdAt: Instant, description: Option<string>)

  /** The record the deposit handler appends (src/index.js:108-113). */
  function CreditOp(amount: int, at: Instant, description: Option<string>): Operation {
    Operation(Credit, amount, at, description)
  }

  /** The record the withdraw handler appends (src/index.js:130-134): it has no description. */
  function DebitOp(amount: int, at: Instant): Operation {
    Operation(Debit, amount, at, None)
  }

  /** What one step of the reduce does to the accumulator: a credit adds its amount,
      anything else subtracts it. */
  function Delta(op: Operation): int {
    if op.kind == Credit then op.amount else -op.amount
  }

  /** getBalance: the reduce at src/index.js:27-33, a left fold from 0 over the statement
      in insertion order. The stray statement after it on line 33 is not part of this
      definition; BalanceAsWritten models it. */
  function Balance(st: seq<Operation>): int
    decreases |st|
  {
    if st == [] then 0 else Balance(st[..|st| - 1]) + Delta(st[|st| - 1])
  }

  /** Sum of the amounts of the credits, an independent reference for Balance. */
  function TotalCredits(st: seq<Operation>): int {
    if st == [] then 0 else (if st[0].kind == Credit then st[0].amount else 0) + TotalCredits(st[1..])
  }

  /** Sum of the amounts of the debits. */
  function TotalDebits(st: seq<Operation>): int {
    if st == [] then 0 else (if st[0].kind == Debit then st[0].amount else 0) + TotalDebits(st[1..])
  }

  /** An empty statement has balance 0, and appending an operation moves the balance by
      that operation's amount, up for a credit and down for a debit. */
  lemma BalanceAppend(st: seq<Operation>, op: Operation)
    ensures Balance([]) == 0
    ensures Balance(st + [op]) == if op.kind == Credit then Balance(st) + op.amount else Balance(st) - op.amount
  {
  }

  lemma {:induction false} TotalsAppend(st: seq<Operation>, op: Operation)
    ensures TotalCredits(st + [op]) == TotalCredits(st) + (if op.kind == Credit then op.amount else 0)
    ensures TotalDebits(st + [op]) == TotalDebits(st) + (if op.kind == Debit then op.amount else 0)
  {
    if st != [] {
      assert (st + [op])[1..] == st[1..] + [op];
      TotalsAppend(st[1..], op);
    }
  }

  /** The balance is the total of the credits minus the total of the debits. */
  lemma {:induction false} BalanceIsCreditsMinusDebits(st: seq<Operation>)
    ensures Balance(st) == TotalCredits(st) - TotalDebits(st)
  {
    if st != [] {
      var init, last := st[..|st| - 1], st[|st| - 1];
      assert st == init + [last];
      BalanceIsCreditsMinusDebits(init);
      TotalsAppend(init, last);
      BalanceAppend(init, last);
    }
  }

  /** The withdraw guard (src/index.js:126) lets a debit through only when the balance
      covers it; the balance after that debit is the old one less the amount, and is
      never negative. */
  lemma GuardedDebitKeepsBalanceNonNegative(st: seq<Operation>, amount: int, at: Instant)
    requires !(Balance(st) < amount)
    ensures Balance(st + [DebitOp(amount, at)]) == Balance(st) - amount
    ensures Balance(st + [DebitOp(amount, at)]) >= 0
  {
  }

  /** A JavaScript exception; only the one the stray statement at src/index.js:33 raises. */
  datatype JsError = ReferenceError(identifier: string)

  /** getBalance exactly as written: the reduce runs, and then `return acc + operation.amount`
      names `acc`, which is a parameter of the reducer and not in scope, so the call throws
      before `return balance` (src/index.js:35) is reached. */
  function BalanceAsWritten(st: seq<Operation>): Result<int, JsError> {
    var discarded := Balance(st);
    Err(ReferenceError("acc"))
  }

  /** As written, getBalance never produces the balance, for any statement. */
  lemma BalanceAsWrittenNeverReturns(st: seq<Operation>)
    ensures BalanceAsWritten(st).Err?
    ensures BalanceAsWritten(st) != Ok(Balance(st))
  {
  }

  /** r is what remains of s after deleting some elements: the rest keep their order. */
  ghost predicate IsSubsequence<T>(r: seq<T>, s: seq<T>)
    decreases |s|
  {
    if r == [] then true
    else if s == [] then false
    else (r[0] == s[0] && IsSubsequence(r[1..], s[1..])) || IsSubsequence(r, s[1..])
  }

  /** Whether an operation falls on the queried calendar day. An unparseable query date is
      None: `new Date(...)` then yields an invalid date, whose `toDateString()` is
      "Invalid Date" and equals no operation's date string. */
  predicate OnDay(op: Operation, date: Option<int>) {
    date.Some? && op.createdAt.day == date.value
  }

  /** The statement-by-date filter (src/index.js:97-99): the operations on the queried day,
      in statement order, whatever their time of day. */
  function OnDate(st: seq<Operation>, date: Option<int>): (r: seq<Operation>)
    ensures |r| <= |st|
    ensures forall i :: 0 <= i < |r| ==> OnDay(r[i], date)
  {
    if st == [] then []
    else if OnDay(st[0], date) then [st[0]] + OnDate(st[1..], date)
    else OnDate(st[1..], date)
  }

  /** The filter keeps exactly the operations on the queried day: each as many times as the
      statement holds it, in statement order, and drops every other one. */
  lemma {:induction false} OnDateKeepsExactlyThatDay(st: seq<Operation>, date: Option<int>)
    ensures forall op :: multiset(OnDate(st, date))[op] == if OnDay(op, date) then multiset(st)[op] else 0
    ensures IsSubsequence(OnDate(st, date), st)
  {
    if st != [] {
      OnDateKeepsExactlyThatDay(st[1..], date);
      assert st == [st[0]] + st[1..];
      if OnDay(st[0], date) {
        assert ([st[0]] + OnDate(st[1..], date))[1..] == OnDate(st[1..], date);
      }
    }
  }

  /** Filtering distributes over concatenation: the operations on a day keep the order in
      which they were appended. */
  lemma {:induction false} OnDateAppend(a: seq<Operation>, b: seq<Operation>, date: Option<int>)
    ensures OnDate(a + b, date) == OnDate(a, date) + OnDate(b, date)
  {
    if a == [] {
      assert a + b == b;
    } else {
      var ab := a + b;
      assert ab[0] == a[0] && ab[1..] == a[1..] + b;
      OnDateAppend(a[1..], b, date);
      if OnDay(a[0], date) {
        calc {
          OnDate(ab, date);
          [a[0]] + OnDate(a[1..] + b, date);
          [a[0]] + (OnDate(a[1..], date) + OnDate(b, date));
          ([a[0]] + OnDate(a[1..], date)) + OnDate(b, date);
        }
      }
    }
  }

  /** Filtering twice by the same date is filtering once. */
  lemma {:induction false} OnDateIdempotent(st: seq<Operation>, date: Option<int>)
    ensures OnDate(OnDate(st, date), date) == OnDate(st, date)
  {
    if st != [] {
      OnDateIdempotent(st[1..], date);
      if OnDay(st[0], date) {
        assert ([st[0]] + OnDate(st[1..], date))[1..] == OnDate(st[1..], date);
      }
    }
  }

  /** A statement whose operations all fall on the queried day comes back whole, and one
      with none on that day comes back empty. */
  lemma {:induction false} OnDateAllOrNothing(st: seq<Operation>, date: Option<int>)
    ensures (forall i :: 0 <= i < |st| ==> OnDay(st[i], date)) ==> OnDate(st, date) == st
    ensures (forall i :: 0 <= i < |st| ==> !OnDay(st[i], date)) ==> OnDate(st, date) == []
  {
    if st != [] {
      OnDateAllOrNothing(st[1..], date);
      assert forall i :: 1 <= i < |st| ==> st[1..][i - 1] == st[i];
    }
  }

  /** Two operations on one day at different times both match that day and the next day's
      first operation does not; the matching part moves the balance by +70. */
  lemma OnDateExample()
    ensures
      var st := [CreditOp(100, Instant(5, 540), None), DebitOp(30, Instant(5, 1430)), CreditOp(5, Instant(6, 1), None)];
      OnDate(st, Some(5)) == st[..2] && Balance(OnDate(st, Some(5))) == 70
  {
    var st := [CreditOp(100, Instant(5, 540), None), DebitOp(30, Instant(5, 1430)), CreditOp(5, Instant(6, 1), None)];
    assert st[1..][1..] == [st[2]];
    assert OnDate([st[2]], Some(5)) == [];
    assert st[..2] == [st[0]] + [st[1]];
    BalanceAppend([st[0]], st[1]);
    BalanceAppend([], st[0]);
  }
}
