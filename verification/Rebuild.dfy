/**
 The cached balances and monthly summaries against what the transactions say, and their repair
 (repositories/ledger_rebuild.go, domain/finance/derive.go). Missing on either side counts as zero.
 */
module Rebuild {
  import opened Calendar
  import opened Installments
  import opened Ledger

  datatype Totals = Totals(debits: Cents, credits: Cents)

  datatype SummaryKey = SummaryKey(month: Month, account: Account)

  datatype Books = Books(balances: map<Account, Cents>, summary: map<SummaryKey, Totals>)

  datatype Drift =
    | BalanceDrift(account: Account, held: Cents, derived: Cents)
    | SummaryDrift(key: SummaryKey, was: Totals, due: Totals)

  const Zero: Totals := Totals(0, 0)

  function BalanceIn(b: Books, a: Account): Cents { if a in b.balances then b.balances[a] else 0 }

  function TotalsIn(b: Books, k: SummaryKey): Totals { if k in b.summary then b.summary[k] else Zero }

  // ---- what the transactions say ----

  function LegTotals(legs: seq<Leg>, a: Account): Totals {
    if legs == [] then Zero
    else
      var t, l := LegTotals(legs[..|legs| - 1], a), legs[|legs| - 1];
      if l.account != a then t else WithAmount(t, l.amount)
  }

  /** A debit, or the magnitude of a credit. */
  function WithAmount(t: Totals, amount: Cents): Totals {
    if amount > 0 then t.(debits := t.debits + amount) else t.(credits := t.credits - amount)
  }

  function Plus(t: Totals, u: Totals): Totals { Totals(t.debits + u.debits, t.credits + u.credits) }

  /** An account's debits and credits in a month. */
  function MonthTotals(log: seq<Tx>, k: SummaryKey): Totals {
    if log == [] then Zero
    else
      var tx := log[|log| - 1];
      Plus(MonthTotals(log[..|log| - 1], k), if tx.date.month == k.month then LegTotals(tx.legs, k.account) else Zero)
  }

  /** The books agree with the log on every account and every month. */
  ghost predicate Says(b: Books, log: seq<Tx>) {
    && (forall a :: BalanceIn(b, a) == Balance(log, a))
    && (forall k :: TotalsIn(b, k) == MonthTotals(log, k))
  }

  /** What one leg of a transaction dated in month m adds. */
  function WithLeg(b: Books, m: Month, l: Leg): Books {
    var k := SummaryKey(m, l.account);
    Books(b.balances[l.account := BalanceIn(b, l.account) + l.amount], b.summary[k := WithAmount(TotalsIn(b, k), l.amount)])
  }

  predicate BalanceSaid(b: Books, log: seq<Tx>, legs: seq<Leg>, a: Account) { BalanceIn(b, a) == Balance(log, a) + NetLegs(legs, a) }

  predicate TotalsSaid(b: Books, log: seq<Tx>, m: Month, legs: seq<Leg>, k: SummaryKey) {
    TotalsIn(b, k) == Plus(MonthTotals(log, k), if k.month == m then LegTotals(legs, k.account) else Zero)
  }

  /** The books with the log and the first legs of one more transaction. */
  ghost predicate SaysPart(b: Books, log: seq<Tx>, m: Month, legs: seq<Leg>) {
    (forall a :: BalanceSaid(b, log, legs, a)) && (forall k :: TotalsSaid(b, log, m, legs, k))
  }

  lemma LegsSnoc(legs: seq<Leg>, l: Leg, a: Account)
    ensures NetLegs(legs + [l], a) == NetLegs(legs, a) + (if l.account == a then l.amount else 0)
    ensures LegTotals(legs + [l], a) == WithAmount(LegTotals(legs, a), if l.account == a then l.amount else 0)
  {
    assert (legs + [l])[..|legs|] == legs;
  }

  lemma BalanceLeg(b: Books, log: seq<Tx>, m: Month, legs: seq<Leg>, l: Leg, a: Account)
    requires BalanceSaid(b, log, legs, a)
    ensures BalanceSaid(WithLeg(b, m, l), log, legs + [l], a)
  {
    LegsSnoc(legs, l, a);
  }

  lemma TotalsLeg(b: Books, log: seq<Tx>, m: Month, legs: seq<Leg>, l: Leg, k: SummaryKey)
    requires TotalsSaid(b, log, m, legs, k)
    ensures TotalsSaid(WithLeg(b, m, l), log, m, legs + [l], k)
  {
    LegsSnoc(legs, l, k.account);
    assert TotalsIn(WithLeg(b, m, l), k) == WithAmount(TotalsIn(b, k), if k == SummaryKey(m, l.account) then l.amount else 0);
  }

  lemma LegSaid(b: Books, log: seq<Tx>, m: Month, legs: seq<Leg>, l: Leg)
    requires SaysPart(b, log, m, legs)
    ensures SaysPart(WithLeg(b, m, l), log, m, legs + [l])
  {
    forall a ensures BalanceSaid(WithLeg(b, m, l), log, legs + [l], a) {
      BalanceLeg(b, log, m, legs, l, a);
    }
    forall k ensures TotalsSaid(WithLeg(b, m, l), log, m, legs + [l], k) {
      TotalsLeg(b, log, m, legs, l, k);
    }
  }

  lemma NoneSaid(b: Books, log: seq<Tx>, m: Month)
    requires Says(b, log)
    ensures SaysPart(b, log, m, [])
  {
    forall a ensures BalanceSaid(b, log, [], a) {
      assert BalanceIn(b, a) == Balance(log, a);
    }
    forall k ensures TotalsSaid(b, log, m, [], k) {
      assert TotalsIn(b, k) == MonthTotals(log, k);
    }
  }

  lemma TxSaid(b: Books, log: seq<Tx>, tx: Tx)
    requires SaysPart(b, log, tx.date.month, tx.legs)
    ensures Says(b, log + [tx])
  {
    assert (log + [tx])[..|log|] == log;
    forall a ensures BalanceIn(b, a) == Balance(log + [tx], a) {
      assert BalanceSaid(b, log, tx.legs, a);
    }
    forall k ensures TotalsIn(b, k) == MonthTotals(log + [tx], k) {
      assert TotalsSaid(b, log, tx.date.month, tx.legs, k);
    }
  }

  /** Folds the transactions into balances and monthly totals. */
  method Derive(log: seq<Tx>) returns (b: Books)
    ensures Says(b, log)
  {
    b := Books(map[], map[]);
    for i := 0 to |log|
      invariant Says(b, log[..i])
    {
      assert log[..i + 1] == log[..i] + [log[i]];
      b := AddLegs(b, log[..i], log[i]);
    }
    assert log[..|log|] == log;
  }

  method AddLegs(was: Books, ghost log: seq<Tx>, tx: Tx) returns (b: Books)
    requires Says(was, log)
    ensures Says(b, log + [tx])
  {
    b := was;
    NoneSaid(b, log, tx.date.month);
    assert tx.legs[..0] == [];
    for j := 0 to |tx.legs|
      invariant SaysPart(b, log, tx.date.month, tx.legs[..j])
    {
      LegSaid(b, log, tx.date.month, tx.legs[..j], tx.legs[j]);
      assert tx.legs[..j + 1] == tx.legs[..j] + [tx.legs[j]];
      b := WithLeg(b, tx.date.month, tx.legs[j]);
    }
    assert tx.legs[..|tx.legs|] == tx.legs;
    TxSaid(b, log, tx);
  }

  // ---- the report ----

  ghost predicate IsDrift(d: Drift, held: Books, derived: Books) {
    match d
    case BalanceDrift(a, s, x) => s == BalanceIn(held, a) && x == BalanceIn(derived, a) && s != x
    case SummaryDrift(k, s, x) => s == TotalsIn(held, k) && x == TotalsIn(derived, k) && s != x
  }

  /** Each value that differs, once, and nothing else. */
  ghost predicate Reports(out: seq<Drift>, held: Books, derived: Books) {
    && (forall d :: d in out <==> IsDrift(d, held, derived))
    && forall i, j :: 0 <= i < j < |out| ==> out[i] != out[j]
  }

  method Compare(held: Books, derived: Books) returns (out: seq<Drift>)
    ensures Reports(out, held, derived)
  {
    var balances := CompareBalances(held, derived);
    var summaries := CompareSummaries(held, derived);
    out := balances + summaries;
    forall d ensures d in out <==> IsDrift(d, held, derived) {
      assert d in out <==> d in balances || d in summaries;
    }
  }

  method CompareBalances(held: Books, derived: Books) returns (out: seq<Drift>)
    ensures forall d :: d in out <==> d.BalanceDrift? && IsDrift(d, held, derived)
    ensures forall i, j :: 0 <= i < j < |out| ==> out[i] != out[j]
  {
    out := [];
    var rest := held.balances.Keys + derived.balances.Keys;
    while rest != {}
      invariant forall d :: d in out <==> d.BalanceDrift? && IsDrift(d, held, derived) && d.account !in rest
      invariant forall i, j :: 0 <= i < j < |out| ==> out[i] != out[j]
      decreases rest
    {
      var a :| a in rest;
      rest := rest - {a};
      var s, d := BalanceIn(held, a), BalanceIn(derived, a);
      if s != d {
        out := out + [BalanceDrift(a, s, d)];
      }
    }
  }

  method CompareSummaries(held: Books, derived: Books) returns (out: seq<Drift>)
    ensures forall d :: d in out <==> d.SummaryDrift? && IsDrift(d, held, derived)
    ensures forall i, j :: 0 <= i < j < |out| ==> out[i] != out[j]
  {
    out := [];
    var rest := held.summary.Keys + derived.summary.Keys;
    while rest != {}
      invariant forall d :: d in out <==> d.SummaryDrift? && IsDrift(d, held, derived) && d.key !in rest
      invariant forall i, j :: 0 <= i < j < |out| ==> out[i] != out[j]
      decreases rest
    {
      var k :| k in rest;
      rest := rest - {k};
      var s, d := TotalsIn(held, k), TotalsIn(derived, k);
      if s != d {
        out := out + [SummaryDrift(k, s, d)];
      }
    }
  }

  /** The report is empty exactly when cache and transactions agree everywhere. */
  lemma EmptyReportIff(out: seq<Drift>, held: Books, derived: Books, log: seq<Tx>)
    requires Says(derived, log) && Reports(out, held, derived)
    ensures out == [] <==> Says(held, log)
  {
    if out == [] {
      forall a ensures BalanceIn(held, a) == Balance(log, a) {
        assert !IsDrift(BalanceDrift(a, BalanceIn(held, a), BalanceIn(derived, a)), held, derived);
      }
      forall k ensures TotalsIn(held, k) == MonthTotals(log, k) {
        assert !IsDrift(SummaryDrift(k, TotalsIn(held, k), TotalsIn(derived, k)), held, derived);
      }
    } else {
      assert IsDrift(out[0], held, derived) by { assert out[0] in out; }
    }
  }

  // ---- the repair ----

  /** Right for every account of the chart and for every month. */
  ghost predicate Repaired(b: Books, log: seq<Tx>) {
    && (forall a :: a in b.balances ==> b.balances[a] == Balance(log, a))
    && (forall k :: TotalsIn(b, k) == MonthTotals(log, k))
  }

  /** The first n drifts are repaired; every other value is as it was, or right. */
  ghost predicate Repairing(was: Books, now: Books, log: seq<Tx>, drift: seq<Drift>, n: nat)
    requires n <= |drift|
  {
    && now.balances.Keys == was.balances.Keys
    && (forall a :: a in now.balances ==> now.balances[a] == was.balances[a] || now.balances[a] == Balance(log, a))
    && (forall k :: TotalsIn(now, k) == TotalsIn(was, k) || TotalsIn(now, k) == MonthTotals(log, k))
    && forall j :: 0 <= j < n ==> RightAt(now, log, drift[j])
  }

  ghost predicate RightAt(b: Books, log: seq<Tx>, d: Drift) {
    match d
    case BalanceDrift(a, _, _) => a in b.balances ==> b.balances[a] == Balance(log, a)
    case SummaryDrift(k, _, _) => TotalsIn(b, k) == MonthTotals(log, k)
  }

  function Overwritten(b: Books, d: Drift): Books {
    match d
    case BalanceDrift(a, _, x) => if a in b.balances then b.(balances := b.balances[a := x]) else b
    case SummaryDrift(k, _, x) => b.(summary := b.summary[k := x])
  }

  lemma RepairStep(was: Books, now: Books, derived: Books, log: seq<Tx>, drift: seq<Drift>, i: nat)
    requires Says(derived, log) && Reports(drift, was, derived) && i < |drift| && Repairing(was, now, log, drift, i)
    ensures Repairing(was, Overwritten(now, drift[i]), log, drift, i + 1)
  {
    assert drift[i] in drift && IsDrift(drift[i], was, derived);
    var t := Overwritten(now, drift[i]);
    forall j | 0 <= j < i + 1 ensures RightAt(t, log, drift[j]) {
      assert j < i ==> RightAt(now, log, drift[j]);
    }
  }

  class Cache {
    const log: seq<Tx>
    var books: Books

    constructor (log: seq<Tx>, books: Books)
      ensures this.log == log && this.books == books
    {
      this.log, this.books := log, books;
    }

    /** Overwrites each drifted row; a balance without an account in the chart is left to an operator. */
    method ApplyDrift(drift: seq<Drift>, ghost derived: Books)
      requires Says(derived, log) && Reports(drift, books, derived)
      modifies this
      ensures books.balances.Keys == old(books).balances.Keys && Repaired(books, log)
    {
      for i := 0 to |drift|
        invariant Repairing(old(books), books, log, drift, i)
      {
        RepairStep(old(books), books, derived, log, drift, i);
        match drift[i]
        case BalanceDrift(a, _, d) =>
          if a in books.balances {
            books := books.(balances := books.balances[a := d]);
          }
        case SummaryDrift(k, _, d) => books := books.(summary := books.summary[k := d]);
      }
      AllRepaired(old(books), books, derived, log, drift);
    }

    /** Derives, compares and, when asked, repairs. */
    method Rebuild(apply: bool) returns (drift: seq<Drift>, ghost derived: Books)
      modifies this
      ensures Says(derived, log) && Reports(drift, old(books), derived)
      ensures !apply ==> books == old(books)
      ensures apply ==> books.balances.Keys == old(books).balances.Keys && Repaired(books, log)
    {
      var d := Derive(log);
      derived := d;
      drift := Compare(books, d);
      if apply {
        ApplyDrift(drift, d);
      }
    }

    /** A second run after a repair reports exactly the balances of accounts that are not in the chart. */
    method RebuildTwice() returns (second: seq<Drift>)
      modifies this
      ensures forall d :: d in second <==> d.BalanceDrift? && d.account !in old(books).balances && d.held == 0 && d.derived == Balance(log, d.account) != 0
    {
      var first;
      ghost var derived;
      first, derived := Rebuild(true);
      second, derived := Rebuild(true);
    }
  }

  lemma AllRepaired(was: Books, now: Books, derived: Books, log: seq<Tx>, drift: seq<Drift>)
    requires Says(derived, log) && Reports(drift, was, derived) && Repairing(was, now, log, drift, |drift|)
    ensures Repaired(now, log)
  {
    forall a | a in now.balances ensures now.balances[a] == Balance(log, a) {
      var d := BalanceDrift(a, BalanceIn(was, a), BalanceIn(derived, a));
      if IsDrift(d, was, derived) {
        var j :| 0 <= j < |drift| && drift[j] == d;
        assert RightAt(now, log, drift[j]);
      }
    }
    forall k ensures TotalsIn(now, k) == MonthTotals(log, k) {
      var d := SummaryDrift(k, TotalsIn(was, k), TotalsIn(derived, k));
      if IsDrift(d, was, derived) {
        var j :| 0 <= j < |drift| && drift[j] == d;
        assert RightAt(now, log, drift[j]);
      }
    }
  }
}
