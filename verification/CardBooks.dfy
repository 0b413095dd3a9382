/**
 The card's books over whole runs: they stay right, and money conserved, exactly while no advance is repeated after a
 reopening and every reopening read the row it should.
 */
module CardBooks {
  import opened Calendar
  import opened Installments
  import opened Ledger
  import opened Sums
  import opened CardModel
  import opened CardPlans
  import opened CardInvariant
  import opened CardBills
  import opened CardRuns
  import opened CardHistory

  // ---- reopening on a row read earlier ----

  /** What a frozen row of month m can be: a bill of that month exactly when it owes. */
  predicate Plausible(f: Frozen, m: Month) { (f.bill.Some? <==> f.total > 0) && (f.bill.Some? ==> f.bill.value.month == m) }

  /** The row read names the live bill of the month and knows of the credit it carried. */
  ghost predicate Suits(s: Store, m: Month, f: Frozen)
    requires m in s.frozen
  {
    NamesItsBill(s, m, f) && KnowsCarry(s, m, f)
  }

  /** The conditions a reopening on row f commits under. */
  ghost predicate ReopensOn(s: Store, m: Month, f: Frozen) {
    && m in s.frozen && s.card.open == m + 1 && Plausible(f, m)
    && (f.bill.Some? ==> f.bill.value in s.bills && s.bills[f.bill.value].status == Forecast)
  }

  /** A row that names a bill can only commit if it is the stored bill: no other one of the month is a forecast. */
  lemma NamedIsStored(s: Store, m: Month, f: Frozen)
    requires Bills(s) && ReopensOn(s, m, f)
    ensures f.bill.Some? ==> f.bill == s.frozen[m].bill
  {
    if f.bill.Some? {
      assert BillOk(s, f.bill.value);
    }
  }

  lemma CarryThere(s: Store, m: Month)
    requires Carries(s) && m in s.frozen
    ensures CarryKey(m) in s.items <==> s.frozen[m].total < 0
  {
  }

  /** The abandoned bill of month m taken back among the forecasts. */
  function Reforecast(s: Store, k: BillKey): Store
    requires k in s.bills
  {
    s.(bills := s.bills[k := s.bills[k].(status := Forecast)])
  }

  lemma ReforecastKeeps(s: Store, k: BillKey)
    requires Inv(s) && k in s.bills && s.bills[k].status == Canceled && Names(s, k)
    ensures Inv(Reforecast(s, k))
  {
    assert BillOk(s, k);
    BillStepBooks(s, Reforecast(s, k), k);
    BillStepConserves(s, Reforecast(s, k), k);
  }

  lemma SuitedBill(s: Store, m: Month, f: Frozen)
    requires Inv(s) && ReopensOn(s, m, f) && Suits(s, m, f) && s.frozen[m].bill.Some?
    ensures Inv(Reopened(s, m, f))
  {
    var stored := s.frozen[m];
    var b := stored.bill.value;
    assert FrozenOk(s, m);
    NamedIsStored(s, m, f);
    CarryThere(s, m);
    if f.bill.Some? {
      assert Reopened(s, m, f) == Reopened(s, m, stored);
      ReopenedKeeps(s, m);
    } else {
      ReforecastKeeps(s, b);
      ReopenedKeeps(Reforecast(s, b), m);
      SameReopened(s, m, f, b);
    }
  }

  lemma SameReopened(s: Store, m: Month, f: Frozen, b: BillKey)
    requires m in s.frozen && s.frozen[m].bill == Some(b) && b in s.bills && s.bills[b].status == Canceled
    requires f.bill.None? && CarryKey(m) !in s.items
    ensures Reopened(s, m, f) == Reopened(Reforecast(s, b), m, s.frozen[m])
  {
    assert s.items - {CarryKey(m)} == s.items;
    assert Reforecast(s, b).bills[b := Reforecast(s, b).bills[b].(status := Canceled)] == s.bills;
  }

  lemma SuitedCredit(s: Store, m: Month, f: Frozen)
    requires Inv(s) && ReopensOn(s, m, f) && Suits(s, m, f) && s.frozen[m].bill.None?
    ensures Inv(Reopened(s, m, f))
  {
    assert FrozenOk(s, m);
    NamedIsStored(s, m, f);
    CarryThere(s, m);
    SameCredit(s, m, f);
    ReopenedKeeps(s, m);
  }

  lemma SameCredit(s: Store, m: Month, f: Frozen)
    requires m in s.frozen && s.frozen[m].bill.None? && f.bill.None? && KnowsCarry(s, m, f)
    requires CarryKey(m) in s.items <==> s.frozen[m].total < 0
    ensures Reopened(s, m, f) == Reopened(s, m, s.frozen[m])
  {
    if CarryKey(m) !in s.items {
      assert s.items - {CarryKey(m)} == s.items;
    }
  }

  /** Otherwise the month's items count again while its bill, or the credit it carried, still stands. */
  lemma UnsuitedLeaves(s: Store, m: Month, f: Frozen)
    requires Inv(s) && ReopensOn(s, m, f) && !Suits(s, m, f)
    ensures var t := Reopened(s, m, f);
            f.bill.None? && t.items == s.items && t.bills == s.bills && t.log == s.log && s.frozen[m].total != 0
    ensures s.frozen[m].bill.Some? ==> s.frozen[m].bill.value in s.bills && s.bills[s.frozen[m].bill.value].status != Canceled
  {
    NamedIsStored(s, m, f);
    CarryThere(s, m);
    UnsuitedRow(s, m, f);
    if f.total < 0 {
      assert s.items - {CarryKey(m)} == s.items;
    }
  }

  lemma UnsuitedRow(s: Store, m: Month, f: Frozen)
    requires m in s.frozen && FrozenOk(s, m) && Plausible(f, m) && !Suits(s, m, f)
    requires f.bill.Some? ==> f.bill == s.frozen[m].bill
    requires CarryKey(m) in s.items <==> s.frozen[m].total < 0
    ensures f.bill.None? && s.frozen[m].total != 0 && (f.total < 0 ==> CarryKey(m) !in s.items)
    ensures s.frozen[m].bill.Some? ==> s.frozen[m].bill.value in s.bills && s.bills[s.frozen[m].bill.value].status != Canceled
  {
  }

  lemma UnsuitedBreaks(s: Store, m: Month, f: Frozen)
    requires Inv(s) && ReopensOn(s, m, f) && !Suits(s, m, f)
    ensures !Conserved(Reopened(s, m, f))
  {
    var t := Reopened(s, m, f);
    UnsuitedLeaves(s, m, f);
    assert FrozenOk(s, m);
    MonthSplit(s.items, m);
    OutstandingStays(s, t, m);
  }

  lemma OutstandingStays(s: Store, t: Store, m: Month)
    requires m in s.frozen && t.frozen == s.frozen - {m} && t.bills == s.bills
    requires s.frozen[m].bill.Some? ==> s.frozen[m].bill.value in s.bills && s.bills[s.frozen[m].bill.value].status != Canceled
    ensures Outstanding(t) == Outstanding(s)
  {
    forall k | k in s.bills ensures k in Outstanding(t) <==> k in Outstanding(s) {
    }
  }

  /**
   A committed reopening keeps the books, and money conserved, if and only if the row it read names the month's live bill and
   knows of the credit carried.
   */
  lemma ReopenKeepsIff(s: Store, read: CardRow, row: Frozen, bill: Option<StatementBill>, m: Month)
    requires Inv(s) && m in s.frozen && Plausible(row, m)
    requires Reopen(s, read, Some(row), bill, m).Committed?
    ensures Inv(Reopen(s, read, Some(row), bill, m).store) <==> Suits(s, m, row)
    ensures Conserved(Reopen(s, read, Some(row), bill, m).store) <==> Suits(s, m, row)
  {
    if !Suits(s, m, row) {
      UnsuitedBreaks(s, m, row);
    } else if s.frozen[m].bill.Some? {
      SuitedBill(s, m, row);
    } else {
      SuitedCredit(s, m, row);
    }
  }

  /**
   On every card whose latest statement has a live bill, a reopening that read the row of an earlier close at zero commits:
   the statement is open again and its bill still owed.
   */
  lemma StaleReopenBreaks(s: Store)
    requires Inv(s) && !s.card.archived && s.card.open - 1 in s.frozen && s.frozen[s.card.open - 1].bill.Some?
    requires s.bills[s.frozen[s.card.open - 1].bill.value].status != Canceled
    ensures var r := Reopen(s, s.card, Some(Frozen(0, None)), None, s.card.open - 1);
            r.Committed? && !Conserved(r.store)
  {
    ReopenKeepsIff(s, s.card, Frozen(0, None), None, s.card.open - 1);
  }

  // ---- every committed step ----

  /** The row a reopening read suits the store it commits to. */
  ghost predicate ReopensWell(p: seq<Store>, st: Step)
    requires |p| > 0 && InTime(st, |p| - 1)
  {
    st.Reopening? && RowRead(p, st).Some? && st.month in p[|p| - 1].frozen ==> Suits(p[|p| - 1], st.month, RowRead(p, st).value)
  }

  ghost predicate Faithful(p: seq<Store>, st: Step)
    requires |p| > 0 && InTime(st, |p| - 1)
  {
    AdvancesOnce(p, st) && ReopensWell(p, st)
  }

  function BillRead(p: seq<Store>, st: Step): Option<StatementBill>
    requires st.Reopening? && st.rowAt < |p| && st.billAt < |p|
  {
    if RowRead(p, st).Some? && RowRead(p, st).value.bill.Some? then Lookup(p[st.billAt].bills, RowRead(p, st).value.bill.value) else None
  }

  lemma ReopeningKeepsIff(p: seq<Store>, st: Step, s: Store, t: Store)
    requires Ready(p, st, s) && Inv(s) && st.Reopening? && Exec(p, st) == Committed(t)
    ensures Inv(t) <==> Faithful(p, st)
    ensures Conserved(t) <==> Faithful(p, st)
  {
    ReopeningIs(p, st, s, t);
    ReopenKeepsIff(s, p[st.cardAt].card, RowRead(p, st).value, BillRead(p, st), st.month);
  }

  lemma ReopeningIs(p: seq<Store>, st: Step, s: Store, t: Store)
    requires Ready(p, st, s) && st.Reopening? && Exec(p, st) == Committed(t)
    ensures RowRead(p, st).Some? && st.month in s.frozen && Plausible(RowRead(p, st).value, st.month)
    ensures Reopen(s, p[st.cardAt].card, Some(RowRead(p, st).value), BillRead(p, st), st.month) == Committed(t)
  {
    ReopeningFrames(p, st);
    RowPlausible(p[st.rowAt], st.month);
  }

  lemma RowPlausible(s: Store, m: Month)
    requires FrozenTotals(s) && m in s.frozen
    ensures Plausible(s.frozen[m], m)
  {
    assert FrozenOk(s, m);
  }

  lemma AdvancingKeepsIff(p: seq<Store>, st: Step, s: Store, t: Store)
    requires Ready(p, st, s) && Inv(s) && st.Advancing? && Exec(p, st) == Committed(t)
    ensures Inv(t) <==> Faithful(p, st)
    ensures Conserved(t) <==> Faithful(p, st)
  {
    var row := p[st.rowAt].purchases[st.id];
    RowFresh(p[st.rowAt], s, st.id);
    AdvanceConservesIff(s, p[st.cardAt].card, row, st.id);
    if AdvancesOnce(p, st) {
      AdvanceKeeps(s, p[st.cardAt].card, row, st.id);
    }
  }

  lemma ItemsKeep(p: seq<Store>, st: Step, s: Store, t: Store)
    requires Ready(p, st, s) && Inv(s) && Exec(p, st) == Committed(t)
    requires TouchesItems(st)
    ensures Inv(t)
  {
    match st
    case Buying(c, id, total, n, date, category) => BuyKeeps(s, p[c].card, id, total, n, date, category);
    case Crediting(c, id, amount, date, category) => CreditKeeps(s, p[c].card, id, amount, date, category);
    case Refunding(c, r, id, date) =>
      RowFresh(p[r], s, id);
      RefundKeeps(s, p[c].card, p[r].purchases[id], id, date);
    case Editing(r, id, category) =>
      RowFresh(p[r], s, id);
      EditKeeps(s, p[r].purchases[id], id, category);
    case Closing(c, i) =>
      CloseFresh(p[c], p[i], s);
      CloseKeeps(s, p[c].card, StatementTotal(p[i], p[c].card.open));
  }

  lemma BillsKeep(p: seq<Store>, st: Step, s: Store, t: Store)
    requires Ready(p, st, s) && Inv(s) && Exec(p, st) == Committed(t)
    requires !TouchesItems(st) && !st.Advancing? && !st.Reopening?
    ensures Inv(t)
  {
    match st
    case Settling(b, k, paid, difference, date, into) =>
      BillFresh(p[b], s, k);
      SettleKeeps(s, p[b].bills[k], k, paid, difference, date, into);
    case Unsettling(b, k, date) =>
      BillFresh(p[b], s, k);
      UnsettleKeeps(s, p[b].bills[k], k, date);
    case Restoring(b, k, date) =>
      BillFresh(p[b], s, k);
      assert k in s.bills ==> BillOk(s, k);
      RestoreNeverCommits(s, p[b].bills[k], k, date);
    case Canceling(c, b, k) => CancelKeeps(s, p[c].card.archived, p[b].bills[k], k);
    case EditingBill(b, k, account, due) => EditBillKeeps(s, p[b].bills[k], k, account, due);
    case Updating(c, d, y) => SettingsKeep(s, s.card.(closingDay := c, dueDay := d, paying := y));
    case Archiving => SettingsKeep(s, s.card.(archived := true));
  }

  predicate TouchesItems(st: Step) { st.Buying? || st.Crediting? || st.Refunding? || st.Editing? || st.Closing? }

  lemma PlainKeeps(p: seq<Store>, st: Step, s: Store, t: Store)
    requires Ready(p, st, s) && Inv(s) && Exec(p, st) == Committed(t) && !st.Advancing? && !st.Reopening?
    ensures Inv(t) && Faithful(p, st)
  {
    if TouchesItems(st) {
      ItemsKeep(p, st, s, t);
    } else {
      BillsKeep(p, st, s, t);
    }
  }

  /** A committed step keeps the books when it is faithful, and breaks conservation when it is not. */
  lemma ExecKeepsIff(p: seq<Store>, st: Step, s: Store, t: Store)
    requires Ready(p, st, s) && Inv(s) && Exec(p, st) == Committed(t)
    ensures Inv(t) <==> Faithful(p, st)
    ensures Conserved(t) <==> Faithful(p, st)
  {
    if st.Advancing? {
      AdvancingKeepsIff(p, st, s, t);
    } else if st.Reopening? {
      ReopeningKeepsIff(p, st, s, t);
    } else {
      PlainKeeps(p, st, s, t);
    }
  }

  // ---- whole runs ----

  /** Every step before n is faithful. */
  ghost predicate FaithfulTo(tr: seq<Store>, steps: seq<Step>, n: nat)
    requires Run(tr, steps) && n <= |steps|
  {
    forall k {:trigger Follows(tr, steps, k)} :: 0 <= k < n && Follows(tr, steps, k) ==> Faithful(tr[..k + 1], steps[k])
  }

  lemma NewCardInv(id: string, month: Month, c: int, d: int, paying: Account)
    requires 1 <= c <= 31 && 1 <= d <= 31
    ensures Inv(NewCard(id, month, c, d, paying))
  {
    SumNone(map[], Since(month));
    SumNone(Outstanding(NewCard(id, month, c, d, paying)), AnyBill());
  }

  lemma CreatedInv(s: Store)
    requires Created(s)
    ensures Inv(s)
  {
    var id, month, c, d, paying :| s == NewCard(id, month, c, d, paying) && 1 <= c <= 31 && 1 <= d <= 31;
    NewCardInv(id, month, c, d, paying);
  }

  lemma StepKeepsIff(tr: seq<Store>, steps: seq<Step>, k: nat)
    requires Run(tr, steps) && k < |steps| && Inv(tr[k])
    ensures InTime(steps[k], k)
    ensures Inv(tr[k + 1]) <==> Faithful(tr[..k + 1], steps[k])
    ensures Conserved(tr[k + 1]) <==> Faithful(tr[..k + 1], steps[k])
  {
    RunReady(tr, steps, k);
    ExecKeepsIff(tr[..k + 1], steps[k], tr[k], tr[k + 1]);
  }

  /** Main theorem: in every interleaving whose steps are faithful the card's books are right at every point. */
  lemma {:induction false} RunKeepsInv(tr: seq<Store>, steps: seq<Step>, k: nat)
    requires Run(tr, steps) && k <= |steps| && FaithfulTo(tr, steps, k)
    ensures Inv(tr[k])
  {
    if k == 0 {
      CreatedInv(tr[0]);
    } else {
      FaithfulBefore(tr, steps, k);
      RunKeepsInv(tr, steps, k - 1);
      StepKeeps(tr, steps, k);
    }
  }

  lemma StepKeeps(tr: seq<Store>, steps: seq<Step>, k: nat)
    requires Run(tr, steps) && 0 < k <= |steps| && FaithfulTo(tr, steps, k) && Inv(tr[k - 1])
    ensures Inv(tr[k])
  {
    FaithfulAt(tr, steps, k);
    StepKeepsIff(tr, steps, k - 1);
  }

  lemma FaithfulBefore(tr: seq<Store>, steps: seq<Step>, k: nat)
    requires Run(tr, steps) && 0 < k <= |steps| && FaithfulTo(tr, steps, k)
    ensures FaithfulTo(tr, steps, k - 1)
  {
  }

  lemma FaithfulAt(tr: seq<Store>, steps: seq<Step>, k: nat)
    requires Run(tr, steps) && 0 < k <= |steps| && FaithfulTo(tr, steps, k)
    ensures InTime(steps[k - 1], k - 1) && Faithful(tr[..k - 1 + 1], steps[k - 1])
  {
    assert Follows(tr, steps, k - 1);
  }

  lemma FaithfulNext(tr: seq<Store>, steps: seq<Step>, n: nat)
    requires Run(tr, steps) && n < |steps| && FaithfulTo(tr, steps, n)
    requires InTime(steps[n], n) && Faithful(tr[..n + 1], steps[n])
    ensures FaithfulTo(tr, steps, n + 1)
  {
  }

  ghost predicate ConservedTo(tr: seq<Store>, n: nat)
    requires n < |tr|
  {
    forall i :: 0 <= i <= n ==> Conserved(tr[i])
  }

  lemma ConservedAt(tr: seq<Store>, n: nat)
    requires 0 < n < |tr| && ConservedTo(tr, n)
    ensures ConservedTo(tr, n - 1) && Conserved(tr[n])
  {
  }

  lemma {:induction false} ConservedFaithful(tr: seq<Store>, steps: seq<Step>, n: nat)
    requires Run(tr, steps) && n <= |steps| && ConservedTo(tr, n)
    ensures FaithfulTo(tr, steps, n)
  {
    if n > 0 {
      ConservedAt(tr, n);
      ConservedFaithful(tr, steps, n - 1);
      ConservedStep(tr, steps, n - 1);
      FaithfulNext(tr, steps, n - 1);
    }
  }

  lemma ConservedStep(tr: seq<Store>, steps: seq<Step>, k: nat)
    requires Run(tr, steps) && k < |steps| && FaithfulTo(tr, steps, k) && Conserved(tr[k + 1])
    ensures InTime(steps[k], k) && Faithful(tr[..k + 1], steps[k])
  {
    RunKeepsInv(tr, steps, k);
    StepKeepsIff(tr, steps, k);
  }

  lemma FaithfulLess(tr: seq<Store>, steps: seq<Step>, k: nat, n: nat)
    requires Run(tr, steps) && k <= n <= |steps| && FaithfulTo(tr, steps, n)
    ensures FaithfulTo(tr, steps, k)
  {
  }

  /** And exactly in those: money is conserved at every point up to n if and only if every step before n is faithful. */
  lemma ConservedIff(tr: seq<Store>, steps: seq<Step>, n: nat)
    requires Run(tr, steps) && n <= |steps|
    ensures ConservedTo(tr, n) <==> FaithfulTo(tr, steps, n)
  {
    if FaithfulTo(tr, steps, n) {
      forall i | 0 <= i <= n ensures Conserved(tr[i]) {
        FaithfulLess(tr, steps, i, n);
        RunKeepsInv(tr, steps, i);
      }
    } else if ConservedTo(tr, n) {
      ConservedFaithful(tr, steps, n);
    }
  }

  // ---- runs that never reopen ----

  /** Nothing past the open month was advanced. */
  ghost predicate AdvancedBehind(s: Store) {
    forall id :: id in s.purchases ==> NeverAdvancedPast(s.purchases[id].parts, s.card.open)
  }

  /** The plans stay, and the open month does not go back. */
  ghost predicate SameParts(s: Store, t: Store) {
    && s.card.open <= t.card.open
    && forall id :: id in t.purchases ==> id in s.purchases && t.purchases[id].parts == s.purchases[id].parts
  }

  lemma BuyFlagsNone(s: Store, read: CardRow, id: string, total: Cents, n: int, date: Date, category: Account)
    requires AdvancedBehind(s) && Buy(s, read, id, total, n, date, category).Committed?
    ensures AdvancedBehind(Buy(s, read, id, total, n, date, category).store)
  {
    var t := Buy(s, read, id, total, n, date, category).store;
    forall x | x in t.purchases ensures NeverAdvancedPast(t.purchases[x].parts, t.card.open) {
      assert x != id ==> NeverAdvancedPast(s.purchases[x].parts, s.card.open);
    }
  }

  lemma ItemsSameParts(p: seq<Store>, st: Step)
    requires |p| > 0 && InTime(st, |p| - 1) && Exec(p, st).Committed?
    requires st.Crediting? || st.Refunding? || st.Editing? || st.Closing?
    ensures SameParts(p[|p| - 1], Exec(p, st).store)
  {
  }

  lemma BillsSameParts(p: seq<Store>, st: Step)
    requires |p| > 0 && InTime(st, |p| - 1) && Exec(p, st).Committed?
    requires !TouchesItems(st) && !st.Advancing? && !st.Reopening?
    ensures SameParts(p[|p| - 1], Exec(p, st).store)
  {
  }

  lemma SamePartsBehind(s: Store, t: Store)
    requires AdvancedBehind(s) && SameParts(s, t)
    ensures AdvancedBehind(t)
  {
    forall id | id in t.purchases ensures NeverAdvancedPast(t.purchases[id].parts, t.card.open) {
      assert NeverAdvancedPast(s.purchases[id].parts, s.card.open);
    }
  }

  lemma AdvancedOnce(p: seq<Store>, st: Step, s: Store, t: Store)
    requires Ready(p, st, s) && AdvancedBehind(s) && Exec(p, st) == Committed(t) && st.Advancing?
    ensures AdvancedBehind(t) && AdvancesOnce(p, st)
  {
    RowFresh(p[st.rowAt], s, st.id);
    assert NeverAdvancedPast(s.purchases[st.id].parts, s.card.open);
    forall id | id in t.purchases ensures NeverAdvancedPast(t.purchases[id].parts, t.card.open) {
      assert NeverAdvancedPast(s.purchases[id].parts, s.card.open);
    }
  }

  lemma ExecAdvanced(p: seq<Store>, st: Step, s: Store, t: Store)
    requires Ready(p, st, s) && AdvancedBehind(s) && Exec(p, st) == Committed(t) && !st.Reopening?
    ensures AdvancedBehind(t) && Faithful(p, st)
  {
    if st.Advancing? {
      AdvancedOnce(p, st, s, t);
    } else if st.Buying? {
      BuyFlagsNone(s, p[st.cardAt].card, st.id, st.total, st.n, st.date, st.category);
    } else {
      if TouchesItems(st) {
        ItemsSameParts(p, st);
      } else {
        BillsSameParts(p, st);
      }
      SamePartsBehind(s, t);
    }
  }

  lemma StepAdvanced(tr: seq<Store>, steps: seq<Step>, k: nat)
    requires Run(tr, steps) && k < |steps| && AdvancedBehind(tr[k]) && !steps[k].Reopening?
    ensures InTime(steps[k], k) && AdvancedBehind(tr[k + 1]) && Faithful(tr[..k + 1], steps[k])
  {
    RunReady(tr, steps, k);
    ExecAdvanced(tr[..k + 1], steps[k], tr[k], tr[k + 1]);
  }

  /** A run that reopens nothing is faithful: the open month only grows, so nothing is ever advanced twice. */
  lemma {:induction false} NeverReopenedFaithful(tr: seq<Store>, steps: seq<Step>, n: nat)
    requires Run(tr, steps) && n <= |steps| && forall k :: 0 <= k < n ==> !steps[k].Reopening?
    ensures FaithfulTo(tr, steps, n) && AdvancedBehind(tr[n])
  {
    if n > 0 {
      NeverReopenedFaithful(tr, steps, n - 1);
      StepAdvanced(tr, steps, n - 1);
      FaithfulNext(tr, steps, n - 1);
    }
  }
}
