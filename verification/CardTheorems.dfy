/** What the books mean for a card's owner, and exactly where the operations stop meaning it. */
module CardTheorems {
  import opened Calendar
  import opened Installments
  import opened Ledger
  import opened Sums
  import opened CardModel
  import opened CardPlans
  import opened CardInvariant
  import opened CardBills
  import opened CardRuns
  import opened CardHistory
  import opened CardBooks
  import opened CardPurchases

  // ---- conservation in the terms of the open list ----

  /** A bill canceled while the frozen statement of its month still names it: owed, and on no list. */
  predicate Abandoned(s: Store, k: BillKey) { k in s.bills && s.bills[k].status == Canceled && Names(s, k) }

  ghost predicate NoneAbandoned(s: Store) { forall k :: k in s.bills ==> !Abandoned(s, k) }

  ghost function AbandonedBills(s: Store): map<BillKey, Cents> { map k | k in s.bills && Abandoned(s, k) :: s.bills[k].amount }

  /** What the card owes beyond its open and future statements and its forecast bills. */
  ghost function Gap(s: Store): Cents { Debt(s) - Unbilled(s) - SumWhere(ForecastBills(s), AnyBill()) }

  function Waiting(s: Store): BillKey -> bool { (k: BillKey) => k in s.bills && s.bills[k].status == Forecast }

  function Given(s: Store): BillKey -> bool { (k: BillKey) => Abandoned(s, k) }

  lemma OutstandingSplits(s: Store)
    ensures SumWhere(Outstanding(s), AnyBill()) == SumWhere(ForecastBills(s), AnyBill()) + SumWhere(AbandonedBills(s), AnyBill())
  {
    SumSplit(Outstanding(s), AnyBill(), Waiting(s), Given(s));
    SumSame(Outstanding(s), ForecastBills(s), Waiting(s));
    SumAgree(ForecastBills(s), Waiting(s), AnyBill());
    SumSame(Outstanding(s), AbandonedBills(s), Given(s));
    SumAgree(AbandonedBills(s), Given(s), AnyBill());
  }

  lemma {:induction false} PositiveSum(m: map<BillKey, Cents>)
    requires forall k :: k in m ==> m[k] > 0
    ensures SumWhere(m, AnyBill()) >= 0 && (SumWhere(m, AnyBill()) == 0 <==> |m| == 0)
    decreases |m|
  {
    if |m| > 0 {
      PositiveSum(m - {Pick(m)});
    }
  }

  /** The gap is exactly what was abandoned. */
  lemma GapIsAbandoned(s: Store)
    requires Conserved(s)
    ensures Gap(s) == SumWhere(AbandonedBills(s), AnyBill())
  {
    OutstandingSplits(s);
  }

  /** Debt is open and future items plus forecast bills if and only if no bill is abandoned. */
  lemma DebtIsBilledIff(s: Store)
    requires Inv(s)
    ensures Debt(s) == Unbilled(s) + SumWhere(ForecastBills(s), AnyBill()) <==> NoneAbandoned(s)
  {
    GapIsAbandoned(s);
    var left := AbandonedBills(s);
    forall k | k in left ensures left[k] > 0 {
      assert BillOk(s, k);
    }
    PositiveSum(left);
    if !NoneAbandoned(s) {
      var k :| k in s.bills && Abandoned(s, k);
      assert k in left;
    } else {
      assert left == map[];
    }
  }

  /** On every card with a forecast statement bill: archived, the bill can be canceled, and the gap grows by exactly its amount. */
  lemma CanceledStaysOwed(s: Store, k: BillKey) returns (t: Store, u: Store)
    requires Inv(s) && k in s.bills && s.bills[k].status == Forecast
    ensures Archive(s) == Committed(t) && k in t.bills && CardModel.CancelBill(t, t.card.archived, t.bills[k], k) == Committed(u)
    ensures Gap(u) == Gap(s) + s.bills[k].amount && s.bills[k].amount > 0 && Abandoned(u, k)
  {
    t := Archive(s).store;
    u := t.(bills := t.bills[k := t.bills[k].(status := Canceled)]);
    assert BillOk(s, k);
    GapGrows(s, u, k);
  }

  lemma GapGrows(s: Store, u: Store, k: BillKey)
    requires k in s.bills && s.bills[k].status == Forecast
    requires u.bills == s.bills[k := s.bills[k].(status := Canceled)]
    requires u.items == s.items && u.log == s.log && u.card.open == s.card.open && u.card.id == s.card.id
    ensures Gap(u) == Gap(s) + s.bills[k].amount
  {
    assert ForecastBills(u) == ForecastBills(s) - {k};
    SumTake(ForecastBills(s), AnyBill(), k);
  }

  // ---- when a bill is abandoned ----

  /** Bill k was canceled directly at some step before n, and its month not reopened since. */
  ghost predicate LeftCanceled(steps: seq<Step>, n: nat, k: BillKey)
    requires n <= |steps|
  {
    exists i :: 0 <= i < n && CanceledAt(steps, i, n, k)
  }

  ghost predicate CanceledAt(steps: seq<Step>, i: nat, n: nat, k: BillKey)
    requires i < n <= |steps|
  {
    && steps[i].Canceling? && steps[i].key == k
    && forall j :: i < j < n ==> !(steps[j].Reopening? && steps[j].month == k.month)
  }

  /** What step n adds to it. */
  lemma LeftCanceledNext(steps: seq<Step>, n: nat, k: BillKey)
    requires n < |steps|
    ensures LeftCanceled(steps, n + 1, k) <==>
            (steps[n].Canceling? && steps[n].key == k) || (LeftCanceled(steps, n, k) && !(steps[n].Reopening? && steps[n].month == k.month))
  {
    if LeftCanceled(steps, n + 1, k) {
      var i :| 0 <= i < n + 1 && CanceledAt(steps, i, n + 1, k);
      if i < n {
        assert CanceledAt(steps, i, n, k);
      }
    }
    if steps[n].Canceling? && steps[n].key == k {
      assert CanceledAt(steps, n, n + 1, k);
    }
    if LeftCanceled(steps, n, k) && !(steps[n].Reopening? && steps[n].month == k.month) {
      var i :| 0 <= i < n && CanceledAt(steps, i, n, k);
      assert CanceledAt(steps, i, n + 1, k);
    }
  }

  lemma CancelAbandons(s: Store, archived: bool, read: StatementBill, key: BillKey, k: BillKey)
    requires LiveNamed(s) && CardModel.CancelBill(s, archived, read, key).Committed? && k in s.bills
    ensures Abandoned(CardModel.CancelBill(s, archived, read, key).store, k) <==> k == key || Abandoned(s, k)
  {
  }

  lemma ReopenAbandons(s: Store, m: Month, f: Frozen, k: BillKey)
    requires m in s.frozen && k in s.bills && (f.bill.Some? ==> f.bill.value in s.bills && f.bill.value.month == m)
    ensures Abandoned(Reopened(s, m, f), k) <==> Abandoned(s, k) && k.month != m
  {
  }

  lemma CloseAbandons(s: Store, read: CardRow, total: Cents, k: BillKey)
    requires Close(s, read, total).Committed? && k in Close(s, read, total).store.bills
    ensures Abandoned(Close(s, read, total).store, k) <==> k in s.bills && Abandoned(s, k)
  {
  }

  lemma PlainAbandons(p: seq<Store>, st: Step, k: BillKey)
    requires |p| > 0 && InTime(st, |p| - 1) && Exec(p, st).Committed?
    requires !st.Canceling? && !st.Closing? && !st.Reopening? && !st.Restoring?
    ensures var s, t := p[|p| - 1], Exec(p, st).store;
            (k in t.bills <==> k in s.bills) && (Abandoned(t, k) <==> Abandoned(s, k))
  {
  }

  lemma ExecAbandons(p: seq<Store>, st: Step, s: Store, t: Store, k: BillKey)
    requires Ready(p, st, s) && LiveNamed(s) && !st.Restoring? && Exec(p, st) == Committed(t) && k in t.bills
    ensures Abandoned(t, k) <==>
            (st.Canceling? && st.key == k) || (k in s.bills && Abandoned(s, k) && !(st.Reopening? && st.month == k.month))
  {
    if st.Canceling? {
      CancelAbandons(s, p[st.cardAt].card.archived, p[st.billAt].bills[st.key], st.key, k);
    } else if st.Reopening? {
      ReopeningFrames(p, st);
      RowPlausible(p[st.rowAt], st.month);
      ReopenAbandons(s, st.month, RowRead(p, st).value, k);
    } else if st.Closing? {
      CloseAbandons(s, p[st.cardAt].card, StatementTotal(p[st.itemsAt], p[st.cardAt].card.open), k);
    } else {
      PlainAbandons(p, st, k);
    }
  }

  /** At every point a bill is abandoned exactly when it was canceled directly and its month not reopened since. */
  lemma {:induction false} AbandonedIff(tr: seq<Store>, steps: seq<Step>, n: nat, k: BillKey)
    requires Run(tr, steps) && n <= |steps| && NamesTo(tr, steps, n)
    ensures Abandoned(tr[n], k) <==> LeftCanceled(steps, n, k)
    decreases n
  {
    if n > 0 {
      AbandonedIff(tr, steps, n - 1, k);
      LeftCanceledNext(steps, n - 1, k);
      LiveTo(tr, steps, n - 1);
      RunReady(tr, steps, n - 1);
      NeverRestored(tr, steps, n - 1);
      KeysStay(tr, steps, n - 1, k);
      if k in tr[n].bills {
        ExecAbandons(tr[..n - 1 + 1], steps[n - 1], tr[n - 1], tr[n], k);
      }
    }
  }

  lemma KeysStay(tr: seq<Store>, steps: seq<Step>, n: nat, k: BillKey)
    requires Run(tr, steps) && n < |steps|
    ensures k in tr[n].bills ==> k in tr[n + 1].bills
    ensures steps[n].Canceling? && steps[n].key == k ==> k in tr[n + 1].bills
  {
    StepLater(tr, steps, n);
    assert Follows(tr, steps, n);
  }

  lemma FaithfulNames(tr: seq<Store>, steps: seq<Step>, n: nat)
    requires Run(tr, steps) && n <= |steps| && FaithfulTo(tr, steps, n)
    ensures NamesTo(tr, steps, n)
  {
    forall k | 0 <= k < n && Follows(tr, steps, k) ensures ReopenNames(tr[..k + 1], steps[k]) {
      assert Faithful(tr[..k + 1], steps[k]);
    }
  }

  /**
   Conservation over every faithful run: what the ledger says the card owes is what its open and future statements hold plus
   its forecast statement bills, if and only if every bill canceled directly has had its month reopened since.
   */
  lemma DebtIsBilled(tr: seq<Store>, steps: seq<Step>, n: nat)
    requires Run(tr, steps) && n <= |steps| && FaithfulTo(tr, steps, n)
    ensures Debt(tr[n]) == SumWhere(tr[n].items, Since(tr[n].card.open)) + SumWhere(ForecastBills(tr[n]), AnyBill())
       <==> forall k :: !LeftCanceled(steps, n, k)
  {
    RunKeepsInv(tr, steps, n);
    DebtIsBilledIff(tr[n]);
    FaithfulNames(tr, steps, n);
    forall k ensures Abandoned(tr[n], k) <==> LeftCanceled(steps, n, k) {
      AbandonedIff(tr, steps, n, k);
    }
  }

  /** In particular it holds throughout a faithful run that cancels no statement bill directly. */
  lemma NeverCanceledIsBilled(tr: seq<Store>, steps: seq<Step>, n: nat)
    requires Run(tr, steps) && n <= |steps| && FaithfulTo(tr, steps, n)
    requires forall i :: 0 <= i < n ==> !steps[i].Canceling?
    ensures Debt(tr[n]) == SumWhere(tr[n].items, Since(tr[n].card.open)) + SumWhere(ForecastBills(tr[n]), AnyBill())
  {
    DebtIsBilled(tr, steps, n);
    forall k ensures !LeftCanceled(steps, n, k) {
    }
  }

  // ---- statement rows read in order ----

  /** Every reopening before n read its statement row no earlier than its card row, as consistent reads would. */
  ghost predicate RowsInOrder(steps: seq<Step>, n: nat)
    requires n <= |steps|
  {
    forall k :: 0 <= k < n && steps[k].Reopening? ==> steps[k].cardAt <= steps[k].rowAt
  }

  lemma InOrderSuits(p: seq<Store>, st: Step, s: Store, t: Store)
    requires Ready(p, st, s) && Inv(s) && Exec(p, st) == Committed(t)
    requires st.Reopening? ==> st.cardAt <= st.rowAt
    ensures ReopensWell(p, st)
  {
    if st.Reopening? {
      RowInOrder(p, st);
      if st.month in s.frozen {
        assert FrozenOk(s, st.month);
        CarryThere(s, st.month);
      }
    }
  }

  /** Then only a repeated advance makes a run unfaithful. */
  lemma {:induction false} InOrderFaithful(tr: seq<Store>, steps: seq<Step>, n: nat)
    requires Run(tr, steps) && n <= |steps| && RowsInOrder(steps, n) && OnceTo(tr, steps, n)
    ensures FaithfulTo(tr, steps, n)
  {
    if n > 0 {
      OnceAt(tr, steps, n);
      InOrderFaithful(tr, steps, n - 1);
      InOrderStep(tr, steps, n - 1);
      FaithfulNext(tr, steps, n - 1);
    }
  }

  lemma InOrderStep(tr: seq<Store>, steps: seq<Step>, k: nat)
    requires Run(tr, steps) && k < |steps| && FaithfulTo(tr, steps, k) && (steps[k].Reopening? ==> steps[k].cardAt <= steps[k].rowAt)
    ensures InTime(steps[k], k) && ReopensWell(tr[..k + 1], steps[k])
  {
    RunKeepsInv(tr, steps, k);
    RunReady(tr, steps, k);
    InOrderSuits(tr[..k + 1], steps[k], tr[k], tr[k + 1]);
  }

  lemma CanceledNotReopened(p: seq<Store>, st: Step, s: Store, t: Store, k: BillKey)
    requires Ready(p, st, s) && Abandoned(s, k) && Exec(p, st) == Committed(t)
    requires st.Reopening? ==> st.cardAt <= st.rowAt
    ensures !(st.Reopening? && st.month == k.month)
  {
    if st.Reopening? {
      RowInOrder(p, st);
    }
  }

  lemma {:induction false} StaysCanceled(tr: seq<Store>, steps: seq<Step>, i: nat, n: nat)
    requires Run(tr, steps) && i < n <= |steps| && steps[i].Canceling? && RowsInOrder(steps, n) && NamesTo(tr, steps, n)
    ensures LeftCanceled(steps, n, steps[i].key)
    decreases n
  {
    var k, m := steps[i].key, n - 1;
    LeftCanceledNext(steps, m, k);
    if i < m {
      StaysCanceled(tr, steps, i, m);
      AbandonedIff(tr, steps, m, k);
      RunReady(tr, steps, m);
      CanceledNotReopened(tr[..m + 1], steps[m], tr[m], tr[n], k);
    }
  }

  /** With rows read in order the debt is what is billed if and only if no statement bill was ever canceled directly. */
  lemma DebtIsBilledInOrder(tr: seq<Store>, steps: seq<Step>, n: nat)
    requires Run(tr, steps) && n <= |steps| && RowsInOrder(steps, n) && OnceTo(tr, steps, n)
    ensures Debt(tr[n]) == SumWhere(tr[n].items, Since(tr[n].card.open)) + SumWhere(ForecastBills(tr[n]), AnyBill())
       <==> forall i :: 0 <= i < n ==> !steps[i].Canceling?
  {
    InOrderFaithful(tr, steps, n);
    FaithfulNames(tr, steps, n);
    DebtIsBilled(tr, steps, n);
    if i :| 0 <= i < n && steps[i].Canceling? {
      StaysCanceled(tr, steps, i, n);
    } else {
      NeverCanceledIsBilled(tr, steps, n);
    }
  }

  // ---- an advance repeated after a reopening ----

  /**
   Take any card whose books are right and a purchase advanced onto the open month. Reopen the month before and advance
   again: the advance commits, the old "adv" item stays, and the card bills more than it owes.
   */
  lemma SecondAdvanceBreaks(s: Store, id: string, i: int)
    requires Inv(s) && Reopenable(s, s.card.open - 1)
    requires id in s.purchases && !s.purchases[id].refunded
    requires 0 <= i < |s.purchases[id].parts| && s.purchases[id].parts[i].advanced && s.purchases[id].parts[i].month == s.card.open
    ensures var t := Reopened(s, s.card.open - 1, s.frozen[s.card.open - 1]);
            && Advance(t, t.card, t.purchases[id], id).Committed?
            && !Conserved(Advance(t, t.card, t.purchases[id], id).store)
  {
    var m := s.card.open - 1;
    var t := Reopened(s, m, s.frozen[m]);
    ReopenedKeeps(s, m);
    AdvanceTwice(t, id, i);
  }

  lemma AdvanceTwice(t: Store, id: string, i: int)
    requires Inv(t) && id in t.purchases && !t.purchases[id].refunded
    requires 0 <= i < |t.purchases[id].parts| && t.purchases[id].parts[i].advanced && t.purchases[id].parts[i].month > t.card.open
    ensures Advance(t, t.card, t.purchases[id], id).Committed?
    ensures !Conserved(Advance(t, t.card, t.purchases[id], id).store)
  {
    assert PurchaseOk(t, id);
    AdvanceIsAllowed(t, id, i);
    AdvanceConservesIff(t, t.card, t.purchases[id], id);
  }

  lemma AdvanceIsAllowed(t: Store, id: string, i: int)
    requires id in t.purchases && PurchaseOk(t, id) && !t.purchases[id].refunded
    requires 0 <= i < |t.purchases[id].parts| && t.purchases[id].parts[i].month > t.card.open
    requires forall j :: 0 <= j < |t.purchases[id].parts| ==> !(t.purchases[id].parts[j].advanced && t.purchases[id].parts[j].month == t.card.open)
    ensures Advance(t, t.card, t.purchases[id], id).Committed?
  {
    var parts, k := t.purchases[id].parts, AdvKey(id, t.card.open);
    SumPartsZero(parts, After(t.card.open));
    assert After(t.card.open)(parts[i]);
    PlanKeys(id, parts, k);
    assert k in t.items ==> k in Own(t.items, PurchaseOwner(id));
  }
}
