/**
 Purchases over whole runs: each one's items are exactly those its plan names, at every point, exactly while no advance is
 repeated. What reopenings read does not matter here.
 */
module CardPurchases {
  import opened Calendar
  import opened Installments
  import opened Ledger
  import opened Sums
  import opened CardModel
  import opened CardPlans
  import opened CardInvariant
  import opened CardBills
  import opened CardRuns
  import opened CardHistory

  /** The last transaction of a bill is its settlement while it is paid and a reversal otherwise. */
  ghost predicate LastKind(s: Store, k: BillKey)
    requires k in s.bills
  {
    var b := s.bills[k];
    b.txs != [] ==> b.txs[|b.txs| - 1] < |s.log| && s.log[b.txs[|b.txs| - 1]].kind == (if b.status == Paid then Settlement else Reversal)
  }

  ghost predicate Kinds(s: Store) { forall k :: k in s.bills ==> LastKind(s, k) }

  /** Purchases and the transactions they and the bills stand on. */
  ghost predicate Plans(s: Store) { Markers(s) && Owners(s) && Purchases(s) && Apart(s) && Kinds(s) }

  lemma SameBillsKinds(s: Store, t: Store)
    requires Kinds(s) && t.bills == s.bills && s.log <= t.log
    ensures Kinds(t)
  {
    forall k | k in t.bills ensures LastKind(t, k) {
      assert LastKind(s, k);
    }
  }

  lemma ItemPlans(s: Store, t: Store, o: Owner)
    requires Plans(s) && ItemStep(s, t, o)
    requires o.PurchaseOwner? ==> o.id in t.purchases && PurchaseOk(t, o.id)
    ensures Plans(t)
  {
    StepPurchases(s, t, o);
    StepApart(s, t, o);
    StepOwners(s, t, o);
    SameBillsKinds(s, t);
  }

  // ---- the operations on items ----

  lemma BuyPlans(s: Store, read: CardRow, id: string, total: Cents, n: int, date: Date, category: Account)
    requires Plans(s) && History(s) && Buy(s, read, id, total, n, date, category).Committed?
    ensures Plans(Buy(s, read, id, total, n, date, category).store)
  {
    BuyPlan(id, total, n, date, read.closingDay, read.open);
    CardNets(CardOf(s), category, total, date);
    var row := Purchase(total, category, date, FreshParts(PlaceInstallments(total, n, date, read.closingDay, read.open).value), |s.log|, false, 0);
    var tx := CardPurchase(CardOf(s), category, total, date).value;
    RecordStep(s, read.open, id, row, tx);
    ItemPlans(s, RecordPurchase(s, read.open, id, row, tx).store, PurchaseOwner(id));
  }

  lemma CreditPlans(s: Store, read: CardRow, id: string, amount: Cents, date: Date, category: Account)
    requires Plans(s) && History(s) && Credit(s, read, id, amount, date, category).Committed?
    ensures Plans(Credit(s, read, id, amount, date, category).store)
  {
    CreditStep(s, read, id, amount, date, category);
    ItemPlans(s, Credit(s, read, id, amount, date, category).store, CreditOwner(id));
  }

  lemma RefundPlans(s: Store, read: CardRow, row: Purchase, id: string, date: Date)
    requires Plans(s) && History(s) && FreshRow(s, id, row) && Refund(s, read, row, id, date).Committed?
    ensures Plans(Refund(s, read, row, id, date).store)
  {
    var t := Refund(s, read, row, id, date).store;
    assert PurchaseOk(s, id);
    RefundStep(s, read, row, id, date);
    RefundedRow(s, t, id);
    ItemPlans(s, t, PurchaseOwner(id));
  }

  lemma EditPlans(s: Store, row: Purchase, id: string, category: Account)
    requires Plans(s) && History(s) && FreshRow(s, id, row) && EditPurchase(s, row, id, category).Committed?
    ensures Plans(EditPurchase(s, row, id, category).store)
  {
    assert PurchaseOk(s, id);
    EditStep(s, row, id, category);
    ItemPlans(s, EditPurchase(s, row, id, category).store, PurchaseOwner(id));
  }

  lemma SettingsPlans(s: Store, c: CardRow)
    requires Plans(s) && ValidSettings(c)
    requires c == s.card.(closingDay := c.closingDay, dueDay := c.dueDay, paying := c.paying, archived := c.archived)
    ensures Plans(s.(card := c))
  {
    SettingsStep(s, c);
    ItemPlans(s, s.(card := c), CreditOwner(""));
  }

  // ---- advancing ----

  /** An advance adds to the purchase's items what was already advanced past the open month. */
  lemma AdvanceTotal(s: Store, read: CardRow, row: Purchase, id: string)
    requires Markers(s) && History(s) && Owners(s)
    requires Advance(s, read, row, id).Committed? && FreshRow(s, id, row) && PurchaseOk(s, id)
    ensures var t := Advance(s, read, row, id).store;
            SumWhere(t.items, OwnedBy(PurchaseOwner(id))) == row.total + SumParts(row.parts, FlaggedAfter(read.open))
  {
    var t, o := Advance(s, read, row, id).store, PurchaseOwner(id);
    AdvanceStep(s, read, row, id);
    AdvanceMoves(s, read, row, id);
    OwnSplit(s.items, o, s.card.open);
    OwnSplit(t.items, o, s.card.open);
    SumSame(Own(s.items, o), Own(t.items, o), (k: ItemKey) => k.month < s.card.open);
    OwnSum(s.items, o);
    PlanSum(id, row.parts, OwnedBy(o), AnyPart());
  }

  lemma OwnSplit(items: map<ItemKey, Cents>, o: Owner, open: Month)
    ensures SumWhere(items, OwnedBy(o)) == SumWhere(Own(items, o), Since(open)) + SumWhere(Own(items, o), (k: ItemKey) => k.month < open)
  {
    OwnSum(items, o);
    SumSplit(Own(items, o), OwnedBy(o), Since(open), (k: ItemKey) => k.month < open);
  }

  /** A standing purchase's items are those its plan names and sum to its total; a refunded one's sum to zero. */
  lemma OwnedTotal(s: Store, id: string)
    requires id in s.purchases && PurchaseOk(s, id)
    ensures var p := s.purchases[id];
            && SumWhere(s.items, OwnedBy(PurchaseOwner(id))) == (if p.refunded then 0 else p.total)
            && (!p.refunded ==> forall i: ItemKey :: i in s.items && i.owner == PurchaseOwner(id) <==> i in PlanItems(id, p.parts))
  {
    var p := s.purchases[id];
    if !p.refunded {
      OwnSum(s.items, PurchaseOwner(id));
      PlanSum(id, p.parts, OwnedBy(PurchaseOwner(id)), AnyPart());
    }
  }

  lemma AdvancePlans(s: Store, read: CardRow, row: Purchase, id: string)
    requires Plans(s) && History(s) && FreshRow(s, id, row) && Advance(s, read, row, id).Committed?
    requires NeverAdvancedPast(row.parts, read.open)
    ensures Plans(Advance(s, read, row, id).store)
  {
    assert PurchaseOk(s, id);
    AdvanceStep(s, read, row, id);
    AdvancedRow(s, read, row, id);
    ItemPlans(s, Advance(s, read, row, id).store, PurchaseOwner(id));
  }

  lemma AdvanceAgain(s: Store, read: CardRow, row: Purchase, id: string)
    requires Plans(s) && History(s) && FreshRow(s, id, row) && Advance(s, read, row, id).Committed?
    requires !NeverAdvancedPast(row.parts, read.open)
    ensures !Purchases(Advance(s, read, row, id).store)
  {
    var t := Advance(s, read, row, id).store;
    assert PurchaseOk(s, id);
    AdvanceTotal(s, read, row, id);
    FlaggedNone(row.parts, row.total, read.open);
    assert !PurchaseOk(t, id) by {
      if PurchaseOk(t, id) {
        OwnedTotal(t, id);
      }
    }
  }

  // ---- closing, reopening and bills ----

  lemma ClosePlans(s: Store, read: CardRow, total: Cents)
    requires Plans(s) && History(s) && Close(s, read, total).Committed? && total == StatementTotal(s, read.open)
    ensures Plans(Close(s, read, total).store)
  {
    var k, bill := BillKey(read.open, read.version), StatementBill(total, read.paying, DueDate(read.open, read.closingDay, read.dueDay), Forecast, []);
    CloseRest(s, k, bill);
    CloseApart(s, k, bill);
    var t := Closed(s, read.open, k, bill);
    forall j | j in t.bills ensures LastKind(t, j) {
      assert j in s.bills ==> LastKind(s, j);
    }
  }

  lemma ReopenPlans(s: Store, m: Month, f: Frozen)
    requires Plans(s) && History(s) && s.card.open == m + 1 && s.card.first <= m
    requires f.bill.Some? ==> f.bill.value in s.bills && s.bills[f.bill.value].status == Forecast
    ensures Plans(Reopened(s, m, f))
  {
    ReopenLeaves(s, m, f);
    CarryStep(s, Reopened(s, m, f));
    ReopenKinds(s, m, f);
  }

  lemma ReopenLeaves(s: Store, m: Month, f: Frozen)
    requires Owners(s) && Apart(s) && s.card.open == m + 1 && s.card.first <= m && (f.bill.Some? ==> f.bill.value in s.bills)
    ensures var t := Reopened(s, m, f);
            && OnlyFrom(s.items, t.items, CarryOwner, s.card.first) && Apart(t)
            && (forall k :: k in t.items && k.owner == CarryOwner ==> k.month >= s.card.first)
            && t.purchases == s.purchases && t.log == s.log && t.reversed == s.reversed
            && t.card.first == s.card.first && t.card.id == s.card.id
  {
  }

  lemma ReopenKinds(s: Store, m: Month, f: Frozen)
    requires Kinds(s) && (f.bill.Some? ==> f.bill.value in s.bills && s.bills[f.bill.value].status == Forecast)
    ensures Kinds(Reopened(s, m, f))
  {
    var t := Reopened(s, m, f);
    forall j | j in t.bills ensures LastKind(t, j) {
      assert LastKind(s, j);
    }
  }

  lemma BillPlans(s: Store, t: Store, k: BillKey)
    requires Plans(s) && BillStep(s, t, k) && LastKind(t, k)
    ensures Plans(t)
  {
    BillStepPurchases(s, t, k);
    forall j | j in t.bills ensures LastKind(t, j) {
      assert j != k ==> LastKind(s, j);
    }
    BillApart(s, t, k);
  }

  lemma BillApart(s: Store, t: Store, k: BillKey)
    requires Kinds(s) && Apart(s) && BillStep(s, t, k)
    ensures Apart(t)
  {
    forall i, j | i in t.bills && j in t.bills && i != j && t.bills[i].txs != [] && t.bills[j].txs != []
      ensures t.bills[i].txs[|t.bills[i].txs| - 1] != t.bills[j].txs[|t.bills[j].txs| - 1]
    {
      assert LastKind(s, i) && LastKind(s, j);
      BillTwo(s, t, k, i, j);
    }
  }

  lemma BillTwo(s: Store, t: Store, k: BillKey, i: BillKey, j: BillKey)
    requires BillStep(s, t, k) && i in s.bills && j in s.bills && i != j && LastKind(s, i) && LastKind(s, j)
    requires s.bills[i].txs != [] && s.bills[j].txs != [] ==>
               s.bills[i].txs[|s.bills[i].txs| - 1] != s.bills[j].txs[|s.bills[j].txs| - 1]
    requires t.bills[i].txs != [] && t.bills[j].txs != []
    ensures t.bills[i].txs[|t.bills[i].txs| - 1] != t.bills[j].txs[|t.bills[j].txs| - 1]
  {
  }

  lemma SettlePlans(s: Store, read: StatementBill, k: BillKey, paid: Cents, difference: Option<Account>, date: Date, into: Option<Account>)
    requires Plans(s) && Settle(s, read, k, paid, difference, date, into).Committed?
    ensures Plans(Settle(s, read, k, paid, difference, date, into).store)
  {
    BillPlans(s, Settle(s, read, k, paid, difference, date, into).store, k);
  }

  lemma UnsettlePlans(s: Store, read: StatementBill, k: BillKey, date: Date)
    requires Plans(s) && FreshBill(s, k, read) && Unsettle(s, read, k, date).Committed?
    ensures Plans(Unsettle(s, read, k, date).store)
  {
    assert LastKind(s, k);
    BillPlans(s, Unsettle(s, read, k, date).store, k);
  }

  lemma StatusPlans(s: Store, t: Store, k: BillKey)
    requires Plans(s) && k in s.bills && s.bills[k].status != Paid
    requires t == s.(bills := t.bills) && k in t.bills && t.bills == s.bills[k := t.bills[k]]
    requires t.bills[k].amount == s.bills[k].amount && t.bills[k].txs == s.bills[k].txs && t.bills[k].status != Paid
    ensures Plans(t)
  {
    assert LastKind(s, k);
    BillPlans(s, t, k);
  }

  // ---- every run ----

  lemma ItemsExec(p: seq<Store>, st: Step, s: Store, t: Store)
    requires Ready(p, st, s) && Plans(s) && Exec(p, st) == Committed(t)
    requires st.Buying? || st.Crediting? || st.Refunding? || st.Editing? || st.Closing?
    ensures Plans(t)
  {
    match st
    case Buying(c, id, total, n, date, category) => BuyPlans(s, p[c].card, id, total, n, date, category);
    case Crediting(c, id, amount, date, category) => CreditPlans(s, p[c].card, id, amount, date, category);
    case Refunding(c, r, id, date) =>
      RowFresh(p[r], s, id);
      RefundPlans(s, p[c].card, p[r].purchases[id], id, date);
    case Editing(r, id, category) =>
      RowFresh(p[r], s, id);
      EditPlans(s, p[r].purchases[id], id, category);
    case Closing(c, i) =>
      CloseFresh(p[c], p[i], s);
      ClosePlans(s, p[c].card, StatementTotal(p[i], p[c].card.open));
  }

  lemma ReopenExec(p: seq<Store>, st: Step, s: Store, t: Store)
    requires Ready(p, st, s) && Plans(s) && Exec(p, st) == Committed(t) && st.Reopening?
    ensures Plans(t)
  {
    ReopeningFrames(p, st);
    ReopenPlans(s, st.month, RowRead(p, st).value);
  }

  lemma BillsExec(p: seq<Store>, st: Step, s: Store, t: Store)
    requires Ready(p, st, s) && Plans(s) && Exec(p, st) == Committed(t)
    requires st.Settling? || st.Unsettling? || st.Canceling? || st.EditingBill? || st.Updating? || st.Archiving?
    ensures Plans(t)
  {
    match st
    case Settling(b, k, paid, difference, date, into) => SettlePlans(s, p[b].bills[k], k, paid, difference, date, into);
    case Unsettling(b, k, date) =>
      BillFresh(p[b], s, k);
      UnsettlePlans(s, p[b].bills[k], k, date);
    case Canceling(c, b, k) => StatusPlans(s, t, k);
    case EditingBill(b, k, account, due) => StatusPlans(s, t, k);
    case Updating(c, d, y) => SettingsPlans(s, s.card.(closingDay := c, dueDay := d, paying := y));
    case Archiving => SettingsPlans(s, s.card.(archived := true));
  }

  lemma AdvanceExecIff(p: seq<Store>, st: Step, s: Store, t: Store)
    requires Ready(p, st, s) && Plans(s) && Exec(p, st) == Committed(t) && st.Advancing?
    ensures AdvancesOnce(p, st) ==> Plans(t)
    ensures Purchases(t) <==> AdvancesOnce(p, st)
  {
    var row := p[st.rowAt].purchases[st.id];
    RowFresh(p[st.rowAt], s, st.id);
    if AdvancesOnce(p, st) {
      AdvancePlans(s, p[st.cardAt].card, row, st.id);
    } else {
      AdvanceAgain(s, p[st.cardAt].card, row, st.id);
    }
  }

  lemma ExecPlansIff(p: seq<Store>, st: Step, s: Store, t: Store)
    requires Ready(p, st, s) && Plans(s) && !st.Restoring? && Exec(p, st) == Committed(t)
    ensures AdvancesOnce(p, st) ==> Plans(t)
    ensures Purchases(t) <==> AdvancesOnce(p, st)
  {
    if st.Advancing? {
      AdvanceExecIff(p, st, s, t);
    } else if st.Reopening? {
      ReopenExec(p, st, s, t);
    } else if st.Settling? || st.Unsettling? || st.Canceling? || st.EditingBill? || st.Updating? || st.Archiving? {
      BillsExec(p, st, s, t);
    } else {
      ItemsExec(p, st, s, t);
    }
  }

  /** No advance before n repeats one. */
  ghost predicate OnceTo(tr: seq<Store>, steps: seq<Step>, n: nat)
    requires Run(tr, steps) && n <= |steps|
  {
    forall k {:trigger Follows(tr, steps, k)} :: 0 <= k < n && Follows(tr, steps, k) ==> AdvancesOnce(tr[..k + 1], steps[k])
  }

  lemma StepPlansIff(tr: seq<Store>, steps: seq<Step>, k: nat)
    requires Run(tr, steps) && k < |steps| && Plans(tr[k])
    ensures InTime(steps[k], k)
    ensures AdvancesOnce(tr[..k + 1], steps[k]) ==> Plans(tr[k + 1])
    ensures Purchases(tr[k + 1]) <==> AdvancesOnce(tr[..k + 1], steps[k])
  {
    RunReady(tr, steps, k);
    NeverRestored(tr, steps, k);
    ExecPlansIff(tr[..k + 1], steps[k], tr[k], tr[k + 1]);
  }

  lemma OnceAt(tr: seq<Store>, steps: seq<Step>, k: nat)
    requires Run(tr, steps) && 0 < k <= |steps| && OnceTo(tr, steps, k)
    ensures OnceTo(tr, steps, k - 1) && InTime(steps[k - 1], k - 1) && AdvancesOnce(tr[..k - 1 + 1], steps[k - 1])
  {
    assert Follows(tr, steps, k - 1);
  }

  lemma {:induction false} PlansTo(tr: seq<Store>, steps: seq<Step>, k: nat)
    requires Run(tr, steps) && k <= |steps| && OnceTo(tr, steps, k)
    ensures Plans(tr[k])
  {
    if k > 0 {
      OnceAt(tr, steps, k);
      PlansTo(tr, steps, k - 1);
      StepPlansIff(tr, steps, k - 1);
    }
  }

  lemma OnceNext(tr: seq<Store>, steps: seq<Step>, n: nat)
    requires Run(tr, steps) && n < |steps| && OnceTo(tr, steps, n) && InTime(steps[n], n) && AdvancesOnce(tr[..n + 1], steps[n])
    ensures OnceTo(tr, steps, n + 1)
  {
  }

  lemma OnceLess(tr: seq<Store>, steps: seq<Step>, k: nat, n: nat)
    requires Run(tr, steps) && k <= n <= |steps| && OnceTo(tr, steps, n)
    ensures OnceTo(tr, steps, k)
  {
  }

  lemma {:induction false} RightOnce(tr: seq<Store>, steps: seq<Step>, n: nat)
    requires Run(tr, steps) && n <= |steps| && forall i :: 0 <= i <= n ==> Purchases(tr[i])
    ensures OnceTo(tr, steps, n)
  {
    if n > 0 {
      RightOnce(tr, steps, n - 1);
      RightStep(tr, steps, n - 1);
      OnceNext(tr, steps, n - 1);
    }
  }

  lemma RightStep(tr: seq<Store>, steps: seq<Step>, k: nat)
    requires Run(tr, steps) && k < |steps| && OnceTo(tr, steps, k) && Purchases(tr[k + 1])
    ensures InTime(steps[k], k) && AdvancesOnce(tr[..k + 1], steps[k])
  {
    PlansTo(tr, steps, k);
    StepPlansIff(tr, steps, k);
  }

  /** Every purchase is right up to point n if and only if no advance before n repeats one. */
  lemma PurchasesRightIff(tr: seq<Store>, steps: seq<Step>, n: nat)
    requires Run(tr, steps) && n <= |steps|
    ensures (forall i :: 0 <= i <= n ==> Purchases(tr[i])) <==> OnceTo(tr, steps, n)
  {
    if OnceTo(tr, steps, n) {
      forall i | 0 <= i <= n ensures Purchases(tr[i]) {
        OnceLess(tr, steps, i, n);
        PlansTo(tr, steps, i);
      }
    } else if forall i :: 0 <= i <= n ==> Purchases(tr[i]) {
      RightOnce(tr, steps, n);
    }
  }

  /**
   A purchase's own items are exactly those its plan names and sum to its total, which its transaction puts on its category;
   once refunded they sum to zero. So at every point of every run that repeats no advance, whatever reopenings read.
   */
  lemma PurchaseConserved(tr: seq<Store>, steps: seq<Step>, k: nat, id: string)
    requires Run(tr, steps) && k <= |steps| && OnceTo(tr, steps, k) && id in tr[k].purchases
    ensures var s, p := tr[k], tr[k].purchases[id];
            && p.tx < |s.log| && Net(s.log[p.tx], p.category) == p.total && Net(s.log[p.tx], CardOf(s)) == -p.total && Between(s.log[p.tx], CardOf(s), p.category)
            && SumWhere(s.items, OwnedBy(PurchaseOwner(id))) == (if p.refunded then 0 else p.total)
            && (!p.refunded ==> forall i: ItemKey :: i in s.items && i.owner == PurchaseOwner(id) <==> i in PlanItems(id, p.parts))
  {
    PlansTo(tr, steps, k);
    assert PurchaseOk(tr[k], id);
    OwnedTotal(tr[k], id);
  }
}
