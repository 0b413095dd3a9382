/** Concrete runs on which a promise of the card operations fails, and the retry that credits twice. */
module CardLimits {
  import opened Calendar
  import opened Installments
  import opened Ledger
  import opened Sums
  import opened CardModel
  import opened CardPlans
  import opened CardInvariant
  import opened CardBills
  import opened CardRuns
  import opened CardHistory
  import opened CardBooks
  import opened CardTheorems

  /** The purchase stands, its parts on consecutive months from m, none advanced. */
  ghost predicate Spread(s: Store, id: string, m: Month) {
    && id in s.purchases && !s.purchases[id].refunded && |s.purchases[id].parts| >= 3
    && forall i :: 0 <= i < |s.purchases[id].parts| ==> s.purchases[id].parts[i].month == m + i && !s.purchases[id].parts[i].advanced
  }

  lemma BoughtSpread(s: Store, id: string, total: Cents, n: int, date: Date, category: Account)
    requires Buy(s, s.card, id, total, n, date, category).Committed?
    requires n >= 3 && StatementFor(date, s.card.closingDay) <= s.card.open
    ensures Spread(Buy(s, s.card, id, total, n, date, category).store, id, s.card.open)
  {
  }

  /** A month's items never sum past the whole plan. */
  lemma MonthAtMostTotal(s: Store, id: string, m: Month)
    requires id in s.purchases && PurchaseOk(s, id) && !s.purchases[id].refunded
    requires forall k :: k in s.items ==> k.owner == PurchaseOwner(id)
    ensures SumWhere(s.items, On(m)) <= s.purchases[id].total
  {
    var parts := s.purchases[id].parts;
    var there, elsewhere := (p: Part) => p.month == m, (p: Part) => p.month != m;
    assert Own(s.items, PurchaseOwner(id)) == s.items;
    PlanSum(id, parts, On(m), there);
    SumPartsSplit(parts, AnyPart(), there, elsewhere);
    SumPartsZero(parts, elsewhere);
  }

  function Row(s: Store, m: Month): Option<Frozen> { Lookup(s.frozen, m) }

  function BillOf(s: Store, m: Month): Option<StatementBill> {
    if Row(s, m).Some? && Row(s, m).value.bill.Some? then Lookup(s.bills, Row(s, m).value.bill.value) else None
  }

  /** The statement of month m is the latest frozen one and its bill, if it has one, is unpaid. */
  ghost predicate CanReopen(s: Store, m: Month) {
    && s.card.open == m + 1 && !s.card.archived && Row(s, m).Some?
    && (Row(s, m).value.bill.Some? ==> BillOf(s, m).Some? && BillOf(s, m).value.status == Forecast)
  }

  lemma ClosedShape(s: Store, id: string, total: Cents)
    requires Spread(s, id, s.card.open) && !s.card.archived && Close(s, s.card, total).Committed?
    ensures var t := Close(s, s.card, total).store;
            Spread(t, id, s.card.open) && CanReopen(t, s.card.open)
  {
  }

  lemma AdvancedShape(s: Store, id: string, m: Month)
    requires Spread(s, id, m) && CanReopen(s, m) && PurchaseOk(s, id)
    ensures Advance(s, s.card, s.purchases[id], id).Committed?
    ensures var t := Advance(s, s.card, s.purchases[id], id).store;
            && CanReopen(t, m) && Flagged(t, id, m + 1)
            && NeverAdvancedPast(s.purchases[id].parts, s.card.open)
  {
    AdvanceIsAllowed(s, id, 2);
  }

  /** The third installment is advanced onto month m. */
  ghost predicate Flagged(s: Store, id: string, m: Month) {
    && id in s.purchases && !s.purchases[id].refunded && |s.purchases[id].parts| >= 3
    && s.purchases[id].parts[2].advanced && s.purchases[id].parts[2].month == m
  }

  lemma ReopenCommits(s: Store, m: Month)
    requires CanReopen(s, m)
    ensures Reopen(s, s.card, Row(s, m), BillOf(s, m), m).Committed?
    ensures Reopenable(s, m) && Reopen(s, s.card, Row(s, m), BillOf(s, m), m).store == Reopened(s, m, s.frozen[m])
  {
  }

  lemma ReopenedAndAdvanced(s: Store, id: string, m: Month)
    requires Inv(s) && CanReopen(s, m) && Flagged(s, id, m + 1)
    ensures Reopen(s, s.card, Row(s, m), BillOf(s, m), m).Committed?
    ensures var t := Reopen(s, s.card, Row(s, m), BillOf(s, m), m).store;
            && id in t.purchases && Advance(t, t.card, t.purchases[id], id).Committed?
            && !Conserved(Advance(t, t.card, t.purchases[id], id).store)
  {
    ReopenCommits(s, m);
    SecondAdvanceBreaks(s, id, 2);
  }

  // Each of the next lemmas adds one step, planned on current reads, to a run.

  lemma ThenAdvance(tr: seq<Store>, steps: seq<Step>, s: Store, t: Store, id: string)
    requires Run(tr, steps) && s == tr[|tr| - 1] && id in s.purchases && Advance(s, s.card, s.purchases[id], id) == Committed(t)
    ensures Run(tr + [t], steps + [Advancing(|tr| - 1, |tr| - 1, id)])
  {
    RunExtend(tr, steps, Advancing(|tr| - 1, |tr| - 1, id), t);
  }

  lemma ThenClose(tr: seq<Store>, steps: seq<Step>, s: Store, t: Store)
    requires Run(tr, steps) && s == tr[|tr| - 1] && Close(s, s.card, StatementTotal(s, s.card.open)) == Committed(t)
    ensures Run(tr + [t], steps + [Closing(|tr| - 1, |tr| - 1)])
  {
    RunExtend(tr, steps, Closing(|tr| - 1, |tr| - 1), t);
  }

  lemma ThenReopen(tr: seq<Store>, steps: seq<Step>, s: Store, t: Store, m: Month)
    requires Run(tr, steps) && s == tr[|tr| - 1] && Reopen(s, s.card, Row(s, m), BillOf(s, m), m) == Committed(t)
    ensures Run(tr + [t], steps + [Reopening(|tr| - 1, |tr| - 1, |tr| - 1, m)])
  {
    RunExtend(tr, steps, Reopening(|tr| - 1, |tr| - 1, |tr| - 1, m), t);
  }

  /** From any run whose card can reopen month m with a part advanced past it, two more steps break conservation. */
  lemma ReopenAdvance(tr: seq<Store>, steps: seq<Step>, s: Store, id: string, m: Month) returns (tr': seq<Store>, steps': seq<Step>)
    requires Run(tr, steps) && s == tr[|tr| - 1] && Inv(s) && CanReopen(s, m) && Flagged(s, id, m + 1)
    ensures Run(tr', steps') && !Conserved(tr'[|tr'| - 1])
    ensures steps' == steps + [Reopening(|tr| - 1, |tr| - 1, |tr| - 1, m)] + [Advancing(|tr|, |tr|, id)]
  {
    ReopenedAndAdvanced(s, id, m);
    var t := Reopen(s, s.card, Row(s, m), BillOf(s, m), m).store;
    ThenReopen(tr, steps, s, t, m);
    var u := Advance(t, t.card, t.purchases[id], id).store;
    ThenAdvance(tr + [t], steps + [Reopening(|tr| - 1, |tr| - 1, |tr| - 1, m)], t, u, id);
    tr' := tr + [t] + [u];
    steps' := steps + [Reopening(|tr| - 1, |tr| - 1, |tr| - 1, m)] + [Advancing(|tr|, |tr|, id)];
  }

  /** From any run ending in a fresh spread-out purchase, closing and advancing leads there. */
  lemma CloseAdvance(tr: seq<Store>, steps: seq<Step>, s: Store, id: string) returns (tr': seq<Store>, steps': seq<Step>)
    requires Run(tr, steps) && s == tr[|tr| - 1] && Inv(s) && Spread(s, id, s.card.open) && !s.card.archived
    requires StatementTotal(s, s.card.open) <= MAX_LEG_AMOUNT
    ensures Run(tr', steps') && Inv(tr'[|tr'| - 1]) && CanReopen(tr'[|tr'| - 1], s.card.open) && Flagged(tr'[|tr'| - 1], id, s.card.open + 1)
    ensures steps' == steps + [Closing(|tr| - 1, |tr| - 1)] + [Advancing(|tr|, |tr|, id)]
  {
    var t, u := CloseThenAdvance(s, id);
    ThenClose(tr, steps, s, t);
    ThenAdvance(tr + [t], steps + [Closing(|tr| - 1, |tr| - 1)], t, u, id);
    tr' := tr + [t] + [u];
    steps' := steps + [Closing(|tr| - 1, |tr| - 1)] + [Advancing(|tr|, |tr|, id)];
  }

  lemma BooksClose(s: Store)
    requires Books(s)
    ensures Frames(s)
    ensures Close(s, s.card, StatementTotal(s, s.card.open)).Committed? <==> StatementTotal(s, s.card.open) <= MAX_LEG_AMOUNT
  {
    assert Versions(s) by {
      forall k | k in s.bills ensures k.version <= s.card.version && (k.month >= s.card.open ==> k.version < s.card.version) {
        assert BillOk(s, k);
      }
    }
    CloseCommitsIff(s);
  }

  lemma CloseThenAdvance(s: Store, id: string) returns (t: Store, u: Store)
    requires Inv(s) && Spread(s, id, s.card.open) && !s.card.archived && StatementTotal(s, s.card.open) <= MAX_LEG_AMOUNT
    ensures Close(s, s.card, StatementTotal(s, s.card.open)) == Committed(t)
    ensures id in t.purchases && Advance(t, t.card, t.purchases[id], id) == Committed(u)
    ensures Inv(u) && CanReopen(u, s.card.open) && Flagged(u, id, s.card.open + 1)
  {
    BooksClose(s);
    t := Close(s, s.card, StatementTotal(s, s.card.open)).store;
    ClosedShape(s, id, StatementTotal(s, s.card.open));
    u := AdvanceFrom(s, t, id);
  }

  lemma AdvanceFrom(s: Store, t: Store, id: string) returns (u: Store)
    requires Inv(s) && Close(s, s.card, StatementTotal(s, s.card.open)) == Committed(t)
    requires Spread(t, id, s.card.open) && CanReopen(t, s.card.open)
    ensures Advance(t, t.card, t.purchases[id], id) == Committed(u)
    ensures Inv(u) && CanReopen(u, s.card.open) && Flagged(u, id, s.card.open + 1)
  {
    CloseKeeps(s, s.card, StatementTotal(s, s.card.open));
    assert PurchaseOk(t, id);
    AdvancedShape(t, id, s.card.open);
    AdvanceKeeps(t, t.card, t.purchases[id], id);
    u := Advance(t, t.card, t.purchases[id], id).store;
  }

  lemma FirstPurchase(s: Store, id: string, total: Cents, n: int, date: Date, category: Account) returns (t: Store)
    requires Created(s) && 3 <= n <= MAX_INSTALLMENTS && n <= total <= MAX_LEG_AMOUNT
    requires category.Category? && category.expense && StatementFor(date, s.card.closingDay) <= s.card.open
    ensures Buy(s, s.card, id, total, n, date, category) == Committed(t)
    ensures Run([s] + [t], [Buying(0, id, total, n, date, category)])
    ensures !t.card.archived && t.card.open == s.card.open && Spread(t, id, s.card.open)
    ensures Inv(t) && StatementTotal(t, t.card.open) <= MAX_LEG_AMOUNT
  {
    var legs := [Leg(category, total), Leg(CardOf(s), -total)];
    NetTwo(legs[0], legs[1], category);
    assert ValidLegs(legs);
    t := Buy(s, s.card, id, total, n, date, category).store;
    BoughtSpread(s, id, total, n, date, category);
    FirstRun(s, t, Buying(0, id, total, n, date, category));
    BoughtTotal(s, t, id, total, n, date, category);
  }

  lemma FirstRun(s: Store, t: Store, st: Step)
    requires Created(s) && InTime(st, 0) && Exec([s], st) == Committed(t)
    ensures Run([s] + [t], [st])
  {
    var none: seq<Step> := [];
    assert Run([s], none);
    RunExtend([s], none, st, t);
    assert none + [st] == [st];
  }

  lemma BoughtTotal(s: Store, t: Store, id: string, total: Cents, n: int, date: Date, category: Account)
    requires Created(s) && Buy(s, s.card, id, total, n, date, category) == Committed(t) && total <= MAX_LEG_AMOUNT
    ensures Inv(t) && StatementTotal(t, t.card.open) <= MAX_LEG_AMOUNT
  {
    CreatedInv(s);
    BuyKeeps(s, s.card, id, total, n, date, category);
    BuyPlan(id, total, n, date, s.card.closingDay, s.card.open);
    assert PurchaseOk(t, id);
    MonthAtMostTotal(t, id, t.card.open);
  }

  /**
   Buy in three or more installments on any new card, close, advance, reopen, advance again: the run is valid, every step
   planned on current reads, and the card ends up billing more than it owes.
   */
  lemma DoubleAdvanceBreaks(s: Store, id: string, total: Cents, n: int, date: Date, category: Account)
      returns (tr: seq<Store>, steps: seq<Step>)
    requires Created(s) && 3 <= n <= MAX_INSTALLMENTS && n <= total <= MAX_LEG_AMOUNT
    requires category.Category? && category.expense && StatementFor(date, s.card.closingDay) <= s.card.open
    ensures Run(tr, steps) && !Conserved(tr[|tr| - 1])
    ensures steps == [Buying(0, id, total, n, date, category)] + [Closing(1, 1)] + [Advancing(2, 2, id)]
                     + [Reopening(3, 3, 3, s.card.open)] + [Advancing(4, 4, id)]
  {
    var t := FirstPurchase(s, id, total, n, date, category);
    tr, steps := CloseAdvance([s] + [t], [Buying(0, id, total, n, date, category)], t, id);
    tr, steps := ReopenAdvance(tr, steps, tr[|tr| - 1], id, s.card.open);
  }

  // ---- a reopening on a row read too early ----

  /** A new card's first month, with nothing on it, closed at zero and reopened: the same card, two versions on. */
  lemma ZeroReopened(s: Store) returns (t: Store, u: Store)
    requires Created(s)
    ensures StatementTotal(s, s.card.open) == 0 && Close(s, s.card, 0) == Committed(t)
    ensures Lookup(t.frozen, s.card.open) == Some(Frozen(0, None)) && !t.card.archived && t.card.open == s.card.open + 1
    ensures Reopen(t, t.card, Some(Frozen(0, None)), None, s.card.open) == Committed(u)
    ensures u == s.(card := s.card.(version := u.card.version)) && Inv(u)
  {
    SumNone(s.items, On(s.card.open));
    t := Close(s, s.card, 0).store;
    u := Reopen(t, t.card, Some(Frozen(0, None)), None, s.card.open).store;
    CreatedInv(s);
    CloseKeeps(s, s.card, 0);
    ReopenKeeps(t, t.card, Some(Frozen(0, None)), None, s.card.open);
  }

  /** Month m is the latest closed one, with a live bill, on a card whose books are right. */
  ghost predicate LiveClosed(w: Store, m: Month) {
    && Inv(w) && !w.card.archived && w.card.open == m + 1 && m in w.frozen && w.frozen[m].bill.Some?
    && w.frozen[m].bill.value in w.bills && w.bills[w.frozen[m].bill.value].status == Forecast
  }

  /** Bought at u, giving v, and closed, giving w, on current reads. */
  ghost predicate BuysAndCloses(u: Store, v: Store, w: Store, id: string, total: Cents, n: int, date: Date, category: Account) {
    Buy(u, u.card, id, total, n, date, category) == Committed(v) && Close(v, v.card, StatementTotal(v, v.card.open)) == Committed(w)
  }

  /** Bought on the open month and closed: a live bill. */
  lemma BoughtAndClosed(u: Store, id: string, total: Cents, n: int, date: Date, category: Account) returns (v: Store, w: Store)
    requires Inv(u) && u.items == map[] && u.purchases == map[] && !u.card.archived
    requires 1 <= n <= MAX_INSTALLMENTS && n <= total <= MAX_LEG_AMOUNT
    requires category.Category? && category.expense && StatementFor(date, u.card.closingDay) <= u.card.open
    ensures BuysAndCloses(u, v, w, id, total, n, date, category) && LiveClosed(w, u.card.open)
  {
    v := BoughtFirst(u, id, total, n, date, category);
    BooksClose(v);
    w := Close(v, v.card, StatementTotal(v, v.card.open)).store;
    CloseKeeps(v, v.card, StatementTotal(v, v.card.open));
  }

  lemma BoughtFirst(u: Store, id: string, total: Cents, n: int, date: Date, category: Account) returns (v: Store)
    requires Inv(u) && u.items == map[] && u.purchases == map[] && !u.card.archived
    requires 1 <= n <= MAX_INSTALLMENTS && n <= total <= MAX_LEG_AMOUNT
    requires category.Category? && category.expense && StatementFor(date, u.card.closingDay) <= u.card.open
    ensures Buy(u, u.card, id, total, n, date, category) == Committed(v) && Inv(v) && v.card == CardBump(u.card)
    ensures v.card.open !in v.frozen && 0 < StatementTotal(v, v.card.open) <= MAX_LEG_AMOUNT
  {
    var legs := [Leg(category, total), Leg(CardOf(u), -total)];
    NetTwo(legs[0], legs[1], category);
    v := Buy(u, u.card, id, total, n, date, category).store;
    BuyKeeps(u, u.card, id, total, n, date, category);
    BuyPlan(id, total, n, date, u.card.closingDay, u.card.open);
    MonthAtMostTotal(v, id, v.card.open);
    MonthPositive(v, id);
  }

  lemma MonthPositive(s: Store, id: string)
    requires id in s.purchases && PurchaseOk(s, id) && !s.purchases[id].refunded
    requires forall k :: k in s.items ==> k.owner == PurchaseOwner(id)
    requires |s.purchases[id].parts| > 0 && s.purchases[id].parts[0].month == s.card.open
    ensures SumWhere(s.items, On(s.card.open)) > 0
  {
    PlanMonthPositive(id, s.purchases[id].parts, s.card.open);
    assert Own(s.items, PurchaseOwner(id)) == s.items;
  }

  lemma PlanMonthPositive(id: string, parts: seq<Part>, m: Month)
    requires |parts| > 0 && parts[0].month == m && forall i :: 0 <= i < |parts| ==> parts[i].amount > 0
    ensures SumWhere(PlanItems(id, parts), On(m)) > 0
  {
    var there := (p: Part) => p.month == m;
    PlanSum(id, parts, On(m), there);
    SumPartsZero(parts, there);
    assert there(parts[0]);
  }

  /** The last step: the card row current, the statement row the one of the first close. */
  lemma ThenStale(tr: seq<Store>, steps: seq<Step>, r: nat, w: Store, m: Month) returns (t: Store)
    requires Run(tr, steps) && w == tr[|tr| - 1] && r < |tr| && Lookup(tr[r].frozen, m) == Some(Frozen(0, None))
    requires LiveClosed(w, m)
    ensures Run(tr + [t], steps + [Reopening(|tr| - 1, r, |tr| - 1, m)]) && !Conserved(t)
  {
    StaleReopenBreaks(w);
    t := Reopen(w, w.card, Some(Frozen(0, None)), None, m).store;
    RunExtend(tr, steps, Reopening(|tr| - 1, r, |tr| - 1, m), t);
  }

  lemma ThenBuy(tr: seq<Store>, steps: seq<Step>, s: Store, t: Store, id: string, total: Cents, n: int, date: Date, category: Account)
    requires Run(tr, steps) && s == tr[|tr| - 1] && Buy(s, s.card, id, total, n, date, category) == Committed(t)
    ensures Run(tr + [t], steps + [Buying(|tr| - 1, id, total, n, date, category)])
  {
    RunExtend(tr, steps, Buying(|tr| - 1, id, total, n, date, category), t);
  }

  lemma ZeroRun(s: Store) returns (tr: seq<Store>, steps: seq<Step>, t: Store, u: Store)
    requires Created(s)
    ensures Run(tr, steps) && |tr| == 3 && tr[1] == t && tr[2] == u
    ensures steps == [Closing(0, 0)] + [Reopening(1, 1, 1, s.card.open)]
    ensures Lookup(t.frozen, s.card.open) == Some(Frozen(0, None))
    ensures u == s.(card := s.card.(version := u.card.version)) && Inv(u)
  {
    t, u := ZeroReopened(s);
    FirstRun(s, t, Closing(0, 0));
    ThenReopen([s] + [t], [Closing(0, 0)], t, u, s.card.open);
    tr, steps := [s] + [t] + [u], [Closing(0, 0)] + [Reopening(1, 1, 1, s.card.open)];
  }

  lemma ThenBuyAndClose(tr: seq<Store>, steps: seq<Step>, v: Store, w: Store, id: string, total: Cents, n: int, date: Date, category: Account)
      returns (tr': seq<Store>, steps': seq<Step>)
    requires Run(tr, steps) && BuysAndCloses(tr[|tr| - 1], v, w, id, total, n, date, category)
    ensures Run(tr', steps') && |tr'| == |tr| + 2 && w == tr'[|tr'| - 1] && forall i :: 0 <= i < |tr| ==> tr'[i] == tr[i]
    ensures steps' == steps + [Buying(|tr| - 1, id, total, n, date, category)] + [Closing(|tr|, |tr|)]
  {
    ThenBuy(tr, steps, tr[|tr| - 1], v, id, total, n, date, category);
    tr', steps' := tr + [v], steps + [Buying(|tr| - 1, id, total, n, date, category)];
    ThenClose(tr', steps', v, w);
    tr', steps' := tr' + [w], steps' + [Closing(|tr|, |tr|)];
  }

  /**
   Close a new card's empty month, reopen it, buy something, close it again, and reopen it on the statement row of the first
   close: the run is valid, and the month is open again while its bill is still owed.
   */
  lemma StaleReopenRun(s: Store, id: string, total: Cents, n: int, date: Date, category: Account) returns (tr: seq<Store>, steps: seq<Step>)
    requires Created(s) && 1 <= n <= MAX_INSTALLMENTS && n <= total <= MAX_LEG_AMOUNT
    requires category.Category? && category.expense && StatementFor(date, s.card.closingDay) <= s.card.open
    ensures Run(tr, steps) && !Conserved(tr[|tr| - 1])
    ensures steps == [Closing(0, 0)] + [Reopening(1, 1, 1, s.card.open)] + [Buying(2, id, total, n, date, category)] + [Closing(3, 3)]
                     + [Reopening(4, 1, 4, s.card.open)]
  {
    var t, w;
    tr, steps, t, w := ClosedTwice(s, id, total, n, date, category);
    tr, steps := StaleEnd(tr, steps, t, w, s.card.open);
  }

  lemma ClosedTwice(s: Store, id: string, total: Cents, n: int, date: Date, category: Account)
      returns (tr: seq<Store>, steps: seq<Step>, t: Store, w: Store)
    requires Created(s) && 1 <= n <= MAX_INSTALLMENTS && n <= total <= MAX_LEG_AMOUNT
    requires category.Category? && category.expense && StatementFor(date, s.card.closingDay) <= s.card.open
    ensures Run(tr, steps) && |tr| == 5 && tr[1] == t && tr[4] == w && Lookup(t.frozen, s.card.open) == Some(Frozen(0, None))
    ensures steps == [Closing(0, 0)] + [Reopening(1, 1, 1, s.card.open)] + [Buying(2, id, total, n, date, category)] + [Closing(3, 3)]
    ensures LiveClosed(w, s.card.open)
  {
    var u, v;
    tr, steps, t, u := ZeroRun(s);
    v, w := BoughtAgain(s, u, id, total, n, date, category);
    tr, steps := ThenBuyAndClose(tr, steps, v, w, id, total, n, date, category);
  }

  lemma BoughtAgain(s: Store, u: Store, id: string, total: Cents, n: int, date: Date, category: Account) returns (v: Store, w: Store)
    requires Created(s) && u == s.(card := s.card.(version := u.card.version)) && Inv(u)
    requires 1 <= n <= MAX_INSTALLMENTS && n <= total <= MAX_LEG_AMOUNT
    requires category.Category? && category.expense && StatementFor(date, s.card.closingDay) <= s.card.open
    ensures BuysAndCloses(u, v, w, id, total, n, date, category) && LiveClosed(w, s.card.open)
  {
    v, w := BoughtAndClosed(u, id, total, n, date, category);
  }

  lemma StaleEnd(tr: seq<Store>, steps: seq<Step>, t: Store, w: Store, m: Month) returns (tr': seq<Store>, steps': seq<Step>)
    requires Run(tr, steps) && |tr| == 5 && t == tr[1] && w == tr[4] && Lookup(t.frozen, m) == Some(Frozen(0, None))
    requires LiveClosed(w, m)
    ensures Run(tr', steps') && !Conserved(tr'[|tr'| - 1]) && steps' == steps + [Reopening(4, 1, 4, m)]
  {
    var x := ThenStale(tr, steps, 1, w, m);
    tr', steps' := tr + [x], steps + [Reopening(4, 1, 4, m)];
  }

  // ---- a credit retried ----

  /** A credit already recorded on month m is answered, not recorded again, exactly while m is still the open month. */
  lemma CreditRetry(s: Store, id: string, amount: Cents, date: Date, category: Account, m: Month)
    requires Inv(s) && !s.card.archived && category.Category? && category.expense && 0 < amount <= MAX_LEG_AMOUNT
    requires forall x :: CreditKey(id, x) in s.items <==> x == m
    ensures Credit(s, s.card, id, amount, date, category).Committed? <==> s.card.open != m
    ensures Credit(s, s.card, id, amount, date, category).Committed? ==>
              Debt(Credit(s, s.card, id, amount, date, category).store) == Debt(s) - amount
  {
    var legs := [Leg(category, -amount), Leg(CardOf(s), amount)];
    NetTwo(legs[0], legs[1], category);
    assert ValidLegs(legs);
    CardNets(CardOf(s), category, amount, date);
    Append(s.log, CardCredit(CardOf(s), category, amount, date).value, CardOf(s));
  }
}
