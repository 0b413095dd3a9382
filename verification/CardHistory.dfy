/**
 What no interleaving can touch, however stale its reads: closed months, their frozen totals and the versions their bills
 are named by. Every run is meant here, those that break conservation included.
 */
module CardHistory {
  import opened Calendar
  import opened Installments
  import opened Ledger
  import opened Sums
  import opened CardModel
  import opened CardPlans
  import opened CardInvariant
  import opened CardBills
  import opened CardRuns

  /** A bill's version is never ahead of the card's, and behind it while its month is open or to come. */
  ghost predicate Versions(s: Store) {
    forall k :: k in s.bills ==> k.version <= s.card.version && (k.month >= s.card.open ==> k.version < s.card.version)
  }

  /** Contiguous closed months, each with the total of its items. */
  ghost predicate Frames(s: Store) { History(s) && FrozenTotals(s) && Versions(s) }

  // ---- steps that leave the open month where it is ----

  /** Items before the open month, frozen rows and bills' amounts are as they were. */
  ghost predicate Behind(s: Store, t: Store) {
    && t.card.open == s.card.open && t.card.first == s.card.first && s.card.version <= t.card.version && ValidSettings(t.card)
    && t.frozen == s.frozen
    && t.bills.Keys == s.bills.Keys && (forall k :: k in s.bills ==> t.bills[k].amount == s.bills[k].amount)
    && SameBefore(s.items, t.items, s.card.open)
  }

  ghost predicate SameBefore(a: map<ItemKey, Cents>, b: map<ItemKey, Cents>, open: Month) {
    forall k: ItemKey :: k.month < open ==> (k in a <==> k in b) && (k in a ==> a[k] == b[k])
  }

  lemma BehindFrames(s: Store, t: Store)
    requires Frames(s) && Behind(s, t)
    ensures Frames(t) && FrozenKept(s, t)
  {
    forall m | m in t.frozen ensures FrozenOk(t, m) {
      MonthKept(s, t, m);
    }
  }

  lemma MonthKept(s: Store, t: Store, m: Month)
    requires m in s.frozen && m in t.frozen && t.frozen[m] == s.frozen[m] && FrozenOk(s, m)
    requires SameBefore(s.items, t.items, m + 1)
    requires var b := s.frozen[m].bill; b.Some? && b.value in s.bills ==> b.value in t.bills && t.bills[b.value].amount == s.bills[b.value].amount
    ensures FrozenOk(t, m)
  {
    SumSame(s.items, t.items, On(m));
  }

  lemma BuyBehind(s: Store, read: CardRow, id: string, total: Cents, n: int, date: Date, category: Account)
    requires ValidSettings(s.card) && Buy(s, read, id, total, n, date, category).Committed?
    ensures Behind(s, Buy(s, read, id, total, n, date, category).store)
  {
    BuyPlan(id, total, n, date, read.closingDay, read.open);
  }

  lemma AdvanceBehind(s: Store, read: CardRow, row: Purchase, id: string)
    requires ValidSettings(s.card) && Advance(s, read, row, id).Committed?
    ensures Behind(s, Advance(s, read, row, id).store)
  {
  }

  lemma RefundBehind(s: Store, read: CardRow, row: Purchase, id: string, date: Date)
    requires ValidSettings(s.card) && Refund(s, read, row, id, date).Committed?
    ensures Behind(s, Refund(s, read, row, id, date).store)
  {
    RefundDeletesOwn(id, row.parts, read.open);
  }

  lemma EditBehind(s: Store, row: Purchase, id: string, category: Account)
    requires ValidSettings(s.card) && EditPurchase(s, row, id, category).Committed?
    ensures Behind(s, EditPurchase(s, row, id, category).store)
  {
  }

  lemma ExecBehind(tr: seq<Store>, st: Step)
    requires |tr| > 0 && InTime(st, |tr| - 1) && ValidSettings(tr[|tr| - 1].card)
    requires Exec(tr, st).Committed? && !st.Closing? && !st.Reopening?
    ensures Behind(tr[|tr| - 1], Exec(tr, st).store)
  {
    var s := tr[|tr| - 1];
    match st
    case Buying(c, id, total, n, date, category) => BuyBehind(s, tr[c].card, id, total, n, date, category);
    case Advancing(c, r, id) => AdvanceBehind(s, tr[c].card, tr[r].purchases[id], id);
    case Refunding(c, r, id, date) => RefundBehind(s, tr[c].card, tr[r].purchases[id], id, date);
    case Editing(r, id, category) => EditBehind(s, tr[r].purchases[id], id, category);
    case Crediting(_, _, _, _, _) =>
    case _ => BillsBehind(tr, st);
  }

  lemma BillsBehind(tr: seq<Store>, st: Step)
    requires |tr| > 0 && InTime(st, |tr| - 1) && ValidSettings(tr[|tr| - 1].card) && Exec(tr, st).Committed?
    requires st.Settling? || st.Unsettling? || st.Restoring? || st.Canceling? || st.EditingBill? || st.Updating? || st.Archiving?
    ensures Behind(tr[|tr| - 1], Exec(tr, st).store)
  {
  }

  // ---- closing and reopening ----

  lemma CloseFrames(s: Store, read: CardRow, total: Cents)
    requires Frames(s) && Close(s, read, total).Committed? && total == StatementTotal(s, read.open)
    ensures Frames(Close(s, read, total).store) && FrozenKept(s, Close(s, read, total).store)
  {
    var t := Close(s, read, total).store;
    ClosedNew(s, read, total);
    ClosedShape(s, read, total);
    forall m | m in t.frozen ensures FrozenOk(t, m) {
      if m != read.open {
        assert FrozenOk(s, m);
        MonthKept(s, t, m);
      }
    }
  }

  lemma ClosedShape(s: Store, read: CardRow, total: Cents)
    requires History(s) && Versions(s) && Close(s, read, total).Committed?
    ensures var t := Close(s, read, total).store;
            && History(t) && Versions(t) && SameBefore(s.items, t.items, read.open + 1)
            && (forall m :: m in s.frozen ==> m in t.frozen && t.frozen[m] == s.frozen[m])
            && (forall k :: k in s.bills ==> k in t.bills && t.bills[k].amount == s.bills[k].amount)
  {
  }

  lemma ClosedNew(s: Store, read: CardRow, total: Cents)
    requires Close(s, read, total).Committed? && total == StatementTotal(s, read.open)
    ensures read.open in Close(s, read, total).store.frozen && FrozenOk(Close(s, read, total).store, read.open)
  {
    SumSame(s.items, Close(s, read, total).store.items, On(read.open));
  }

  /** Whatever row was read, reopening leaves the months before it alone. */
  lemma ReopenFrames(s: Store, m: Month, f: Frozen)
    requires Frames(s) && s.card.open == m + 1 && s.card.first <= m && (f.bill.Some? ==> f.bill.value in s.bills)
    ensures Frames(Reopened(s, m, f)) && FrozenKept(s, Reopened(s, m, f))
  {
    var t := Reopened(s, m, f);
    ReopenShape(s, m, f);
    forall x | x in t.frozen ensures FrozenOk(t, x) {
      assert FrozenOk(s, x);
      MonthKept(s, t, x);
    }
  }

  lemma ReopenShape(s: Store, m: Month, f: Frozen)
    requires History(s) && Versions(s) && s.card.open == m + 1 && s.card.first <= m && (f.bill.Some? ==> f.bill.value in s.bills)
    ensures var t := Reopened(s, m, f);
            && History(t) && Versions(t) && SameBefore(s.items, t.items, m + 1) && t.frozen == s.frozen - {m}
            && t.bills.Keys == s.bills.Keys && forall k :: k in s.bills ==> t.bills[k].amount == s.bills[k].amount
  {
  }

  function RowRead(tr: seq<Store>, st: Step): Option<Frozen>
    requires st.Reopening? && st.rowAt < |tr|
  {
    Lookup(tr[st.rowAt].frozen, st.month)
  }

  lemma ReopeningFrames(tr: seq<Store>, st: Step)
    requires |tr| > 0 && InTime(st, |tr| - 1) && Ordered(tr) && Frames(tr[|tr| - 1])
    requires st.Reopening? && Frames(tr[st.rowAt]) && Exec(tr, st).Committed?
    ensures RowRead(tr, st).Some? && st.month in tr[|tr| - 1].frozen
    ensures Frames(Exec(tr, st).store) && FrozenKept(tr[|tr| - 1], Exec(tr, st).store)
  {
    var s, row := tr[|tr| - 1], RowRead(tr, st);
    assert Later(tr[st.rowAt], s);
    ReopenFrames(s, st.month, row.value);
  }

  lemma ExecFrames(tr: seq<Store>, st: Step)
    requires |tr| > 0 && InTime(st, |tr| - 1) && Ordered(tr) && Frames(tr[|tr| - 1])
    requires st.Reopening? ==> Frames(tr[st.rowAt])
    requires Exec(tr, st).Committed?
    ensures Frames(Exec(tr, st).store) && FrozenKept(tr[|tr| - 1], Exec(tr, st).store)
  {
    var s := tr[|tr| - 1];
    if st.Closing? {
      CloseFresh(tr[st.cardAt], tr[st.itemsAt], s);
      CloseFrames(s, tr[st.cardAt].card, StatementTotal(tr[st.itemsAt], tr[st.cardAt].card.open));
    } else if st.Reopening? {
      ReopeningFrames(tr, st);
    } else {
      ExecBehind(tr, st);
      BehindFrames(s, Exec(tr, st).store);
    }
  }

  // ---- every run ----

  lemma CreatedFrames(s: Store)
    requires Created(s)
    ensures Frames(s)
  {
  }

  lemma StepFrames(tr: seq<Store>, steps: seq<Step>, k: nat)
    requires Run(tr, steps) && 0 < k < |tr| && Frames(tr[k - 1])
    requires steps[k - 1].Reopening? ==> steps[k - 1].rowAt < k && Frames(tr[steps[k - 1].rowAt])
    ensures Frames(tr[k]) && FrozenKept(tr[k - 1], tr[k])
  {
    Unfold(tr, steps, k);
    PrefixOrdered(tr, steps, k - 1);
    ExecFrames(tr[..k], steps[k - 1]);
  }

  lemma RowReadBefore(tr: seq<Store>, steps: seq<Step>, k: nat)
    requires Run(tr, steps) && 0 < k < |tr|
    ensures steps[k - 1].Reopening? ==> steps[k - 1].rowAt < k
  {
    Unfold(tr, steps, k);
  }

  lemma {:induction false} RunFrames(tr: seq<Store>, steps: seq<Step>, k: nat)
    requires Run(tr, steps) && k < |tr|
    ensures Frames(tr[k])
    decreases k
  {
    if k == 0 {
      CreatedFrames(tr[0]);
    } else {
      RunFrames(tr, steps, k - 1);
      RowReadBefore(tr, steps, k);
      if steps[k - 1].Reopening? {
        RunFrames(tr, steps, steps[k - 1].rowAt);
      }
      StepFrames(tr, steps, k);
    }
  }

  /** At every point of every run every frozen total is the sum of its items. */
  lemma RunFrozen(tr: seq<Store>, steps: seq<Step>, k: nat)
    requires Run(tr, steps) && k < |tr|
    ensures FrozenTotals(tr[k])
  {
    RunFrames(tr, steps, k);
  }

  lemma RunFrozenKept(tr: seq<Store>, steps: seq<Step>, k: nat)
    requires Run(tr, steps) && 0 < k < |tr|
    ensures FrozenKept(tr[k - 1], tr[k])
  {
    RunFrames(tr, steps, k - 1);
    RowReadBefore(tr, steps, k);
    if steps[k - 1].Reopening? {
      RunFrames(tr, steps, steps[k - 1].rowAt);
    }
    StepFrames(tr, steps, k);
  }

  ghost predicate SameMonth(a: Store, b: Store, m: Month) {
    && m in a.frozen && m in b.frozen && a.frozen[m] == b.frozen[m]
    && forall k: ItemKey :: k.month == m ==> (k in a.items <==> k in b.items) && (k in a.items ==> a.items[k] == b.items[k])
  }

  /** While a month stays frozen, no transaction of any kind changes an item on it or its frozen row, in any run. */
  lemma {:induction false} FrozenNeverChanges(tr: seq<Store>, steps: seq<Step>, i: nat, j: nat, m: Month)
    requires Run(tr, steps) && i <= j < |tr|
    requires forall x :: i <= x <= j ==> m in tr[x].frozen
    ensures SameMonth(tr[i], tr[j], m)
    ensures SumWhere(tr[j].items, On(m)) == tr[i].frozen[m].total
    decreases j - i
  {
    RunFrozen(tr, steps, j);
    assert FrozenOk(tr[j], m);
    if i < j {
      RunFrozenKept(tr, steps, j);
      FrozenNeverChanges(tr, steps, i, j - 1, m);
    }
  }

  // ---- statement bills ----

  ghost predicate Reversals(s: Store) { forall k :: k in s.bills ==> LastReversed(s, k) }

  lemma SettleReversals(s: Store, read: StatementBill, k: BillKey, paid: Cents, difference: Option<Account>, date: Date, into: Option<Account>)
    requires Reversals(s) && Settle(s, read, k, paid, difference, date, into).Committed?
    ensures Reversals(Settle(s, read, k, paid, difference, date, into).store)
  {
    var t := Settle(s, read, k, paid, difference, date, into).store;
    forall j | j in t.bills ensures LastReversed(t, j) {
      assert LastReversed(s, j);
    }
  }

  lemma UndoneReversals(s: Store, read: StatementBill, k: BillKey, from: Status, date: Date)
    requires Reversals(s) && Undone(s, read, k, from, date).Committed?
    ensures Reversals(Undone(s, read, k, from, date).store)
  {
    var t := Undone(s, read, k, from, date).store;
    forall j | j in t.bills ensures LastReversed(t, j) {
      assert LastReversed(s, j);
    }
  }

  /** Any other step: the log grows, and a bill changes only in status, between forecast and canceled, or is new. */
  lemma OtherReversals(s: Store, t: Store)
    requires Reversals(s) && SameTxs(s, t)
    ensures Reversals(t)
  {
    forall j | j in t.bills ensures LastReversed(t, j) {
      assert j in s.bills ==> LastReversed(s, j);
    }
  }

  /** Bills keep their transactions and whether they are paid; new ones have none. */
  ghost predicate SameTxs(s: Store, t: Store) {
    && s.log <= t.log
    && (forall k :: k in t.bills && k in s.bills ==> t.bills[k].txs == s.bills[k].txs && (t.bills[k].status == Paid <==> s.bills[k].status == Paid))
    && (forall k :: k in t.bills && k !in s.bills ==> t.bills[k].txs == [])
  }

  lemma ItemsSameTxs(tr: seq<Store>, st: Step)
    requires |tr| > 0 && InTime(st, |tr| - 1) && Exec(tr, st).Committed?
    requires st.Buying? || st.Crediting? || st.Advancing? || st.Refunding? || st.Editing?
    ensures SameTxs(tr[|tr| - 1], Exec(tr, st).store)
  {
  }

  lemma PlainBills(tr: seq<Store>, st: Step)
    requires |tr| > 0 && InTime(st, |tr| - 1) && Exec(tr, st).Committed?
    requires !st.Settling? && !st.Unsettling? && !st.Restoring?
    ensures SameTxs(tr[|tr| - 1], Exec(tr, st).store)
  {
    if st.Buying? || st.Crediting? || st.Advancing? || st.Refunding? || st.Editing? {
      ItemsSameTxs(tr, st);
    }
  }

  lemma ExecReversals(tr: seq<Store>, st: Step)
    requires |tr| > 0 && InTime(st, |tr| - 1) && Reversals(tr[|tr| - 1]) && Exec(tr, st).Committed?
    ensures Reversals(Exec(tr, st).store)
  {
    var s := tr[|tr| - 1];
    match st
    case Settling(b, k, paid, difference, date, into) => SettleReversals(s, tr[b].bills[k], k, paid, difference, date, into);
    case Unsettling(b, k, date) => UndoneReversals(s, tr[b].bills[k], k, Paid, date);
    case Restoring(b, k, date) => UndoneReversals(s, tr[b].bills[k], k, Canceled, date);
    case _ =>
      PlainBills(tr, st);
      OtherReversals(s, Exec(tr, st).store);
  }

  lemma {:induction false} RunReversals(tr: seq<Store>, steps: seq<Step>, k: nat)
    requires Run(tr, steps) && k < |tr|
    ensures Reversals(tr[k])
  {
    if k > 0 {
      RunReversals(tr, steps, k - 1);
      Unfold(tr, steps, k);
      ExecReversals(tr[..k], steps[k - 1]);
    }
  }

  /** In no run is a canceled statement bill ever restored. */
  lemma NeverRestored(tr: seq<Store>, steps: seq<Step>, k: nat)
    requires Run(tr, steps) && k < |steps|
    ensures !steps[k].Restoring?
  {
    RunReversals(tr, steps, k);
    assert Follows(tr, steps, k);
    var st := steps[k];
    if st.Restoring? {
      RunLater(tr, steps, st.billAt, k);
      BillFresh(tr[st.billAt], tr[k], st.key);
      RestoreNeverCommits(tr[k], tr[st.billAt].bills[st.key], st.key, st.date);
    }
  }

  /** A bill that is not canceled is named by the frozen row of its month, for that row's total. */
  ghost predicate LiveNamed(s: Store) { forall k :: k in s.bills && s.bills[k].status != Canceled ==> Names(s, k) }

  /** The row read by a reopening names the stored row's bill, unless that bill was canceled. */
  ghost predicate NamesItsBill(s: Store, m: Month, f: Frozen)
    requires m in s.frozen
  {
    var b := s.frozen[m].bill;
    b.Some? && b.value in s.bills && s.bills[b.value].status != Canceled ==> f.bill == b
  }

  /** Reopening leaves every live bill named if and only if the row read names the live bill it should. */
  lemma ReopenLiveIff(s: Store, m: Month, f: Frozen)
    requires LiveNamed(s) && FrozenTotals(s) && m in s.frozen && (f.bill.Some? ==> f.bill.value in s.bills)
    ensures LiveNamed(Reopened(s, m, f)) <==> NamesItsBill(s, m, f)
  {
    var t, b := Reopened(s, m, f), s.frozen[m].bill;
    assert FrozenOk(s, m);
    if !NamesItsBill(s, m, f) {
      assert t.bills[b.value].status != Canceled && !Names(t, b.value);
    } else {
      forall k | k in t.bills && t.bills[k].status != Canceled ensures Names(t, k) {
        assert Names(s, k);
      }
    }
  }

  lemma CloseLive(s: Store, read: CardRow, total: Cents)
    requires LiveNamed(s) && History(s) && Close(s, read, total).Committed?
    ensures LiveNamed(Close(s, read, total).store)
  {
  }

  lemma PlainLive(tr: seq<Store>, st: Step)
    requires |tr| > 0 && InTime(st, |tr| - 1) && Exec(tr, st).Committed?
    requires !st.Closing? && !st.Reopening? && !st.Restoring?
    ensures var s, t := tr[|tr| - 1], Exec(tr, st).store;
            && t.frozen == s.frozen && t.bills.Keys == s.bills.Keys
            && forall k :: k in t.bills && t.bills[k].status != Canceled ==> s.bills[k].status != Canceled
  {
  }

  ghost predicate ReopenNames(tr: seq<Store>, st: Step)
    requires |tr| > 0 && InTime(st, |tr| - 1)
  {
    st.Reopening? && RowRead(tr, st).Some? && st.month in tr[|tr| - 1].frozen ==> NamesItsBill(tr[|tr| - 1], st.month, RowRead(tr, st).value)
  }

  lemma ExecLiveIff(tr: seq<Store>, st: Step)
    requires |tr| > 0 && InTime(st, |tr| - 1) && Ordered(tr) && Frames(tr[|tr| - 1]) && LiveNamed(tr[|tr| - 1])
    requires (st.Reopening? ==> Frames(tr[st.rowAt])) && !st.Restoring?
    requires Exec(tr, st).Committed?
    ensures LiveNamed(Exec(tr, st).store) <==> ReopenNames(tr, st)
  {
    var s := tr[|tr| - 1];
    if st.Reopening? {
      ReopeningFrames(tr, st);
      ReopenLiveIff(s, st.month, RowRead(tr, st).value);
    } else {
      OtherLive(tr, st);
    }
  }

  lemma OtherLive(tr: seq<Store>, st: Step)
    requires |tr| > 0 && InTime(st, |tr| - 1) && Frames(tr[|tr| - 1]) && LiveNamed(tr[|tr| - 1])
    requires !st.Reopening? && !st.Restoring? && Exec(tr, st).Committed?
    ensures LiveNamed(Exec(tr, st).store)
  {
    var s := tr[|tr| - 1];
    if st.Closing? {
      CloseLive(s, tr[st.cardAt].card, StatementTotal(tr[st.itemsAt], tr[st.cardAt].card.open));
    } else {
      PlainLive(tr, st);
      SameLive(s, Exec(tr, st).store);
    }
  }

  lemma SameLive(s: Store, t: Store)
    requires LiveNamed(s) && t.frozen == s.frozen && t.bills.Keys == s.bills.Keys
    requires forall k :: k in t.bills && t.bills[k].status != Canceled ==> s.bills[k].status != Canceled
    ensures LiveNamed(t)
  {
    forall k | k in t.bills && t.bills[k].status != Canceled ensures Names(t, k) {
      assert Names(s, k);
    }
  }

  /** Every reopening before n read a row that names the live bill it should. */
  ghost predicate NamesTo(tr: seq<Store>, steps: seq<Step>, n: nat)
    requires Run(tr, steps) && n <= |steps|
  {
    forall k {:trigger Follows(tr, steps, k)} :: 0 <= k < n && Follows(tr, steps, k) ==> ReopenNames(tr[..k + 1], steps[k])
  }

  lemma StepLiveIff(tr: seq<Store>, steps: seq<Step>, k: nat)
    requires Run(tr, steps) && k < |steps| && LiveNamed(tr[k])
    ensures InTime(steps[k], k) && (LiveNamed(tr[k + 1]) <==> ReopenNames(tr[..k + 1], steps[k]))
  {
    RunReady(tr, steps, k);
    NeverRestored(tr, steps, k);
    LiveToIff(tr[..k + 1], steps[k], tr[k], tr[k + 1]);
  }

  lemma LiveToIff(p: seq<Store>, st: Step, s: Store, t: Store)
    requires Ready(p, st, s) && LiveNamed(s) && !st.Restoring? && Exec(p, st) == Committed(t)
    ensures LiveNamed(t) <==> ReopenNames(p, st)
  {
    ExecLiveIff(p, st);
  }

  /** p are the stores up to s, all with their frames, and st read what it read among them. */
  ghost predicate Ready(p: seq<Store>, st: Step, s: Store) {
    && |p| > 0 && s == p[|p| - 1] && InTime(st, |p| - 1) && Ordered(p) && Frames(s)
    && (st.Reopening? ==> Frames(p[st.rowAt]))
  }

  lemma RunReady(tr: seq<Store>, steps: seq<Step>, k: nat)
    requires Run(tr, steps) && k < |steps|
    ensures InTime(steps[k], k) && Ready(tr[..k + 1], steps[k], tr[k]) && Exec(tr[..k + 1], steps[k]) == Committed(tr[k + 1])
  {
    Unfold(tr, steps, k + 1);
    PrefixOrdered(tr, steps, k);
    RunFrames(tr, steps, k);
    if steps[k].Reopening? {
      RunFrames(tr, steps, steps[k].rowAt);
    }
  }

  lemma NamesAt(tr: seq<Store>, steps: seq<Step>, n: nat)
    requires Run(tr, steps) && 0 < n <= |steps| && NamesTo(tr, steps, n)
    ensures NamesTo(tr, steps, n - 1) && InTime(steps[n - 1], n - 1) && ReopenNames(tr[..n - 1 + 1], steps[n - 1])
  {
    assert Follows(tr, steps, n - 1);
  }

  lemma {:induction false} LiveTo(tr: seq<Store>, steps: seq<Step>, n: nat)
    requires Run(tr, steps) && n <= |steps| && NamesTo(tr, steps, n)
    ensures LiveNamed(tr[n])
  {
    if n > 0 {
      NamesAt(tr, steps, n);
      LiveTo(tr, steps, n - 1);
      StepLiveIff(tr, steps, n - 1);
    }
  }

  lemma NamesLess(tr: seq<Store>, steps: seq<Step>, k: nat, n: nat)
    requires Run(tr, steps) && k <= n <= |steps| && NamesTo(tr, steps, n)
    ensures NamesTo(tr, steps, k)
  {
  }

  /** Every live bill is named up to point n if and only if every reopening until then read the row it should. */
  lemma LiveBillsNamedIff(tr: seq<Store>, steps: seq<Step>, n: nat)
    requires Run(tr, steps) && n <= |steps|
    ensures (forall i :: 0 <= i <= n ==> LiveNamed(tr[i])) <==> NamesTo(tr, steps, n)
  {
    if NamesTo(tr, steps, n) {
      forall i | 0 <= i <= n ensures LiveNamed(tr[i]) {
        NamesLess(tr, steps, i, n);
        LiveTo(tr, steps, i);
      }
    }
    if forall i :: 0 <= i <= n ==> LiveNamed(tr[i]) {
      forall k | 0 <= k < n && Follows(tr, steps, k) ensures ReopenNames(tr[..k + 1], steps[k]) {
        StepLiveIff(tr, steps, k);
      }
    }
  }

  /** A row read no earlier than the card row, as a consistent read would be, is the stored one. */
  lemma RowInOrder(tr: seq<Store>, st: Step)
    requires |tr| > 0 && InTime(st, |tr| - 1) && Ordered(tr)
    requires st.Reopening? && st.cardAt <= st.rowAt && Exec(tr, st).Committed?
    ensures RowRead(tr, st) == Lookup(tr[|tr| - 1].frozen, st.month)
  {
    assert Later(tr[st.cardAt], tr[st.rowAt]) && Later(tr[st.rowAt], tr[|tr| - 1]);
  }

  /**
   In every run the closed months are contiguous from the first to before the open one; and while reopenings read the rows
   they should, each month has at most one live bill, named by its row and for its frozen total.
   */
  lemma StatementHistory(tr: seq<Store>, steps: seq<Step>, k: nat)
    requires Run(tr, steps) && k <= |steps|
    ensures forall m :: m in tr[k].frozen <==> tr[k].card.first <= m < tr[k].card.open
    ensures NamesTo(tr, steps, k) ==> forall b :: b in tr[k].bills && tr[k].bills[b].status != Canceled ==>
              b.month in tr[k].frozen && tr[k].frozen[b.month].bill == Some(b) && tr[k].bills[b].amount == tr[k].frozen[b.month].total
  {
    RunFrames(tr, steps, k);
    if NamesTo(tr, steps, k) {
      LiveTo(tr, steps, k);
      var s := tr[k];
      forall b | b in s.bills && s.bills[b].status != Canceled
        ensures b.month in s.frozen && s.frozen[b.month].bill == Some(b) && s.bills[b].amount == s.frozen[b.month].total
      {
        assert Names(s, b) && FrozenOk(s, b.month);
      }
    }
  }

  // ---- carried credits ----

  /** A credit carried from a month is there only while that month is closed. */
  ghost predicate NoStray(s: Store) { forall m :: CarryKey(m) in s.items ==> m in s.frozen }

  /** The row read by a reopening knows of the credit its month carried. */
  ghost predicate KnowsCarry(s: Store, m: Month, f: Frozen) { CarryKey(m) in s.items ==> f.bill.None? && f.total < 0 }

  lemma ReopenStrayIff(s: Store, m: Month, f: Frozen)
    requires NoStray(s) && m in s.frozen && (f.bill.Some? ==> f.bill.value in s.bills)
    ensures NoStray(Reopened(s, m, f)) <==> KnowsCarry(s, m, f)
  {
    var t := Reopened(s, m, f);
    if KnowsCarry(s, m, f) {
      forall x | CarryKey(x) in t.items ensures x in t.frozen {
        assert CarryKey(x) in s.items;
      }
    } else {
      assert CarryKey(m) in t.items;
    }
  }

  /** Only a close adds a carried credit, for the month it closes. */
  lemma CarriesKept(tr: seq<Store>, st: Step, m: Month)
    requires |tr| > 0 && InTime(st, |tr| - 1) && Exec(tr, st).Committed? && !st.Reopening?
    ensures var s, t := tr[|tr| - 1], Exec(tr, st).store;
            && (m in s.frozen ==> m in t.frozen)
            && (CarryKey(m) in t.items ==> CarryKey(m) in s.items || m in t.frozen)
  {
    match st
    case Buying(c, id, total, n, date, category) => BuyPlan(id, total, n, date, tr[c].card.closingDay, tr[c].card.open);
    case _ =>
  }

  ghost predicate ReopenKnows(tr: seq<Store>, st: Step)
    requires |tr| > 0 && InTime(st, |tr| - 1)
  {
    st.Reopening? && RowRead(tr, st).Some? ==> KnowsCarry(tr[|tr| - 1], st.month, RowRead(tr, st).value)
  }

  lemma ExecStrayIff(tr: seq<Store>, st: Step)
    requires |tr| > 0 && InTime(st, |tr| - 1) && Ordered(tr) && Frames(tr[|tr| - 1]) && NoStray(tr[|tr| - 1])
    requires (st.Reopening? ==> Frames(tr[st.rowAt])) && Exec(tr, st).Committed?
    ensures NoStray(Exec(tr, st).store) <==> ReopenKnows(tr, st)
  {
    var s, t := tr[|tr| - 1], Exec(tr, st).store;
    if st.Reopening? {
      ReopeningFrames(tr, st);
      ReopenStrayIff(s, st.month, RowRead(tr, st).value);
    } else {
      forall m | CarryKey(m) in t.items ensures m in t.frozen {
        CarriesKept(tr, st, m);
      }
    }
  }

  ghost predicate KnowsTo(tr: seq<Store>, steps: seq<Step>, n: nat)
    requires Run(tr, steps) && n <= |steps|
  {
    forall k {:trigger Follows(tr, steps, k)} :: 0 <= k < n && Follows(tr, steps, k) ==> ReopenKnows(tr[..k + 1], steps[k])
  }

  lemma StepStrayIff(tr: seq<Store>, steps: seq<Step>, k: nat)
    requires Run(tr, steps) && k < |steps| && NoStray(tr[k])
    ensures InTime(steps[k], k) && (NoStray(tr[k + 1]) <==> ReopenKnows(tr[..k + 1], steps[k]))
  {
    RunReady(tr, steps, k);
    StrayToIff(tr[..k + 1], steps[k], tr[k], tr[k + 1]);
  }

  lemma StrayToIff(p: seq<Store>, st: Step, s: Store, t: Store)
    requires Ready(p, st, s) && NoStray(s) && Exec(p, st) == Committed(t)
    ensures NoStray(t) <==> ReopenKnows(p, st)
  {
    ExecStrayIff(p, st);
  }

  lemma {:induction false} NoStrayTo(tr: seq<Store>, steps: seq<Step>, n: nat)
    requires Run(tr, steps) && n <= |steps| && KnowsTo(tr, steps, n)
    ensures NoStray(tr[n])
  {
    if n > 0 {
      NoStrayTo(tr, steps, n - 1);
      StepStrayIff(tr, steps, n - 1);
      assert Follows(tr, steps, n - 1);
    }
  }

  /** A close on current reads: never stopped by a bill of an earlier close, only by its amount or a credit left behind. */
  lemma CloseCommitsIff(s: Store)
    requires Frames(s)
    ensures var total := StatementTotal(s, s.card.open);
            Close(s, s.card, total).Committed? <==> total <= MAX_LEG_AMOUNT && !(total < 0 && CarryKey(s.card.open) in s.items)
  {
    var k := BillKey(s.card.open, s.card.version);
    assert k !in s.bills;
  }

  /** However often months were reopened, closing on current reads commits unless the total is no valid bill amount. */
  lemma CloseCommits(tr: seq<Store>, steps: seq<Step>, k: nat)
    requires Run(tr, steps) && k <= |steps| && KnowsTo(tr, steps, k)
    ensures var s := tr[k];
            Close(s, s.card, StatementTotal(s, s.card.open)).Committed? <==> StatementTotal(s, s.card.open) <= MAX_LEG_AMOUNT
  {
    RunFrames(tr, steps, k);
    NoStrayTo(tr, steps, k);
    CloseCommitsIff(tr[k]);
  }
}
