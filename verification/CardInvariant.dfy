/** What every committed card transaction keeps: the books of one card, and that they always add up. */
module CardInvariant {
  import opened Calendar
  import opened Installments
  import opened Ledger
  import opened Sums
  import opened CardModel
  import opened CardPlans

  // ---- the invariant ----

  /** Only posted transactions are marked reversed. */
  ghost predicate Markers(s: Store) { forall i :: i in s.reversed ==> i < |s.log| }

  /** The frozen statements are exactly the months from the card's first up to, not including, its open one. */
  ghost predicate History(s: Store) {
    && s.card.first <= s.card.open
    && ValidSettings(s.card)
    && forall m :: m in s.frozen <==> s.card.first <= m < s.card.open
  }

  /** A frozen total is its items' sum, and a positive one has its bill. */
  ghost predicate FrozenOk(s: Store, m: Month)
    requires m in s.frozen
  {
    var f := s.frozen[m];
    && SumWhere(s.items, On(m)) == f.total
    && (f.bill.Some? <==> f.total > 0)
    && (f.bill.Some? ==> f.bill.value.month == m && f.bill.value in s.bills && s.bills[f.bill.value].amount == f.total)
  }

  ghost predicate FrozenTotals(s: Store) { forall m :: m in s.frozen ==> FrozenOk(s, m) }

  ghost predicate BillOk(s: Store, k: BillKey)
    requires k in s.bills
  {
    var b := s.bills[k];
    && b.amount > 0
    && k.version <= s.card.version
    && (k.month >= s.card.open ==> k.version < s.card.version)
    && (b.status != Canceled ==> Names(s, k))
    && (b.status == Paid ==> b.txs != [])
    && (b.txs != [] ==>
          var last := b.txs[|b.txs| - 1];
          && last < |s.log|
          && ValidLegs(s.log[last].legs)
          && (if b.status == Paid
              then s.log[last].kind == Settlement && Net(s.log[last], CardOf(s)) == b.amount && last !in s.reversed
              else s.log[last].kind == Reversal))
  }

  ghost predicate Bills(s: Store) { forall k :: k in s.bills ==> BillOk(s, k) }

  /** A credit carried from a negative statement exists exactly while that statement stays frozen. */
  ghost predicate Carries(s: Store) {
    && (forall k :: k in s.items && k.owner == CarryOwner ==>
          k.tag.CarryTag? && k == CarryKey(k.tag.closed) && k.tag.closed in s.frozen
          && s.frozen[k.tag.closed].total < 0 && s.items[k] == s.frozen[k.tag.closed].total)
    && (forall m :: m in s.frozen && s.frozen[m].total < 0 ==> CarryKey(m) in s.items)
  }

  ghost predicate PlanOk(parts: seq<Part>, total: Cents) {
    && SumParts(parts, AnyPart()) == total
    && (forall i :: 0 <= i < |parts| ==> parts[i].amount > 0)
    && (forall i, j :: 0 <= i < |parts| && 0 <= j < |parts| && parts[i].advanced ==> parts[j].month <= parts[i].month)
  }

  /** A purchase's items are its plan's while it stands, and sum to zero once it is refunded. */
  ghost predicate PurchaseOk(s: Store, id: string)
    requires id in s.purchases
  {
    var p := s.purchases[id];
    && PlanOk(p.parts, p.total)
    && p.tx < |s.log| && ValidLegs(s.log[p.tx].legs) && s.log[p.tx].kind == CardBuy
    && Net(s.log[p.tx], CardOf(s)) == -p.total && Net(s.log[p.tx], p.category) == p.total
    && Between(s.log[p.tx], CardOf(s), p.category)
    && (if p.refunded then SumWhere(s.items, OwnedBy(PurchaseOwner(id))) == 0
        else p.tx !in s.reversed && Own(s.items, PurchaseOwner(id)) == PlanItems(id, p.parts))
  }

  ghost predicate Purchases(s: Store) { forall id :: id in s.purchases ==> PurchaseOk(s, id) }

  ghost predicate Owners(s: Store) {
    forall k :: k in s.items ==> k.month >= s.card.first && (k.owner.PurchaseOwner? ==> k.owner.id in s.purchases)
  }

  /** No two purchases, and no two bills, stand on the same transaction. */
  ghost predicate Apart(s: Store) {
    && (forall a, b :: a in s.purchases && b in s.purchases && a != b ==> s.purchases[a].tx != s.purchases[b].tx)
    && (forall j, k :: j in s.bills && k in s.bills && j != k && s.bills[j].txs != [] && s.bills[k].txs != [] ==>
          s.bills[j].txs[|s.bills[j].txs| - 1] != s.bills[k].txs[|s.bills[k].txs| - 1])
  }

  /** The card's debt in the ledger is what its open and future statements hold plus its unpaid bills. */
  ghost predicate Conserved(s: Store) { Debt(s) == Unbilled(s) + SumWhere(Outstanding(s), AnyBill()) }

  /** Everything but conservation. */
  ghost predicate Books(s: Store) {
    Markers(s) && History(s) && FrozenTotals(s) && Bills(s) && Carries(s) && Purchases(s) && Owners(s) && Apart(s)
  }

  ghost predicate Inv(s: Store) { Books(s) && Conserved(s) }

  /** A month frozen before and after has the same row and, item by item, the same amounts. */
  ghost predicate FrozenKept(s: Store, t: Store) {
    && (forall m :: m in s.frozen && m in t.frozen ==> t.frozen[m] == s.frozen[m])
    && (forall k: ItemKey :: k.month in s.frozen && k.month in t.frozen ==>
          (k in s.items <==> k in t.items) && (k in s.items ==> s.items[k] == t.items[k]))
  }

  // ---- sums by owner ----

  function Rest(items: map<ItemKey, Cents>, o: Owner): map<ItemKey, Cents> {
    map k | k in items && k.owner != o :: items[k]
  }

  lemma OwnerSplit(items: map<ItemKey, Cents>, o: Owner, p: ItemKey -> bool)
    ensures SumWhere(items, p) == SumWhere(Own(items, o), p) + SumWhere(Rest(items, o), p)
  {
    var q := (k: ItemKey) => p(k) && k.owner == o;
    var r := (k: ItemKey) => p(k) && k.owner != o;
    SumSplit(items, p, q, r);
    SumSame(items, Own(items, o), q);
    SumAgree(Own(items, o), p, q);
    SumSame(items, Rest(items, o), r);
    SumAgree(Rest(items, o), p, r);
  }

  /** Only o's items changed, so the sum moved by o's part of it. */
  lemma OwnerSwap(a: map<ItemKey, Cents>, b: map<ItemKey, Cents>, o: Owner, p: ItemKey -> bool)
    requires Rest(a, o) == Rest(b, o)
    ensures SumWhere(b, p) - SumWhere(a, p) == SumWhere(Own(b, o), p) - SumWhere(Own(a, o), p)
  {
    OwnerSplit(a, o, p);
    OwnerSplit(b, o, p);
  }

  /** Items of other owners and of months before the open one are as they were. */
  ghost predicate OnlyFrom(a: map<ItemKey, Cents>, b: map<ItemKey, Cents>, o: Owner, open: Month) {
    forall k: ItemKey :: (k.owner != o || k.month < open) ==> (k in a <==> k in b) && (k in a ==> a[k] == b[k])
  }

  lemma RestSame(a: map<ItemKey, Cents>, b: map<ItemKey, Cents>, o: Owner, open: Month)
    requires OnlyFrom(a, b, o, open)
    ensures Rest(a, o) == Rest(b, o)
  {
    assert forall k :: k in Rest(a, o) <==> k in Rest(b, o);
  }

  // ---- steps that change one owner's items ----

  /** A transaction that changed only owner o's items, from the open month on, and o's purchase row if it has one. */
  ghost predicate ItemStep(s: Store, t: Store, o: Owner) {
    && t.card.id == s.card.id && t.card.open == s.card.open && t.card.first == s.card.first
    && s.card.version <= t.card.version && ValidSettings(t.card)
    && t.frozen == s.frozen && t.bills == s.bills && s.log <= t.log
    && o != CarryOwner
    && OnlyFrom(s.items, t.items, o, s.card.open)
    && (forall k :: k in t.items && k.owner == o ==> k.month >= s.card.first)
    && Markers(s) && Markers(t)
    && RowsBut(s, t, o)
  }

  ghost predicate RowsBut(s: Store, t: Store, o: Owner) {
    && (forall x :: x in s.purchases ==> x in t.purchases)
    && (forall x :: x in t.purchases && o != PurchaseOwner(x) ==> x in s.purchases && t.purchases[x] == s.purchases[x])
    && (forall i :: i in t.reversed && i !in s.reversed ==>
          o.PurchaseOwner? && o.id in s.purchases && i == s.purchases[o.id].tx)
    && (o.PurchaseOwner? ==> o.id in t.purchases
                             && (t.purchases[o.id].tx >= |s.log| || (o.id in s.purchases && t.purchases[o.id].tx == s.purchases[o.id].tx)))
  }

  lemma StepFrozen(s: Store, t: Store, o: Owner)
    requires FrozenTotals(s) && History(s) && ItemStep(s, t, o)
    ensures FrozenTotals(t)
  {
    forall m | m in t.frozen ensures FrozenOk(t, m) {
      assert FrozenOk(s, m);
      SumSame(s.items, t.items, On(m));
    }
  }

  lemma StepCarries(s: Store, t: Store, o: Owner)
    requires Carries(s) && ItemStep(s, t, o)
    ensures Carries(t)
  {
  }

  lemma StepBills(s: Store, t: Store, o: Owner)
    requires Bills(s) && ItemStep(s, t, o)
    requires o.PurchaseOwner? && o.id in s.purchases ==> PurchaseOk(s, o.id)
    ensures Bills(t)
  {
    forall k | k in t.bills ensures BillOk(t, k) {
      assert BillOk(s, k);
    }
  }

  lemma OtherOwner(a: map<ItemKey, Cents>, b: map<ItemKey, Cents>, o: Owner, open: Month, other: Owner)
    requires OnlyFrom(a, b, o, open) && other != o
    ensures Own(a, other) == Own(b, other)
  {
  }

  lemma OtherOwnerSum(a: map<ItemKey, Cents>, b: map<ItemKey, Cents>, o: Owner, open: Month, other: Owner)
    requires OnlyFrom(a, b, o, open) && other != o
    ensures SumWhere(a, OwnedBy(other)) == SumWhere(b, OwnedBy(other))
  {
    SumSame(a, b, OwnedBy(other));
  }

  lemma StepOther(s: Store, t: Store, o: Owner, id: string)
    requires ItemStep(s, t, o) && id in s.purchases && PurchaseOk(s, id) && o != PurchaseOwner(id)
    requires o.PurchaseOwner? && o.id in s.purchases ==> s.purchases[o.id].tx != s.purchases[id].tx
    ensures PurchaseOk(t, id)
  {
    if s.purchases[id].refunded {
      OtherOwnerSum(s.items, t.items, o, s.card.open, PurchaseOwner(id));
    } else {
      OtherOwner(s.items, t.items, o, s.card.open, PurchaseOwner(id));
    }
  }

  lemma StepPurchases(s: Store, t: Store, o: Owner)
    requires Purchases(s) && Apart(s) && ItemStep(s, t, o)
    requires o.PurchaseOwner? ==> o.id in t.purchases && PurchaseOk(t, o.id)
    ensures Purchases(t)
  {
    forall x | x in t.purchases ensures PurchaseOk(t, x) {
      if o != PurchaseOwner(x) {
        assert PurchaseOk(s, x);
        StepOther(s, t, o, x);
      }
    }
  }

  lemma StepApart(s: Store, t: Store, o: Owner)
    requires Purchases(s) && Apart(s) && ItemStep(s, t, o)
    ensures Apart(t)
  {
    forall a, b | a in t.purchases && b in t.purchases && a != b ensures t.purchases[a].tx != t.purchases[b].tx {
      assert a in s.purchases ==> PurchaseOk(s, a);
      assert b in s.purchases ==> PurchaseOk(s, b);
      StepTwo(s, t, o, a, b);
    }
  }

  lemma StepTwo(s: Store, t: Store, o: Owner, a: string, b: string)
    requires RowsBut(s, t, o) && a in t.purchases && b in t.purchases && a != b
    requires a in s.purchases ==> PurchaseOk(s, a)
    requires b in s.purchases ==> PurchaseOk(s, b)
    requires a in s.purchases && b in s.purchases ==> s.purchases[a].tx != s.purchases[b].tx
    ensures t.purchases[a].tx != t.purchases[b].tx
  {
  }

  lemma StepOwners(s: Store, t: Store, o: Owner)
    requires Owners(s) && ItemStep(s, t, o)
    ensures Owners(t)
  {
  }

  /** Such a step keeps the books if it leaves o's own purchase right. */
  lemma StepBooks(s: Store, t: Store, o: Owner)
    requires Books(s) && ItemStep(s, t, o)
    requires o.PurchaseOwner? ==> o.id in t.purchases && PurchaseOk(t, o.id)
    ensures Books(t) && FrozenKept(s, t)
  {
    StepFrozen(s, t, o);
    StepCarries(s, t, o);
    if o.PurchaseOwner? && o.id in s.purchases {
      assert PurchaseOk(s, o.id);
    }
    StepBills(s, t, o);
    StepPurchases(s, t, o);
    StepApart(s, t, o);
    StepOwners(s, t, o);
  }

  /** What the step adds to the debt must be what it adds to o's items from the open month on. */
  lemma StepConserves(s: Store, t: Store, o: Owner)
    requires Conserved(s) && ItemStep(s, t, o)
    ensures Conserved(t)
       <==> Debt(t) - Debt(s) == SumWhere(Own(t.items, o), Since(s.card.open)) - SumWhere(Own(s.items, o), Since(s.card.open))
  {
    RestSame(s.items, t.items, o, s.card.open);
    OwnerSwap(s.items, t.items, o, Since(s.card.open));
    OutstandingSame(s, t);
  }

  lemma OutstandingSame(s: Store, t: Store)
    requires t.frozen == s.frozen && t.bills == s.bills
    ensures Outstanding(t) == Outstanding(s)
  {
  }

  // ---- buying and crediting ----

  lemma PartsKeys(id: string, parts: seq<Part>)
    ensures forall k :: k in PlanItems(id, parts) ==> k.owner == PurchaseOwner(id) && exists i :: 0 <= i < |parts| && KeyOf(id, parts[i]) == k
  {
    forall k | k in PlanItems(id, parts)
      ensures k.owner == PurchaseOwner(id) && exists i :: 0 <= i < |parts| && KeyOf(id, parts[i]) == k
    {
      PlanKeys(id, parts, k);
    }
  }

  lemma PlanMonths(id: string, parts: seq<Part>, open: Month)
    requires forall i :: 0 <= i < |parts| ==> parts[i].month >= open
    ensures forall k :: k in PlanItems(id, parts) ==> k.owner == PurchaseOwner(id) && k.month >= open
  {
    PartsKeys(id, parts);
  }

  /** A new purchase's plan is right, wholly at or after the open month, and sums to the total. */
  lemma BuyPlan(id: string, total: Cents, n: int, date: Date, closingDay: int, open: Month)
    requires PlaceInstallments(total, n, date, closingDay, open).Some?
    ensures var parts := FreshParts(PlaceInstallments(total, n, date, closingDay, open).value);
            && PlanOk(parts, total)
            && (forall k :: k in PlanItems(id, parts) ==> k.owner == PurchaseOwner(id) && k.month >= open)
            && SumWhere(PlanItems(id, parts), Since(open)) == total
  {
    var plan := PlaceInstallments(total, n, date, closingDay, open).value;
    var parts := FreshParts(plan);
    PlacedPlanSumsToTotal(total, n, date, closingDay, open);
    FreshPartsTotal(plan);
    forall i | 0 <= i < |parts| ensures parts[i].month >= open {
      assert parts[i].month == plan[i].month;
    }
    PlanMonths(id, parts, open);
    PlanSum(id, parts, Since(open), AnyPart());
  }

  lemma RecordStep(s: Store, open: Month, id: string, row: Purchase, tx: Tx)
    requires Markers(s) && History(s) && Owners(s)
    requires RecordPurchase(s, open, id, row, tx).Committed?
    requires PlanOk(row.parts, row.total) && row.tx == |s.log| && !row.refunded && row.tx !in s.reversed
    requires forall k :: k in PlanItems(id, row.parts) ==> k.owner == PurchaseOwner(id) && k.month >= open
    requires ValidLegs(tx.legs) && tx.kind == CardBuy && Net(tx, CardOf(s)) == -row.total && Net(tx, row.category) == row.total
    requires Between(tx, CardOf(s), row.category)
    ensures var t := RecordPurchase(s, open, id, row, tx).store;
            ItemStep(s, t, PurchaseOwner(id)) && PurchaseOk(t, id)
            && Own(s.items, PurchaseOwner(id)) == map[]
            && Own(t.items, PurchaseOwner(id)) == PlanItems(id, row.parts)
  {
    BuyItems(s.items, PlanItems(id, row.parts), PurchaseOwner(id), s.card.open);
  }

  lemma BuyItems(items: map<ItemKey, Cents>, added: map<ItemKey, Cents>, o: Owner, open: Month)
    requires forall k :: k in items ==> k.owner != o
    requires forall k :: k in added ==> k.owner == o && k.month >= open
    ensures OnlyFrom(items, items + added, o, open)
    ensures Own(items, o) == map[] && Own(items + added, o) == added
  {
  }

  lemma RecordKeeps(s: Store, open: Month, id: string, row: Purchase, tx: Tx)
    requires Inv(s)
    requires RecordPurchase(s, open, id, row, tx).Committed?
    requires PlanOk(row.parts, row.total) && row.tx == |s.log| && !row.refunded && row.tx !in s.reversed
    requires forall k :: k in PlanItems(id, row.parts) ==> k.owner == PurchaseOwner(id) && k.month >= open
    requires SumWhere(PlanItems(id, row.parts), Since(open)) == row.total
    requires ValidLegs(tx.legs) && tx.kind == CardBuy && Net(tx, CardOf(s)) == -row.total && Net(tx, row.category) == row.total
    requires Between(tx, CardOf(s), row.category)
    ensures Inv(RecordPurchase(s, open, id, row, tx).store) && FrozenKept(s, RecordPurchase(s, open, id, row, tx).store)
  {
    var t := RecordPurchase(s, open, id, row, tx).store;
    RecordStep(s, open, id, row, tx);
    StepBooks(s, t, PurchaseOwner(id));
    StepConserves(s, t, PurchaseOwner(id));
    SumNone(map[], Since(s.card.open));
    Append(s.log, tx, CardOf(s));
  }

  lemma BuyKeeps(s: Store, read: CardRow, id: string, total: Cents, n: int, date: Date, category: Account)
    requires Inv(s)
    requires Buy(s, read, id, total, n, date, category).Committed?
    ensures Inv(Buy(s, read, id, total, n, date, category).store) && FrozenKept(s, Buy(s, read, id, total, n, date, category).store)
  {
    BuyPlan(id, total, n, date, read.closingDay, read.open);
    CardNets(CardOf(s), category, total, date);
    var parts := FreshParts(PlaceInstallments(total, n, date, read.closingDay, read.open).value);
    var tx := CardPurchase(CardOf(s), category, total, date).value;
    RecordKeeps(s, read.open, id, Purchase(total, category, date, parts, |s.log|, false, 0), tx);
  }

  lemma CreditStep(s: Store, read: CardRow, id: string, amount: Cents, date: Date, category: Account)
    requires Markers(s) && History(s) && Owners(s)
    requires Credit(s, read, id, amount, date, category).Committed?
    ensures ItemStep(s, Credit(s, read, id, amount, date, category).store, CreditOwner(id))
  {
  }

  lemma CreditKeeps(s: Store, read: CardRow, id: string, amount: Cents, date: Date, category: Account)
    requires Inv(s)
    requires Credit(s, read, id, amount, date, category).Committed?
    ensures Inv(Credit(s, read, id, amount, date, category).store) && FrozenKept(s, Credit(s, read, id, amount, date, category).store)
  {
    var t := Credit(s, read, id, amount, date, category).store;
    var o, open := CreditOwner(id), s.card.open;
    CreditStep(s, read, id, amount, date, category);
    StepBooks(s, t, o);
    StepConserves(s, t, o);
    CardNets(CardOf(s), category, amount, date);
    SumPut(s.items, Since(open), CreditKey(id, open), -amount);
    OutstandingSame(s, t);
    Append(s.log, CardCredit(CardOf(s), category, amount, date).value, CardOf(s));
  }

  // ---- advancing ----

  /** The row read is the row stored, as far as the guard can tell. */
  ghost predicate FreshRow(s: Store, id: string, row: Purchase) {
    PurchaseGuard(s, id, row) ==> s.purchases[id] == row
  }

  function Stays(open: Month): Part -> bool { (p: Part) => !(p.month > open && !p.advanced) }

  function AtOrAfter(open: Month): Part -> bool { (p: Part) => p.month >= open }

  function StaysAtOrAfter(open: Month): Part -> bool { (p: Part) => p.month >= open && !(p.month > open && !p.advanced) }

  /** What an advance leaves of a purchase's items: those it did not delete, and the new "adv" item. */
  lemma AdvanceItems(items: map<ItemKey, Cents>, id: string, parts: seq<Part>, open: Month, sum: Cents)
    requires Own(items, PurchaseOwner(id)) == PlanItems(id, parts)
    ensures var after := (items - AdvanceDeletes(id, parts, open))[AdvKey(id, open) := sum];
            && OnlyFrom(items, after, PurchaseOwner(id), open)
            && Own(after, PurchaseOwner(id)) == PlanItems(id, Filter(parts, Stays(open)))[AdvKey(id, open) := sum]
  {
    var gone, o := AdvanceDeletes(id, parts, open), PurchaseOwner(id);
    forall i | 0 <= i < |parts| ensures KeyOf(id, parts[i]) in gone <==> !Stays(open)(parts[i]) {
      if !Stays(open)(parts[i]) {
        assert KeyOf(id, parts[i]) == ItemKey(parts[i].month, o, PartTag(parts[i].number));
      }
    }
    DeleteParts(id, parts, gone, Stays(open));
    OwnAfter(items, o, gone, AdvKey(id, open), sum);
    forall k | k in gone ensures k.owner == o && k.month >= open {
    }
  }

  lemma OwnAfter(items: map<ItemKey, Cents>, o: Owner, gone: set<ItemKey>, k: ItemKey, v: Cents)
    requires k.owner == o
    ensures Own((items - gone)[k := v], o) == (Own(items, o) - gone)[k := v]
    ensures Own(items - gone, o) == Own(items, o) - gone
  {
  }

  /** An advance moves the unbilled sum by what parts already advanced past the open month add a second time. */
  lemma AdvanceSums(id: string, parts: seq<Part>, open: Month)
    requires AdvKey(id, open) !in PlanItems(id, parts)
    ensures SumWhere(PlanItems(id, Filter(parts, Stays(open)))[AdvKey(id, open) := SumParts(parts, After(open))], Since(open))
         == SumWhere(PlanItems(id, parts), Since(open)) + SumParts(parts, FlaggedAfter(open))
  {
    var kept, k, sum := Filter(parts, Stays(open)), AdvKey(id, open), SumParts(parts, After(open));
    if k in PlanItems(id, kept) {
      PlanKeys(id, kept, k);
      var i :| 0 <= i < |kept| && KeyOf(id, kept[i]) == k;
      FilterMember(parts, Stays(open), i);
      PlanKeys(id, parts, k);
      assert false;
    }
    SumPut(PlanItems(id, kept), Since(open), k, sum);
    PlanSum(id, kept, Since(open), AtOrAfter(open));
    FilterSum(parts, Stays(open), AtOrAfter(open), StaysAtOrAfter(open));
    PlanSum(id, parts, Since(open), AtOrAfter(open));
    var unflagged := (p: Part) => p.month > open && !p.advanced;
    SumPartsSplit(parts, AtOrAfter(open), StaysAtOrAfter(open), unflagged);
    SumPartsSplit(parts, After(open), FlaggedAfter(open), unflagged);
  }

  /** No part past the open month was advanced before: the caller can see it in the stored plan. */
  predicate NeverAdvancedPast(parts: seq<Part>, open: Month) {
    forall i :: 0 <= i < |parts| && parts[i].month > open ==> !parts[i].advanced
  }

  /** If something is past the open month and nothing there was advanced, nothing was advanced at all. */
  lemma NoneAdvanced(parts: seq<Part>, total: Cents, open: Month)
    requires PlanOk(parts, total) && NeverAdvancedPast(parts, open) && SumParts(parts, After(open)) != 0
    ensures forall i :: 0 <= i < |parts| ==> !parts[i].advanced
  {
    SumPartsZero(parts, After(open));
    var j :| 0 <= j < |parts| && After(open)(parts[j]);
  }

  lemma AdvancedPlanOk(id: string, parts: seq<Part>, total: Cents, open: Month)
    requires PlanOk(parts, total) && NeverAdvancedPast(parts, open) && SumParts(parts, After(open)) != 0
    ensures PlanOk(AdvancedParts(parts, open), total)
    ensures PlanItems(id, AdvancedParts(parts, open))
         == PlanItems(id, Filter(parts, Stays(open)))[AdvKey(id, open) := SumParts(parts, After(open))]
  {
    NoneAdvanced(parts, total, open);
    AdvancedPlan(id, parts, open, Stays(open));
    SumPartsSame(parts, AdvancedParts(parts, open), AnyPart(), AnyPart());
  }

  lemma AdvanceStep(s: Store, read: CardRow, row: Purchase, id: string)
    requires Markers(s) && History(s) && Owners(s)
    requires Advance(s, read, row, id).Committed? && FreshRow(s, id, row) && PurchaseOk(s, id)
    ensures var t := Advance(s, read, row, id).store;
            && ItemStep(s, t, PurchaseOwner(id))
            && Own(t.items, PurchaseOwner(id))
               == PlanItems(id, Filter(row.parts, Stays(read.open)))[AdvKey(id, read.open) := SumParts(row.parts, After(read.open))]
  {
    AdvanceItems(s.items, id, row.parts, read.open, SumParts(row.parts, After(read.open)));
  }

  lemma AdvanceMoves(s: Store, read: CardRow, row: Purchase, id: string)
    requires Markers(s) && History(s) && Owners(s)
    requires Advance(s, read, row, id).Committed? && FreshRow(s, id, row) && PurchaseOk(s, id)
    ensures var t := Advance(s, read, row, id).store;
            SumWhere(Own(t.items, PurchaseOwner(id)), Since(s.card.open))
            == SumWhere(Own(s.items, PurchaseOwner(id)), Since(s.card.open)) + SumParts(row.parts, FlaggedAfter(s.card.open))
  {
    AdvanceStep(s, read, row, id);
    assert AdvKey(id, read.open) !in Own(s.items, PurchaseOwner(id));
    AdvanceSums(id, row.parts, read.open);
  }

  lemma AdvanceDebt(s: Store, read: CardRow, row: Purchase, id: string)
    requires Markers(s) && History(s) && Owners(s) && Conserved(s)
    requires Advance(s, read, row, id).Committed? && FreshRow(s, id, row) && PurchaseOk(s, id)
    ensures Conserved(Advance(s, read, row, id).store) <==> SumParts(row.parts, FlaggedAfter(read.open)) == 0
  {
    AdvanceStep(s, read, row, id);
    AdvanceMoves(s, read, row, id);
    StepConserves(s, Advance(s, read, row, id).store, PurchaseOwner(id));
  }

  lemma AdvancedRow(s: Store, read: CardRow, row: Purchase, id: string)
    requires Markers(s) && History(s) && Owners(s)
    requires Advance(s, read, row, id).Committed? && FreshRow(s, id, row) && PurchaseOk(s, id)
    requires NeverAdvancedPast(row.parts, read.open)
    ensures PurchaseOk(Advance(s, read, row, id).store, id)
  {
    AdvanceStep(s, read, row, id);
    AdvancedPlanOk(id, row.parts, row.total, read.open);
  }

  lemma FlaggedNone(parts: seq<Part>, total: Cents, open: Month)
    requires PlanOk(parts, total)
    ensures SumParts(parts, FlaggedAfter(open)) == 0 <==> NeverAdvancedPast(parts, open)
  {
    SumPartsZero(parts, FlaggedAfter(open));
    assert (forall i :: 0 <= i < |parts| ==> !FlaggedAfter(open)(parts[i])) <==> NeverAdvancedPast(parts, open);
  }

  lemma AdvanceKeeps(s: Store, read: CardRow, row: Purchase, id: string)
    requires Inv(s)
    requires Advance(s, read, row, id).Committed? && FreshRow(s, id, row)
    requires NeverAdvancedPast(row.parts, read.open)
    ensures Inv(Advance(s, read, row, id).store) && FrozenKept(s, Advance(s, read, row, id).store)
  {
    assert PurchaseOk(s, id);
    AdvanceStep(s, read, row, id);
    AdvancedRow(s, read, row, id);
    StepBooks(s, Advance(s, read, row, id).store, PurchaseOwner(id));
    FlaggedNone(row.parts, row.total, read.open);
    AdvanceDebt(s, read, row, id);
  }

  /** An advance keeps the card's debt equal to what is billed exactly when it advances nothing a second time. */
  lemma AdvanceConservesIff(s: Store, read: CardRow, row: Purchase, id: string)
    requires Inv(s)
    requires Advance(s, read, row, id).Committed? && FreshRow(s, id, row)
    ensures Conserved(Advance(s, read, row, id).store) <==> NeverAdvancedPast(row.parts, read.open)
  {
    assert PurchaseOk(s, id);
    FlaggedNone(row.parts, row.total, read.open);
    AdvanceDebt(s, read, row, id);
  }

  // ---- refunding and editing ----

  function NoPart(): Part -> bool { (p: Part) => false }

  /** What a refund leaves of a purchase's items: those already billed, and the credit for them. */
  function RefundLeft(id: string, parts: seq<Part>, open: Month): map<ItemKey, Cents> {
    var left, credit := PlanItems(id, Filter(parts, Billed(open))), SumParts(parts, Billed(open));
    if credit > 0 then left[RefundKey(id, open) := -credit] else left
  }

  /** A refund deletes exactly the items of the parts not yet billed. */
  lemma RefundDeletesUnbilled(id: string, parts: seq<Part>, total: Cents, open: Month, i: int)
    requires PlanOk(parts, total) && 0 <= i < |parts|
    ensures KeyOf(id, parts[i]) in RefundDeletes(id, parts, open) <==> parts[i].month >= open
  {
    FirstAdvancedFinds(parts, open);
    if parts[i].advanced && parts[i].month >= open {
      assert FirstAdvanced(parts, open).value == parts[i].month;
    }
  }

  lemma RefundDeletesOwn(id: string, parts: seq<Part>, open: Month)
    ensures forall k :: k in RefundDeletes(id, parts, open) ==> k.owner == PurchaseOwner(id) && k.month >= open
  {
    FirstAdvancedFinds(parts, open);
  }

  lemma RefundKept(id: string, parts: seq<Part>, total: Cents, open: Month)
    requires PlanOk(parts, total)
    ensures PlanItems(id, parts) - RefundDeletes(id, parts, open) == PlanItems(id, Filter(parts, Billed(open)))
  {
    var gone := RefundDeletes(id, parts, open);
    forall i | 0 <= i < |parts| ensures KeyOf(id, parts[i]) in gone <==> !Billed(open)(parts[i]) {
      RefundDeletesUnbilled(id, parts, total, open, i);
    }
    DeleteParts(id, parts, gone, Billed(open));
  }

  lemma RefundItems(items: map<ItemKey, Cents>, id: string, parts: seq<Part>, total: Cents, open: Month)
    requires Own(items, PurchaseOwner(id)) == PlanItems(id, parts) && PlanOk(parts, total)
    ensures OnlyFrom(items, RefundedItems(items, id, parts, open), PurchaseOwner(id), open)
    ensures Own(RefundedItems(items, id, parts, open), PurchaseOwner(id)) == RefundLeft(id, parts, open)
  {
    RefundKept(id, parts, total, open);
    RefundDeletesOwn(id, parts, open);
    OwnAfter(items, PurchaseOwner(id), RefundDeletes(id, parts, open), RefundKey(id, open), -SumParts(parts, Billed(open)));
  }

  /** A refunded purchase's items sum to zero, and from the open month on they fall by the whole total. */
  lemma RefundSums(id: string, parts: seq<Part>, total: Cents, open: Month)
    requires PlanOk(parts, total)
    ensures SumWhere(RefundLeft(id, parts, open), OwnedBy(PurchaseOwner(id))) == 0
    ensures SumWhere(RefundLeft(id, parts, open), Since(open)) == SumWhere(PlanItems(id, parts), Since(open)) - total
  {
    SumPartsZero(parts, Billed(open));
    BilledSums(id, parts, open);
    CreditSum(id, parts, open, Since(open));
    CreditSum(id, parts, open, OwnedBy(PurchaseOwner(id)));
    PlanSum(id, parts, Since(open), AtOrAfter(open));
    SumPartsSplit(parts, AnyPart(), Billed(open), AtOrAfter(open));
  }

  lemma RefundKeyApart(id: string, parts: seq<Part>, open: Month)
    ensures RefundKey(id, open) !in PlanItems(id, parts)
  {
    PlanKeys(id, parts, RefundKey(id, open));
  }

  /** The refund's credit on top of what was billed, under any selection of the month. */
  lemma CreditSum(id: string, parts: seq<Part>, open: Month, q: ItemKey -> bool)
    requires q(RefundKey(id, open)) && SumParts(parts, Billed(open)) >= 0
    ensures SumWhere(RefundLeft(id, parts, open), q) == SumWhere(PlanItems(id, Filter(parts, Billed(open))), q) - SumParts(parts, Billed(open))
  {
    RefundKeyApart(id, Filter(parts, Billed(open)), open);
    if SumParts(parts, Billed(open)) > 0 {
      CreditPut(PlanItems(id, Filter(parts, Billed(open))), RefundKey(id, open), SumParts(parts, Billed(open)), q);
    }
  }

  lemma CreditPut(left: map<ItemKey, Cents>, k: ItemKey, credit: Cents, q: ItemKey -> bool)
    requires k !in left && q(k) && credit > 0
    ensures SumWhere(left[k := -credit], q) == SumWhere(left, q) - credit
  {
    SumAdd(left, q, k, -credit);
  }

  /** The items already billed: all of them the purchase's, none from the open month on. */
  lemma BilledSums(id: string, parts: seq<Part>, open: Month)
    ensures var left := PlanItems(id, Filter(parts, Billed(open)));
            && SumWhere(left, Since(open)) == 0
            && SumWhere(left, OwnedBy(PurchaseOwner(id))) == SumParts(parts, Billed(open))
  {
    var billed := Filter(parts, Billed(open));
    forall i | 0 <= i < |billed| ensures billed[i].month < open {
      FilterMember(parts, Billed(open), i);
    }
    PlanSum(id, billed, Since(open), NoPart());
    FilterSum(parts, Billed(open), NoPart(), NoPart());
    SumPartsNone(parts);
    PlanSum(id, billed, OwnedBy(PurchaseOwner(id)), AnyPart());
    FilterSum(parts, Billed(open), AnyPart(), Billed(open));
  }

  lemma {:induction false} SumPartsNone(parts: seq<Part>)
    ensures SumParts(parts, NoPart()) == 0
  {
    if parts != [] {
      SumPartsNone(parts[..|parts| - 1]);
    }
  }

  lemma OwnSum(items: map<ItemKey, Cents>, o: Owner)
    ensures SumWhere(items, OwnedBy(o)) == SumWhere(Own(items, o), OwnedBy(o))
  {
    OwnerSplit(items, o, OwnedBy(o));
    SumNone(Rest(items, o), OwnedBy(o));
  }

  lemma RefundStep(s: Store, read: CardRow, row: Purchase, id: string, date: Date)
    requires Markers(s) && History(s) && Owners(s)
    requires Refund(s, read, row, id, date).Committed? && FreshRow(s, id, row) && PurchaseOk(s, id)
    ensures var t := Refund(s, read, row, id, date).store;
            && ItemStep(s, t, PurchaseOwner(id))
            && Own(t.items, PurchaseOwner(id)) == RefundLeft(id, row.parts, s.card.open)
  {
    RefundItems(s.items, id, row.parts, row.total, s.card.open);
  }

  lemma RefundedRow(s: Store, t: Store, id: string)
    requires id in s.purchases && PurchaseOk(s, id) && s.log <= t.log && CardOf(s) == CardOf(t)
    requires id in t.purchases && t.purchases[id] == s.purchases[id].(refunded := true)
    requires Own(t.items, PurchaseOwner(id)) == RefundLeft(id, s.purchases[id].parts, s.card.open)
    ensures PurchaseOk(t, id)
  {
    RefundSums(id, s.purchases[id].parts, s.purchases[id].total, s.card.open);
    OwnSum(t.items, PurchaseOwner(id));
  }

  lemma RefundDebt(s: Store, read: CardRow, row: Purchase, id: string, date: Date)
    requires Refund(s, read, row, id, date).Committed? && FreshRow(s, id, row) && PurchaseOk(s, id)
    ensures Debt(Refund(s, read, row, id, date).store) == Debt(s) - row.total
  {
    ReverseUndoes(s.log[row.tx], row.tx, date);
    Append(s.log, Reverse(s.log[row.tx], row.tx, date).value, CardOf(s));
  }

  lemma RefundKeeps(s: Store, read: CardRow, row: Purchase, id: string, date: Date)
    requires Inv(s)
    requires Refund(s, read, row, id, date).Committed? && FreshRow(s, id, row)
    ensures Inv(Refund(s, read, row, id, date).store) && FrozenKept(s, Refund(s, read, row, id, date).store)
  {
    var t, o := Refund(s, read, row, id, date).store, PurchaseOwner(id);
    assert PurchaseOk(s, id);
    RefundStep(s, read, row, id, date);
    RefundedRow(s, t, id);
    RefundDebt(s, read, row, id, date);
    RefundSums(id, row.parts, row.total, s.card.open);
    StepBooks(s, t, o);
    StepConserves(s, t, o);
  }

  lemma EditStep(s: Store, row: Purchase, id: string, category: Account)
    requires Markers(s) && History(s) && Owners(s)
    requires EditPurchase(s, row, id, category).Committed? && FreshRow(s, id, row) && PurchaseOk(s, id)
    ensures var t := EditPurchase(s, row, id, category).store;
            ItemStep(s, t, PurchaseOwner(id)) && PurchaseOk(t, id) && t.items == s.items
  {
    EditItems(s, row, id, category);
    EditRow(s, row, id, category);
  }

  lemma EditItems(s: Store, row: Purchase, id: string, category: Account)
    requires Markers(s) && History(s) && Owners(s)
    requires EditPurchase(s, row, id, category).Committed? && FreshRow(s, id, row)
    ensures var t := EditPurchase(s, row, id, category).store;
            ItemStep(s, t, PurchaseOwner(id)) && t.items == s.items
  {
  }

  lemma EditRow(s: Store, row: Purchase, id: string, category: Account)
    requires EditPurchase(s, row, id, category).Committed? && FreshRow(s, id, row) && PurchaseOk(s, id) && Markers(s)
    ensures id in EditPurchase(s, row, id, category).store.purchases
    ensures PurchaseOk(EditPurchase(s, row, id, category).store, id)
  {
    if category != row.category {
      CardNets(CardOf(s), category, row.total, row.date);
      RecategorizedRow(s, id, category, row.tx, Reverse(s.log[row.tx], row.tx, row.date).value, CardPurchase(CardOf(s), category, row.total, row.date).value);
    }
  }

  lemma RecategorizedRow(s: Store, id: string, category: Account, was: TxId, rev: Tx, tx: Tx)
    requires id in s.purchases && PurchaseOk(s, id) && !s.purchases[id].refunded && Markers(s) && was < |s.log|
    requires ValidLegs(tx.legs) && tx.kind == CardBuy && Net(tx, CardOf(s)) == -s.purchases[id].total && Net(tx, category) == s.purchases[id].total
    requires Between(tx, CardOf(s), category)
    ensures PurchaseOk(Recategorized(s, id, category, was, rev, tx), id)
  {
  }

  lemma EditDebt(s: Store, row: Purchase, id: string, category: Account)
    requires EditPurchase(s, row, id, category).Committed? && FreshRow(s, id, row) && PurchaseOk(s, id)
    ensures Debt(EditPurchase(s, row, id, category).store) == Debt(s)
  {
    if category != row.category {
      var tx := CardPurchase(CardOf(s), category, row.total, row.date).value;
      var rev := Reverse(s.log[row.tx], row.tx, row.date).value;
      CardNets(CardOf(s), category, row.total, row.date);
      ReverseUndoes(s.log[row.tx], row.tx, row.date);
      Append(s.log, rev, CardOf(s));
      Append(s.log + [rev], tx, CardOf(s));
      assert s.log + [rev] + [tx] == s.log + [rev, tx];
    }
  }

  lemma EditKeeps(s: Store, row: Purchase, id: string, category: Account)
    requires Inv(s)
    requires EditPurchase(s, row, id, category).Committed? && FreshRow(s, id, row)
    ensures Inv(EditPurchase(s, row, id, category).store) && FrozenKept(s, EditPurchase(s, row, id, category).store)
  {
    var t := EditPurchase(s, row, id, category).store;
    assert PurchaseOk(s, id);
    EditStep(s, row, id, category);
    EditDebt(s, row, id, category);
    StepBooks(s, t, PurchaseOwner(id));
    StepConserves(s, t, PurchaseOwner(id));
  }

  // ---- closing and reopening ----

  /** Purchases stand when only carried credits and the card's own row changed. */
  lemma CarryStep(s: Store, t: Store)
    requires Purchases(s) && Owners(s) && Apart(s) && Markers(s)
    requires OnlyFrom(s.items, t.items, CarryOwner, s.card.first)
    requires forall k :: k in t.items && k.owner == CarryOwner ==> k.month >= s.card.first
    requires t.purchases == s.purchases && t.log == s.log && t.reversed == s.reversed
    requires t.card.first == s.card.first && t.card.id == s.card.id
    ensures Purchases(t) && Owners(t) && Markers(t)
  {
    forall x | x in t.purchases ensures PurchaseOk(t, x) {
      assert PurchaseOk(s, x);
      if s.purchases[x].refunded {
        OtherOwnerSum(s.items, t.items, CarryOwner, s.card.first, PurchaseOwner(x));
      } else {
        OtherOwner(s.items, t.items, CarryOwner, s.card.first, PurchaseOwner(x));
      }
    }
  }

  /** The conditions a close commits under, with the total its items sum to. */
  ghost predicate Closable(s: Store, k: BillKey, bill: StatementBill) {
    && s.card.open == k.month && s.card.version == k.version && k.month !in s.frozen
    && bill.amount == SumWhere(s.items, On(k.month)) && bill.status == Forecast && bill.txs == []
    && (bill.amount > 0 ==> k !in s.bills) && (bill.amount < 0 ==> CarryKey(k.month) !in s.items)
  }

  lemma CloseMonth(s: Store, k: BillKey, bill: StatementBill, x: Month)
    requires History(s) && Closable(s, k, bill)
    requires x in s.frozen ==> FrozenOk(s, x)
    requires x in Closed(s, k.month, k, bill).frozen
    ensures FrozenOk(Closed(s, k.month, k, bill), x)
  {
    SumSame(s.items, Closed(s, k.month, k, bill).items, On(x));
  }

  lemma CloseCarries(s: Store, k: BillKey, bill: StatementBill)
    requires History(s) && Carries(s) && Closable(s, k, bill)
    ensures Carries(Closed(s, k.month, k, bill))
  {
  }

  lemma CloseBill(s: Store, k: BillKey, bill: StatementBill, j: BillKey)
    requires History(s) && Closable(s, k, bill)
    requires j in s.bills ==> BillOk(s, j)
    requires j in Closed(s, k.month, k, bill).bills
    ensures BillOk(Closed(s, k.month, k, bill), j)
  {
  }

  lemma CloseApart(s: Store, k: BillKey, bill: StatementBill)
    requires Apart(s) && Closable(s, k, bill)
    ensures Apart(Closed(s, k.month, k, bill))
  {
  }

  lemma CloseOutstanding(s: Store, k: BillKey, bill: StatementBill)
    requires Closable(s, k, bill)
    ensures var t := Closed(s, k.month, k, bill);
            Outstanding(t) == (if bill.amount > 0 then Outstanding(s)[k := bill.amount] else Outstanding(s))
  {
    var t := Closed(s, k.month, k, bill);
    forall j | j in s.bills ensures Names(t, j) && j != k <==> Names(s, j) && j != k {
    }
  }

  lemma MonthSplit(items: map<ItemKey, Cents>, m: Month)
    ensures SumWhere(items, Since(m)) == SumWhere(items, On(m)) + SumWhere(items, Since(m + 1))
  {
    SumSplit(items, Since(m), On(m), Since(m + 1));
  }

  lemma CloseSums(s: Store, k: BillKey, bill: StatementBill)
    requires Closable(s, k, bill)
    ensures Unbilled(Closed(s, k.month, k, bill)) == Unbilled(s) - (if bill.amount > 0 then bill.amount else 0)
  {
    var m := k.month;
    MonthSplit(s.items, m);
    if bill.amount < 0 {
      SumPut(s.items, Since(m + 1), CarryKey(m), bill.amount);
    }
  }

  lemma ClosedBooks(s: Store, k: BillKey, bill: StatementBill)
    requires Books(s) && Closable(s, k, bill)
    ensures Books(Closed(s, k.month, k, bill)) && FrozenKept(s, Closed(s, k.month, k, bill))
  {
    var t := Closed(s, k.month, k, bill);
    forall x | x in t.frozen ensures FrozenOk(t, x) {
      CloseMonth(s, k, bill, x);
    }
    CloseCarries(s, k, bill);
    forall j | j in t.bills ensures BillOk(t, j) {
      CloseBill(s, k, bill, j);
    }
    CloseApart(s, k, bill);
    CloseRest(s, k, bill);
  }

  lemma CloseRest(s: Store, k: BillKey, bill: StatementBill)
    requires History(s) && Purchases(s) && Owners(s) && Apart(s) && Markers(s) && Closable(s, k, bill)
    ensures var t := Closed(s, k.month, k, bill);
            History(t) && Purchases(t) && Owners(t) && Markers(t)
  {
    ClosedHistory(s, k, bill);
    ClosedItems(s, k, bill);
    CarryStep(s, Closed(s, k.month, k, bill));
  }

  lemma ClosedHistory(s: Store, k: BillKey, bill: StatementBill)
    requires History(s) && Closable(s, k, bill)
    ensures var t := Closed(s, k.month, k, bill);
            && History(t) && t.purchases == s.purchases && t.log == s.log && t.reversed == s.reversed
            && t.card.first == s.card.first && t.card.id == s.card.id
  {
  }

  lemma ClosedItems(s: Store, k: BillKey, bill: StatementBill)
    requires History(s) && Owners(s) && Closable(s, k, bill)
    ensures var t := Closed(s, k.month, k, bill);
            && OnlyFrom(s.items, t.items, CarryOwner, s.card.first)
            && forall j :: j in t.items && j.owner == CarryOwner ==> j.month >= s.card.first
  {
  }

  lemma ClosedConserves(s: Store, k: BillKey, bill: StatementBill)
    requires Conserved(s) && Closable(s, k, bill)
    requires k !in Outstanding(s)
    ensures Conserved(Closed(s, k.month, k, bill))
  {
    CloseOutstanding(s, k, bill);
    CloseSums(s, k, bill);
    SumAdd(Outstanding(s), AnyBill(), k, bill.amount);
  }

  lemma ClosedKeeps(s: Store, k: BillKey, bill: StatementBill)
    requires Inv(s) && Closable(s, k, bill)
    ensures Inv(Closed(s, k.month, k, bill)) && FrozenKept(s, Closed(s, k.month, k, bill))
  {
    assert k in s.bills ==> BillOk(s, k);
    ClosedBooks(s, k, bill);
    ClosedConserves(s, k, bill);
  }

  lemma CloseKeeps(s: Store, read: CardRow, total: Cents)
    requires Inv(s)
    requires Close(s, read, total).Committed? && total == StatementTotal(s, read.open)
    ensures Inv(Close(s, read, total).store) && FrozenKept(s, Close(s, read, total).store)
  {
    ClosedKeeps(s, BillKey(read.open, read.version),
                StatementBill(total, read.paying, DueDate(read.open, read.closingDay, read.dueDay), Forecast, []));
  }

  /** The conditions a reopening commits under. */
  ghost predicate Reopenable(s: Store, m: Month) {
    && m in s.frozen && s.card.open == m + 1
    && (s.frozen[m].bill.Some? ==> s.frozen[m].bill.value in s.bills && s.bills[s.frozen[m].bill.value].status == Forecast)
  }

  lemma ReopenMonth(s: Store, m: Month, x: Month)
    requires Reopenable(s, m) && FrozenOk(s, m)
    requires x in s.frozen && x != m && x < m && FrozenOk(s, x)
    ensures FrozenOk(Reopened(s, m, s.frozen[m]), x)
  {
    ReopenedItems(s, m, x);
  }

  /** Only the next month's carried credit may go. */
  lemma ReopenedItems(s: Store, m: Month, x: Month)
    requires Reopenable(s, m) && x < m
    ensures SumWhere(Reopened(s, m, s.frozen[m]).items, On(x)) == SumWhere(s.items, On(x))
  {
    SumSame(s.items, Reopened(s, m, s.frozen[m]).items, On(x));
  }

  lemma ReopenCarries(s: Store, m: Month)
    requires History(s) && Carries(s) && Reopenable(s, m) && FrozenOk(s, m)
    ensures Carries(Reopened(s, m, s.frozen[m]))
  {
  }

  lemma ReopenBill(s: Store, m: Month, j: BillKey)
    requires History(s) && Reopenable(s, m) && FrozenOk(s, m)
    requires j in s.bills && BillOk(s, j)
    ensures BillOk(Reopened(s, m, s.frozen[m]), j)
  {
  }

  lemma ReopenOwed(s: Store, m: Month, k: BillKey)
    requires Reopenable(s, m) && FrozenOk(s, m) && (k in s.bills ==> BillOk(s, k))
    ensures var t := Reopened(s, m, s.frozen[m]);
            && (k in Outstanding(t) <==> k in Outstanding(s) && s.frozen[m].bill != Some(k))
            && (k in Outstanding(t) ==> Outstanding(t)[k] == Outstanding(s)[k])
  {
  }

  lemma OwedWithout(a: map<BillKey, Cents>, b: map<BillKey, Cents>, gone: Option<BillKey>)
    requires forall k :: k in b <==> k in a && gone != Some(k)
    requires forall k :: k in b ==> b[k] == a[k]
    ensures b == (if gone.Some? then a - {gone.value} else a)
  {
  }

  lemma ReopenOutstanding(s: Store, m: Month)
    requires Bills(s) && Reopenable(s, m) && FrozenOk(s, m)
    ensures var t, f := Reopened(s, m, s.frozen[m]), s.frozen[m];
            Outstanding(t) == (if f.bill.Some? then Outstanding(s) - {f.bill.value} else Outstanding(s))
  {
    var a, b := Outstanding(s), Outstanding(Reopened(s, m, s.frozen[m]));
    forall k
      ensures k in b <==> k in a && s.frozen[m].bill != Some(k)
      ensures k in b ==> b[k] == a[k]
    {
      assert k in s.bills ==> BillOk(s, k);
      ReopenOwed(s, m, k);
    }
    OwedWithout(a, b, s.frozen[m].bill);
  }

  lemma ReopenSums(s: Store, m: Month)
    requires Carries(s) && Reopenable(s, m) && FrozenOk(s, m)
    ensures Unbilled(Reopened(s, m, s.frozen[m])) == Unbilled(s) + (if s.frozen[m].bill.Some? then s.frozen[m].total else 0)
  {
    var t, f := Reopened(s, m, s.frozen[m]), s.frozen[m];
    MonthSplit(t.items, m);
    SumSame(s.items, t.items, On(m));
    if f.total < 0 {
      SumTake(s.items, Since(m + 1), CarryKey(m));
    }
  }

  lemma ReopenedBooks(s: Store, m: Month)
    requires Books(s) && Reopenable(s, m)
    ensures Books(Reopened(s, m, s.frozen[m])) && FrozenKept(s, Reopened(s, m, s.frozen[m]))
  {
    var t := Reopened(s, m, s.frozen[m]);
    assert FrozenOk(s, m);
    forall x | x in t.frozen ensures FrozenOk(t, x) {
      assert FrozenOk(s, x);
      ReopenMonth(s, m, x);
    }
    ReopenCarries(s, m);
    forall j | j in t.bills ensures BillOk(t, j) {
      assert BillOk(s, j);
      ReopenBill(s, m, j);
    }
    ReopenRest(s, m);
  }

  lemma ReopenRest(s: Store, m: Month)
    requires History(s) && Purchases(s) && Owners(s) && Apart(s) && Markers(s) && Reopenable(s, m)
    ensures var t := Reopened(s, m, s.frozen[m]);
            History(t) && Purchases(t) && Owners(t) && Markers(t) && Apart(t)
  {
    ReopenedItemsOnly(s, m);
    ReopenedHistory(s, m);
    CarryStep(s, Reopened(s, m, s.frozen[m]));
  }

  lemma ReopenedHistory(s: Store, m: Month)
    requires History(s) && Apart(s) && Reopenable(s, m)
    ensures var t := Reopened(s, m, s.frozen[m]);
            && History(t) && Apart(t) && t.purchases == s.purchases && t.log == s.log && t.reversed == s.reversed
            && t.card.first == s.card.first && t.card.id == s.card.id
  {
  }

  lemma ReopenedItemsOnly(s: Store, m: Month)
    requires History(s) && Owners(s) && Reopenable(s, m)
    ensures var t := Reopened(s, m, s.frozen[m]);
            && OnlyFrom(s.items, t.items, CarryOwner, s.card.first)
            && forall j :: j in t.items && j.owner == CarryOwner ==> j.month >= s.card.first
  {
  }

  lemma ReopenedConserves(s: Store, m: Month)
    requires Conserved(s) && Bills(s) && Carries(s) && Reopenable(s, m) && FrozenOk(s, m)
    ensures Conserved(Reopened(s, m, s.frozen[m]))
  {
    ReopenOutstanding(s, m);
    ReopenSums(s, m);
    if s.frozen[m].bill.Some? {
      SumTake(Outstanding(s), AnyBill(), s.frozen[m].bill.value);
    }
  }

  lemma ReopenedKeeps(s: Store, m: Month)
    requires Inv(s) && Reopenable(s, m)
    ensures Inv(Reopened(s, m, s.frozen[m])) && FrozenKept(s, Reopened(s, m, s.frozen[m]))
  {
    assert FrozenOk(s, m);
    ReopenedBooks(s, m);
    ReopenedConserves(s, m);
  }

  lemma ReopenKeeps(s: Store, read: CardRow, row: Option<Frozen>, bill: Option<StatementBill>, m: Month)
    requires Inv(s)
    requires Reopen(s, read, row, bill, m).Committed? && m in s.frozen && row == Some(s.frozen[m])
    ensures Inv(Reopen(s, read, row, bill, m).store) && FrozenKept(s, Reopen(s, read, row, bill, m).store)
  {
    assert FrozenOk(s, m);
    ReopenedKeeps(s, m);
  }
}
