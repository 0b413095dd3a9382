/**
 Where each card operation puts things: the statement every item lands on, the accounts its posting moves, the bill a close
 makes, and when the operation commits at all.
 */
module CardMoves {
  import opened Calendar
  import opened Installments
  import opened Ledger
  import opened Sums
  import opened CardModel
  import opened CardPlans
  import opened CardInvariant

  /** What account a gained from s to t. */
  function Gained(s: Store, t: Store, a: Account): Cents { Balance(t.log, a) - Balance(s.log, a) }

  /** The month a day's purchase is first billed on when its period is m's: that one, or the open one if it has closed. */
  function FirstMonth(m: Month, open: Month): Month { if m < open then open else m }

  /** The item of the i-th installment (from 0) of a purchase first billed on a month. */
  function PartKey(id: string, first: Month, i: int): ItemKey
    requires i >= 0
  {
    ItemKey(first + i, PurchaseOwner(id), PartTag(i + 1))
  }

  // ---- purchases ----

  /** A plan whose parts have different keys names each part with its own amount. */
  lemma {:induction false} PlanAt(id: string, parts: seq<Part>, i: int)
    requires 0 <= i < |parts|
    requires forall j :: 0 <= j < |parts| && j != i ==> KeyOf(id, parts[j]) != KeyOf(id, parts[i])
    ensures KeyOf(id, parts[i]) in PlanItems(id, parts) && PlanItems(id, parts)[KeyOf(id, parts[i])] == parts[i].amount
  {
    var m := |parts| - 1;
    var init := parts[..m];
    if i < m {
      forall j | 0 <= j < |init| && j != i ensures KeyOf(id, init[j]) != KeyOf(id, init[i]) {
        assert init[j] == parts[j];
      }
      PlanAt(id, init, i);
    } else {
      PlanKeys(id, init, KeyOf(id, parts[i]));
    }
  }

  /** n parts billed on consecutive months from first, equal but for the first, which carries what is left of the total. */
  ghost predicate Lands(items: map<ItemKey, Cents>, id: string, first: Month, n: int, total: Cents) {
    && n >= 1
    && (forall k :: k in items <==> exists i :: 0 <= i < n && k == PartKey(id, first, i))
    && (forall i :: 1 <= i < n ==> items[PartKey(id, first, i)] == items[PartKey(id, first, n - 1)])
    && items[PartKey(id, first, 0)] == total - (n - 1) * items[PartKey(id, first, n - 1)]
    && items[PartKey(id, first, n - 1)] <= items[PartKey(id, first, 0)] < items[PartKey(id, first, n - 1)] + n
  }

  lemma PlanLands(id: string, total: Cents, n: int, date: Date, closingDay: int, open: Month, m: Month)
    requires ValidDate(date) && PlaceInstallments(total, n, date, closingDay, open).Some? && InPeriod(date, m, closingDay)
    ensures Lands(PlanItems(id, FreshParts(PlaceInstallments(total, n, date, closingDay, open).value)), id, FirstMonth(m, open), n, total)
  {
    PlacedInItsPeriod(total, n, date, closingDay, open, m);
    var plan := PlaceInstallments(total, n, date, closingDay, open).value;
    var parts, first := FreshParts(plan), FirstMonth(m, open);
    forall i | 0 <= i < n
      ensures KeyOf(id, parts[i]) == PartKey(id, first, i)
      ensures PartKey(id, first, i) in PlanItems(id, parts) && PlanItems(id, parts)[PartKey(id, first, i)] == plan[i].amount
    {
      forall j | 0 <= j < |parts| && j != i ensures KeyOf(id, parts[j]) != KeyOf(id, parts[i]) {
        assert parts[j].month == first + j && parts[i].month == first + i;
      }
      PlanAt(id, parts, i);
    }
    forall k ensures k in PlanItems(id, parts) <==> exists i :: 0 <= i < n && k == PartKey(id, first, i) {
      PlanKeys(id, parts, k);
      if exists i :: 0 <= i < |parts| && KeyOf(id, parts[i]) == k {
        var i :| 0 <= i < |parts| && KeyOf(id, parts[i]) == k;
        assert k == PartKey(id, first, i);
      }
    }
  }

  /**
   The items a purchase stores: one for each installment, on the statements from the one whose period holds its day (or the
   open one, if that has closed), and every other item as before.
   */
  lemma BuyLands(s: Store, read: CardRow, id: string, total: Cents, n: int, date: Date, category: Account, m: Month)
    requires Buy(s, read, id, total, n, date, category).Committed? && ValidDate(date) && InPeriod(date, m, read.closingDay)
    ensures var t := Buy(s, read, id, total, n, date, category).store;
            && (forall k :: k in s.items ==> k in t.items && t.items[k] == s.items[k])
            && Lands(t.items - s.items.Keys, id, FirstMonth(m, s.card.open), n, total)
  {
    var plan := PlaceInstallments(total, n, date, read.closingDay, read.open).value;
    var added := PlanItems(id, FreshParts(plan));
    PlanLands(id, total, n, date, read.closingDay, read.open, m);
    AddedApart(s.items, added);
  }

  lemma AddedApart(items: map<ItemKey, Cents>, added: map<ItemKey, Cents>)
    requires added.Keys * items.Keys == {}
    ensures (items + added) - items.Keys == added
    ensures forall k :: k in items ==> k in items + added && (items + added)[k] == items[k]
  {
    forall k | k in items ensures k !in added {
      assert k in added ==> k in added.Keys * items.Keys;
    }
    forall k | k in added ensures k !in items {
      assert k in items ==> k in added.Keys * items.Keys;
    }
  }

  /** A purchase puts its total on its category against the card, moves no other account, and records what was asked. */
  lemma BuyMoves(s: Store, read: CardRow, id: string, total: Cents, n: int, date: Date, category: Account, a: Account)
    requires Buy(s, read, id, total, n, date, category).Committed?
    ensures var t := Buy(s, read, id, total, n, date, category).store;
            && Posts(s.log, t.log, CardBuy, date) && Gained(s, t, a) == AtAccount(a, category, total) - AtAccount(a, CardOf(s), total)
            && id in t.purchases && t.purchases - {id} == s.purchases - {id}
            && t.purchases[id].total == total && t.purchases[id].category == category && t.purchases[id].date == date && !t.purchases[id].refunded
            && t.card == s.card.(version := s.card.version + 1) && t.frozen == s.frozen && t.bills == s.bills
  {
    CardNetsEach(CardOf(s), category, total, date, a);
    Append(s.log, CardPurchase(CardOf(s), category, total, date).value, a);
  }

  predicate Expense(a: Account) { a.Category? && a.expense }

  lemma PurchasePosts(card: Account, category: Account, total: Cents, date: Date)
    requires card.CardAccount? && Expense(category)
    ensures CardPurchase(card, category, total, date).Some? <==> 0 < total <= MAX_LEG_AMOUNT
    ensures CardCredit(card, category, total, date).Some? <==> 0 < total <= MAX_LEG_AMOUNT
  {
    NetTwo(Leg(category, total), Leg(card, -total), card);
    NetTwo(Leg(category, -total), Leg(card, total), card);
    var legs := [Leg(category, total), Leg(card, -total)];
    var back := [Leg(category, -total), Leg(card, total)];
    assert legs[0].amount == total && back[1].amount == total;
  }

  /** On a card whose items are owned by recorded purchases, a purchase commits if and only if it is well formed, new, and the open month has not moved. */
  lemma BuyCommitsIff(s: Store, read: CardRow, id: string, total: Cents, n: int, date: Date, category: Account)
    requires Owners(s)
    ensures Buy(s, read, id, total, n, date, category).Committed? <==>
            && !read.archived && Expense(category) && 1 <= read.closingDay <= 31
            && 1 <= n <= MAX_INSTALLMENTS && n <= total <= MAX_LEG_AMOUNT
            && read.open == s.card.open && id !in s.purchases
  {
    if Expense(category) {
      PurchasePosts(CardOf(s), category, total, date);
    }
    var plan := PlaceInstallments(total, n, date, read.closingDay, read.open);
    if plan.Some? && id !in s.purchases {
      PartsKeys(id, FreshParts(plan.value));
      assert PlanItems(id, FreshParts(plan.value)).Keys * s.items.Keys == {};
    }
  }

  // ---- credits ----

  /** A credit is one item on the open statement, lowering it by the amount; every other item stays. */
  lemma CreditLands(s: Store, read: CardRow, id: string, amount: Cents, date: Date, category: Account)
    requires Credit(s, read, id, amount, date, category).Committed?
    ensures var t, k := Credit(s, read, id, amount, date, category).store, CreditKey(id, s.card.open);
            && k.month == s.card.open && k !in s.items && t.items == s.items[k := -amount]
            && SumWhere(t.items, On(s.card.open)) == SumWhere(s.items, On(s.card.open)) - amount
  {
    SumAdd(s.items, On(s.card.open), CreditKey(id, s.card.open), -amount);
  }

  /** The card gains what was credited, the category gives it, and no other account moves. */
  lemma CreditMoves(s: Store, read: CardRow, id: string, amount: Cents, date: Date, category: Account, a: Account)
    requires Credit(s, read, id, amount, date, category).Committed?
    ensures var t := Credit(s, read, id, amount, date, category).store;
            Posts(s.log, t.log, Adjustment, date) && Gained(s, t, a) == AtAccount(a, CardOf(s), amount) - AtAccount(a, category, amount)
  {
    CardNetsEach(CardOf(s), category, amount, date, a);
    Append(s.log, CardCredit(CardOf(s), category, amount, date).value, a);
  }

  lemma CreditCommitsIff(s: Store, read: CardRow, id: string, amount: Cents, date: Date, category: Account)
    ensures Credit(s, read, id, amount, date, category).Committed? <==>
            && !read.archived && Expense(category) && 0 < amount <= MAX_LEG_AMOUNT
            && read.open == s.card.open && CreditKey(id, s.card.open) !in s.items
  {
    if Expense(category) {
      PurchasePosts(CardOf(s), category, amount, date);
    }
  }

  // ---- advancing ----

  function Later(open: Month): ItemKey -> bool { (k: ItemKey) => k.month > open }

  function AtOpen(open: Month): Part -> bool { (p: Part) => p.month == open }

  /** The plan's parts past the open month are now on it; numbers, amounts and earlier parts stay. */
  lemma AdvanceReplans(s: Store, read: CardRow, row: Purchase, id: string)
    requires Advance(s, read, row, id).Committed?
    ensures var t, open := Advance(s, read, row, id).store, s.card.open;
            && t.log == s.log && id in t.purchases && |t.purchases[id].parts| == |row.parts|
            && forall i :: 0 <= i < |row.parts| ==>
                 && t.purchases[id].parts[i].number == row.parts[i].number && t.purchases[id].parts[i].amount == row.parts[i].amount
                 && t.purchases[id].parts[i].month == Min(row.parts[i].month, open)
  {
  }

  /**
   An advance of a plan not advanced before empties the purchase's later statements onto the open one, and no other item
   changes.
   */
  lemma AdvanceLands(s: Store, read: CardRow, row: Purchase, id: string)
    requires Books(s) && Advance(s, read, row, id).Committed? && FreshRow(s, id, row) && NeverAdvancedPast(row.parts, s.card.open)
    ensures var t, own, open := Advance(s, read, row, id).store, PurchaseOwner(id), s.card.open;
            && Rest(t.items, own) == Rest(s.items, own)
            && (forall k :: k in t.items && k.owner == own ==> k.month <= open)
            && SumWhere(t.items, On(open)) == SumWhere(s.items, On(open)) + SumWhere(Own(s.items, own), Later(open))
  {
    AdvanceOwn(s, read, row, id);
    EmptiedOnto(s.items, Advance(s, read, row, id).store.items, id, row.parts, s.card.open);
  }

  lemma AdvanceOwn(s: Store, read: CardRow, row: Purchase, id: string)
    requires Books(s) && Advance(s, read, row, id).Committed? && FreshRow(s, id, row) && NeverAdvancedPast(row.parts, s.card.open)
    ensures var t, own, open := Advance(s, read, row, id).store, PurchaseOwner(id), s.card.open;
            && Rest(t.items, own) == Rest(s.items, own) && Own(s.items, own) == PlanItems(id, row.parts)
            && Own(t.items, own) == PlanItems(id, AdvancedParts(row.parts, open))
  {
    assert PurchaseOk(s, id);
    AdvanceStep(s, read, row, id);
    AdvancedRow(s, read, row, id);
    RestSame(s.items, Advance(s, read, row, id).store.items, PurchaseOwner(id), s.card.open);
  }

  lemma EmptiedOnto(before: map<ItemKey, Cents>, after: map<ItemKey, Cents>, id: string, parts: seq<Part>, open: Month)
    requires var own := PurchaseOwner(id);
             && Rest(after, own) == Rest(before, own) && Own(before, own) == PlanItems(id, parts)
             && Own(after, own) == PlanItems(id, AdvancedParts(parts, open))
    ensures forall k :: k in after && k.owner == PurchaseOwner(id) ==> k.month <= open
    ensures SumWhere(after, On(open)) == SumWhere(before, On(open)) + SumWhere(Own(before, PurchaseOwner(id)), Later(open))
  {
    AdvancedMonths(id, parts, open);
    forall k | k in after && k.owner == PurchaseOwner(id) ensures k.month <= open {
      assert k in Own(after, PurchaseOwner(id));
    }
    OwnerSwap(before, after, PurchaseOwner(id), On(open));
    AdvancedOnOpen(id, parts, open);
  }

  /** With the rows as they stand an advance commits if and only if the purchase stands and some part is past the open month. */
  lemma AdvanceCommitsIff(s: Store, id: string)
    requires Books(s) && id in s.purchases
    ensures var row := s.purchases[id];
            Advance(s, s.card, row, id).Committed? <==> !row.refunded && exists i :: 0 <= i < |row.parts| && row.parts[i].month > s.card.open
  {
    assert PurchaseOk(s, id);
    SomePast(s.purchases[id].parts, s.card.open);
    NotAdvancedHere(s, id);
  }

  lemma SomePast(parts: seq<Part>, open: Month)
    requires forall i :: 0 <= i < |parts| ==> parts[i].amount > 0
    ensures SumParts(parts, After(open)) != 0 <==> exists i :: 0 <= i < |parts| && parts[i].month > open
  {
    SumPartsZero(parts, After(open));
    assert (exists i :: 0 <= i < |parts| && parts[i].month > open) <==> exists i :: 0 <= i < |parts| && After(open)(parts[i]);
  }

  /** A plan with a part past the open month has no "adv" item on it. */
  lemma NotAdvancedHere(s: Store, id: string)
    requires id in s.purchases && PurchaseOk(s, id)
    ensures var parts := s.purchases[id].parts;
            !s.purchases[id].refunded && (exists i :: 0 <= i < |parts| && parts[i].month > s.card.open) ==> AdvKey(id, s.card.open) !in s.items
  {
    var row, k := s.purchases[id], AdvKey(id, s.card.open);
    if !row.refunded && k in s.items {
      assert k in Own(s.items, PurchaseOwner(id));
      PlanKeys(id, row.parts, k);
      var i :| 0 <= i < |row.parts| && KeyOf(id, row.parts[i]) == k;
      assert forall j :: 0 <= j < |row.parts| ==> row.parts[j].month <= row.parts[i].month;
    }
  }

  lemma AdvancedMonths(id: string, parts: seq<Part>, open: Month)
    ensures forall k :: k in PlanItems(id, AdvancedParts(parts, open)) ==> k.month <= open
  {
    PartsKeys(id, AdvancedParts(parts, open));
  }

  lemma AdvancedOnOpen(id: string, parts: seq<Part>, open: Month)
    ensures SumWhere(PlanItems(id, AdvancedParts(parts, open)), On(open))
         == SumWhere(PlanItems(id, parts), On(open)) + SumWhere(PlanItems(id, parts), Later(open))
  {
    PlanSum(id, parts, On(open), AtOpen(open));
    PlanSum(id, parts, Later(open), After(open));
    SumPartsSplit(parts, AtOrAfter(open), AtOpen(open), After(open));
    PlanSum(id, AdvancedParts(parts, open), On(open), AtOpen(open));
    SumPartsSame(parts, AdvancedParts(parts, open), AtOrAfter(open), AtOpen(open));
  }

  // ---- refunds and edits ----

  /**
   A refund takes the purchase's items off the open and later statements, credits what was billed on the open one, leaves the
   billed ones, and undoes the purchase's transaction on every account.
   */
  lemma RefundLands(s: Store, read: CardRow, row: Purchase, id: string, date: Date, k: ItemKey)
    requires Books(s) && Refund(s, read, row, id, date).Committed? && FreshRow(s, id, row)
    ensures var t, own, open := Refund(s, read, row, id, date).store, PurchaseOwner(id), s.card.open;
            && Rest(t.items, own) == Rest(s.items, own)
            && (k.month < open ==> (k in t.items <==> k in s.items) && (k in s.items ==> t.items[k] == s.items[k]))
            && (k.owner == own && k.month >= open && k in t.items ==> k == RefundKey(id, open))
            && SumWhere(Own(t.items, own), Since(open)) == SumWhere(Own(s.items, own), Since(open)) - row.total
            && SumWhere(Own(t.items, own), OwnedBy(own)) == 0
            && id in t.purchases && t.purchases[id] == row.(refunded := true)
  {
    var t, own, open := Refund(s, read, row, id, date).store, PurchaseOwner(id), s.card.open;
    assert PurchaseOk(s, id);
    RefundStep(s, read, row, id, date);
    RestSame(s.items, t.items, own, open);
    RefundSums(id, row.parts, row.total, open);
    LeftMonths(id, row.parts, open);
    assert k.owner == own && k in t.items ==> k in Own(t.items, own);
  }

  lemma LeftMonths(id: string, parts: seq<Part>, open: Month)
    ensures forall k :: k in RefundLeft(id, parts, open) && k.month >= open ==> k == RefundKey(id, open)
  {
    var billed := Filter(parts, Billed(open));
    PartsKeys(id, billed);
    forall i | 0 <= i < |billed| ensures billed[i].month < open {
      FilterMember(parts, Billed(open), i);
    }
  }

  /** A refund gives the card back the total its category had taken, and moves no other account. */
  lemma RefundMoves(s: Store, read: CardRow, row: Purchase, id: string, date: Date, a: Account)
    requires Books(s) && Refund(s, read, row, id, date).Committed? && FreshRow(s, id, row)
    ensures var t := Refund(s, read, row, id, date).store;
            && Posts(s.log, t.log, Reversal, date) && t.log[|s.log|].adjusts == Some(row.tx) && t.reversed == s.reversed + {row.tx}
            && Gained(s, t, a) == AtAccount(a, CardOf(s), row.total) - AtAccount(a, row.category, row.total)
  {
    PurchaseNets(s, id, a);
    NegateNets(s.log[row.tx].legs, a);
    Append(s.log, Reverse(s.log[row.tx], row.tx, date).value, a);
  }

  /** What a recorded purchase's own transaction moves. */
  lemma PurchaseNets(s: Store, id: string, a: Account)
    requires Books(s) && id in s.purchases
    ensures var p := s.purchases[id];
            && p.tx < |s.log| && ValidLegs(s.log[p.tx].legs) && s.log[p.tx].kind == CardBuy
            && Net(s.log[p.tx], a) == AtAccount(a, p.category, p.total) - AtAccount(a, CardOf(s), p.total)
            && PurchaseOk(s, id)
  {
    assert PurchaseOk(s, id);
    ApartAccounts(s.log[s.purchases[id].tx], CardOf(s), s.purchases[id].category, s.purchases[id].total);
    SumPartsZero(s.purchases[id].parts, AnyPart());
  }

  lemma ApartAccounts(tx: Tx, x: Account, y: Account, total: Cents)
    requires Net(tx, x) == -total && Net(tx, y) == total
    ensures x == y ==> total == 0
  {
  }

  /** A refund with the rows as they stand commits exactly when the purchase was not refunded before. */
  lemma RefundCommits(s: Store, id: string, date: Date)
    requires Books(s) && id in s.purchases
    ensures Refund(s, s.card, s.purchases[id], id, date).Committed? <==> !s.purchases[id].refunded
  {
    assert PurchaseOk(s, id);
    var row := s.purchases[id];
    ReverseUndoes(s.log[row.tx], row.tx, date);
    if !row.refunded {
      RefundKeyApart(id, row.parts, s.card.open);
      assert RefundKey(id, s.card.open) !in Own(s.items, PurchaseOwner(id));
    }
  }

  /** A new category takes the total from the old one; the card, every other account and every item stay. */
  lemma EditMoves(s: Store, row: Purchase, id: string, category: Account, a: Account)
    requires Books(s) && EditPurchase(s, row, id, category).Committed? && FreshRow(s, id, row)
    ensures Gained(s, EditPurchase(s, row, id, category).store, a) == AtAccount(a, category, row.total) - AtAccount(a, row.category, row.total)
  {
    PurchaseNets(s, id, a);
    if category != row.category {
      EditNets(s, row, id, category, a);
    }
  }

  /** The row an edit leaves, and the lines it relabels: every one the plan names is there. */
  lemma EditRecords(s: Store, row: Purchase, id: string, category: Account)
    requires EditPurchase(s, row, id, category).Committed? && FreshRow(s, id, row)
    ensures forall i :: 0 <= i < |row.parts| ==> KeyOf(id, row.parts[i]) in s.items
    ensures var t := EditPurchase(s, row, id, category).store;
            && t.items == s.items && t.card == s.card && t.frozen == s.frozen && t.bills == s.bills
            && id in t.purchases && t.purchases - {id} == s.purchases - {id}
            && (if category == row.category then t.log == s.log
                else |t.log| == |s.log| + 2 && Posts(s.log, t.log[..|s.log| + 1], Reversal, row.date) && Posts(t.log[..|s.log| + 1], t.log, CardBuy, row.date))
            && t.purchases[id] == row.(category := category, rev := row.rev + 1, tx := if category == row.category then row.tx else |s.log| + 1)
  {
  }

  lemma EditNets(s: Store, row: Purchase, id: string, category: Account, a: Account)
    requires EditPurchase(s, row, id, category).Committed? && category != row.category
    requires row.tx < |s.log| && ValidLegs(s.log[row.tx].legs) && s.log[row.tx].kind == CardBuy
    ensures Gained(s, EditPurchase(s, row, id, category).store, a)
         == AtAccount(a, category, row.total) - AtAccount(a, CardOf(s), row.total) - Net(s.log[row.tx], a)
  {
    var tx := CardPurchase(CardOf(s), category, row.total, row.date).value;
    var rev := Reverse(s.log[row.tx], row.tx, row.date).value;
    CardNetsEach(CardOf(s), category, row.total, row.date, a);
    ReverseUndoes(s.log[row.tx], row.tx, row.date);
    Append(s.log, rev, a);
    Append(s.log + [rev], tx, a);
    assert s.log + [rev] + [tx] == s.log + [rev, tx];
  }

  /** No account moves by more than one leg may. */
  lemma {:induction false} NetBound(legs: seq<Leg>, a: Account)
    requires forall i :: 0 <= i < |legs| ==> -MAX_LEG_AMOUNT <= legs[i].amount <= MAX_LEG_AMOUNT
    requires forall i, j :: 0 <= i < j < |legs| ==> legs[i].account != legs[j].account
    ensures -MAX_LEG_AMOUNT <= NetLegs(legs, a) <= MAX_LEG_AMOUNT
    ensures (forall i :: 0 <= i < |legs| ==> legs[i].account != a) ==> NetLegs(legs, a) == 0
  {
    if legs != [] {
      NetBound(legs[..|legs| - 1], a);
    }
  }

  /** An edit with the row as it stands commits if and only if the purchase was not refunded and the category takes expenses. */
  lemma EditCommitsIff(s: Store, id: string, category: Account)
    requires Books(s) && id in s.purchases
    ensures EditPurchase(s, s.purchases[id], id, category).Committed? <==>
            !s.purchases[id].refunded && (category == s.purchases[id].category || (Expense(category) && s.purchases[id].total > 0))
  {
    assert PurchaseOk(s, id);
    StandingEdit(s, id, category);
  }

  lemma StandingEdit(s: Store, id: string, category: Account)
    requires id in s.purchases && PurchaseOk(s, id)
    ensures EditPurchase(s, s.purchases[id], id, category).Committed? <==>
            !s.purchases[id].refunded && (category == s.purchases[id].category || (Expense(category) && s.purchases[id].total > 0))
  {
    var row := s.purchases[id];
    NetBound(s.log[row.tx].legs, CardOf(s));
    ReverseUndoes(s.log[row.tx], row.tx, row.date);
    if Expense(category) {
      PurchasePosts(CardOf(s), category, row.total, row.date);
    }
    if !row.refunded {
      LinesThere(s, id);
    }
  }

  lemma LinesThere(s: Store, id: string)
    requires id in s.purchases && PurchaseOk(s, id) && !s.purchases[id].refunded
    ensures var parts := s.purchases[id].parts;
            forall i :: 0 <= i < |parts| ==> KeyOf(id, parts[i]) in s.items
  {
    var parts := s.purchases[id].parts;
    forall i | 0 <= i < |parts| ensures KeyOf(id, parts[i]) in s.items {
      PlanKeys(id, parts, KeyOf(id, parts[i]));
      assert KeyOf(id, parts[i]) in Own(s.items, PurchaseOwner(id));
    }
  }

  // ---- closing ----

  /**
   Closing a month that owes makes one forecast bill of the total, paid from the account the card row names and due on its
   due day: the first one after the closing date. A negative month is carried onto the next; a null one makes neither.
   */
  lemma CloseMakes(s: Store, read: CardRow, total: Cents)
    requires Close(s, read, total).Committed?
    ensures var t, m, k := Close(s, read, total).store, s.card.open, BillKey(s.card.open, s.card.version);
            && t.card == s.card.(open := m + 1) && t.log == s.log && t.purchases == s.purchases
            && m !in s.frozen && t.frozen == s.frozen[m := Frozen(total, if total > 0 then Some(k) else None)]
            && (total > 0 ==> k !in s.bills && t.bills.Keys == s.bills.Keys + {k} && t.bills - {k} == s.bills && t.items == s.items && MadeBill(read, m, total, t.bills[k]))
            && (total < 0 ==> t.bills == s.bills && CarryKey(m) !in s.items && t.items == s.items[CarryKey(m) := total] && CarryKey(m).month == m + 1)
            && (total == 0 ==> t.bills == s.bills && t.items == s.items)
  {
    var m, k := s.card.open, BillKey(s.card.open, s.card.version);
    FirstDue(m, read.closingDay, read.dueDay);
  }

  /** New settings reach the next bill: its due day, its paying account and the closing date it counts from. */
  lemma SettingsReachTheBill(s: Store, closingDay: int, dueDay: int, paying: Account, total: Cents)
    requires UpdateCard(s, closingDay, dueDay, paying).Committed? && total > 0
    requires var u := UpdateCard(s, closingDay, dueDay, paying).store; Close(u, u.card, total).Committed?
    ensures var u := UpdateCard(s, closingDay, dueDay, paying).store;
            var t, k := Close(u, u.card, total).store, BillKey(s.card.open, s.card.version);
            && u == s.(card := u.card) && u.card.open == s.card.open && u.card.archived == s.card.archived
            && k in t.bills && t.bills[k].account == paying && DueFirst(s.card.open, closingDay, dueDay, t.bills[k].due)
  {
    var u := UpdateCard(s, closingDay, dueDay, paying).store;
    CloseMakes(u, u.card, total);
  }

  predicate MadeBill(read: CardRow, m: Month, total: Cents, b: StatementBill) {
    b.amount == total && b.account == read.paying && b.status == Forecast && b.txs == [] && DueFirst(m, read.closingDay, read.dueDay, b.due)
  }

  /** due is a real day on the card's due day, after the closing date, with no such day of m or the next in between. */
  predicate DueFirst(m: Month, closingDay: int, dueDay: int, due: Date) {
    && ValidDate(due) && Before(ClosingDate(m, closingDay), due)
    && (due == Clamp(m, dueDay) || (due == Clamp(m + 1, dueDay) && !Before(ClosingDate(m, closingDay), Clamp(m, dueDay))))
  }

  lemma FirstDue(m: Month, closingDay: int, dueDay: int)
    requires 1 <= closingDay <= 31 && 1 <= dueDay <= 31
    ensures DueFirst(m, closingDay, dueDay, DueDate(m, closingDay, dueDay))
  {
  }

  /** With the rows as they stand the last closed month reopens if and only if the card is not archived and its bill, if any, is unpaid. */
  lemma ReopenCommitsIff(s: Store, m: Month)
    requires Books(s) && m in s.frozen
    ensures var f := s.frozen[m];
            && (f.bill.Some? ==> f.bill.value in s.bills)
            && (Reopen(s, s.card, Some(f), if f.bill.Some? then Some(s.bills[f.bill.value]) else None, m).Committed? <==>
                  !s.card.archived && m + 1 == s.card.open && (f.bill.Some? ==> s.bills[f.bill.value].status == Forecast))
  {
    assert FrozenOk(s, m);
  }

  // ---- statement bills ----

  /**
   Paying a statement bill takes from the paying account exactly what was paid, clears the bill's amount from the card, puts
   the gap on the difference category, and touches no other account.
   */
  lemma SettlementMoves(s: Store, read: StatementBill, k: BillKey, paid: Cents, difference: Option<Account>, date: Date, into: Option<Account>, a: Account)
    requires Settle(s, read, k, paid, difference, date, into).Committed?
    ensures var t := Settle(s, read, k, paid, difference, date, into).store;
            && Posts(s.log, t.log, Settlement, date)
            && Gained(s, t, a) == AtAccount(a, CardOf(s), read.amount) - AtAccount(a, if into.Some? then into.value else read.account, paid)
                                  + (if paid != read.amount && difference.Some? then AtAccount(a, difference.value, paid - read.amount) else 0)
  {
    var f := FactsOf(s, read, into);
    SettleNetsEach(f, paid, difference, date, a);
    Append(s.log, SettleBill(f, paid, difference, date).value, a);
  }

  /** The row a payment leaves: paid from that account, with one more transaction; nothing else changes. */
  lemma SettledRow(s: Store, read: StatementBill, k: BillKey, paid: Cents, difference: Option<Account>, date: Date, into: Option<Account>)
    requires Settle(s, read, k, paid, difference, date, into).Committed?
    ensures var t := Settle(s, read, k, paid, difference, date, into).store;
            && k in s.bills && k in t.bills && t.bills - {k} == s.bills - {k}
            && t.bills[k] == s.bills[k].(status := Paid, txs := s.bills[k].txs + [|s.log|], account := if into.Some? then into.value else read.account)
            && t.items == s.items && t.card == s.card && t.purchases == s.purchases && t.frozen == s.frozen
  {
  }

  predicate Settles(read: StatementBill, paid: Cents, difference: Option<Account>) {
    0 < paid <= MAX_LEG_AMOUNT && (paid == read.amount || difference.Some?) && (difference.Some? ==> difference.value.Category?)
  }

  /** A bill paid from cash settles if and only if it is a forecast as read, something is paid, and a gap has its category. */
  lemma SettleCommitsIff(s: Store, read: StatementBill, k: BillKey, paid: Cents, difference: Option<Account>, date: Date, into: Option<Account>)
    requires 0 < read.amount <= MAX_LEG_AMOUNT && (if into.Some? then into.value.Cash? else read.account.Cash?)
    ensures Settle(s, read, k, paid, difference, date, into).Committed? <==>
            read.status == Forecast && ForecastGuard(s, k, read) && Settles(read, paid, difference)
  {
    var f := FactsOf(s, read, into);
    if Settles(read, paid, difference) {
      SettlePosts(f, paid, difference, date);
    } else if difference.None? || difference.value.Category? {
      SettleRefuses(f, paid, difference, date);
    }
  }

  lemma SettlePosts(f: Facts, paid: Cents, difference: Option<Account>, date: Date)
    requires f.direction == Payable && 0 < f.amount <= MAX_LEG_AMOUNT && Cleared(f).CardAccount? && f.account.Cash?
    requires 0 < paid <= MAX_LEG_AMOUNT && (paid == f.amount || difference.Some?) && (difference.Some? ==> difference.value.Category?)
    ensures SettleBill(f, paid, difference, date).Some?
  {
    var legs := SettleLegs(f, paid, difference);
    NetTwo(legs[0], legs[1], Payables);
    if |legs| == 3 {
      NetThree(legs[0], legs[1], legs[2], Payables);
      assert legs == [legs[0], legs[1], legs[2]];
    } else {
      assert legs == [legs[0], legs[1]];
    }
  }

  lemma SettleRefuses(f: Facts, paid: Cents, difference: Option<Account>, date: Date)
    requires f.direction == Payable && (paid <= 0 || paid > MAX_LEG_AMOUNT || (paid != f.amount && difference.None?))
    ensures SettleBill(f, paid, difference, date).None?
  {
    var legs := SettleLegs(f, paid, difference);
    assert legs[1].amount == -paid;
  }

  /** Undoing a payment gives every account back what the payment moved, and the bill is owed again. */
  lemma UnsettleMoves(s: Store, read: StatementBill, k: BillKey, date: Date, a: Account)
    requires Unsettle(s, read, k, date).Committed?
    ensures var t := Unsettle(s, read, k, date).store;
            && read.txs != [] && read.txs[|read.txs| - 1] < |s.log| && Posts(s.log, t.log, Reversal, date)
            && t.log[|s.log|].adjusts == Some(read.txs[|read.txs| - 1]) && t.reversed == s.reversed + {read.txs[|read.txs| - 1]}
            && Gained(s, t, a) == -Net(s.log[read.txs[|read.txs| - 1]], a)
            && k in s.bills && k in t.bills && t.bills[k] == s.bills[k].(status := Forecast, txs := s.bills[k].txs + [|s.log|])
            && t.bills - {k} == s.bills - {k} && t.items == s.items && t.card == s.card && t.purchases == s.purchases && t.frozen == s.frozen
  {
    var last := s.log[read.txs[|read.txs| - 1]];
    NegateNets(last.legs, a);
    Append(s.log, UndoLast(s, read, date).value, a);
  }

  /** With the bill as it stands its payment is undone if and only if it is paid. */
  lemma UnsettleCommitsIff(s: Store, k: BillKey, date: Date)
    requires Books(s) && k in s.bills
    ensures Unsettle(s, s.bills[k], k, date).Committed? <==> s.bills[k].status == Paid
  {
    assert BillOk(s, k);
    if s.bills[k].status == Paid {
      var last := s.bills[k].txs[|s.bills[k].txs| - 1];
      ReverseUndoes(s.log[last], last, date);
    }
  }

  /** A direct cancel commits if and only if the card is archived and the bill a forecast as read; only its status changes. */
  lemma CancelMakes(s: Store, archived: bool, read: StatementBill, k: BillKey)
    ensures CardModel.CancelBill(s, archived, read, k).Committed? <==> archived && read.status == Forecast && ForecastGuard(s, k, read)
    ensures CardModel.CancelBill(s, archived, read, k).Committed? ==>
            var t := CardModel.CancelBill(s, archived, read, k).store;
            && k in s.bills && k in t.bills && t.bills[k].status == Canceled
            && t.bills[k].amount == s.bills[k].amount && t.bills[k].txs == s.bills[k].txs
            && t == s.(bills := t.bills) && t.bills - {k} == s.bills - {k}
  {
  }

  /** An edit of a statement bill changes its account and due date to those asked for, and nothing else anywhere. */
  lemma EditBillMakes(s: Store, read: StatementBill, k: BillKey, account: Account, due: Date)
    ensures EditBill(s, read, k, account, due).Committed? <==> read.status == Forecast && ForecastGuard(s, k, read)
    ensures EditBill(s, read, k, account, due).Committed? ==>
            var t := EditBill(s, read, k, account, due).store;
            && k in t.bills && t.bills[k].account == account && t.bills[k].due == due
            && t.bills[k].amount == s.bills[k].amount && t.bills[k].txs == s.bills[k].txs && t.bills[k].status == Forecast
            && t == s.(bills := t.bills) && t.bills - {k} == s.bills - {k}
  {
  }
}
