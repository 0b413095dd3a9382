/**
 The card operations as the repository performs them: each builds its writes in a loop over the plan it read and commits
 them, all or none, to the stored rows. Every method is proved to do exactly what the transaction model says.
 */
module CardRepository {
  import opened Calendar
  import opened Installments
  import opened Ledger
  import opened Sums
  import opened CardModel
  import opened CardPlans
  import opened CardInvariant
  import opened CardHistory

  const CLOSE_RETRIES := 3

  /** An answer and the store it leaves are those of the model's outcome. */
  ghost predicate Answers(was: Store, now: Store, o: Outcome, r: Option<Error>) {
    match o
    case Committed(t) => r.None? && now == t
    case Refused(e) => r == Some(e) && now == was
  }

  lemma SumPartsSnoc(parts: seq<Part>, i: nat, q: Part -> bool)
    requires i < |parts|
    ensures SumParts(parts[..i + 1], q) == SumParts(parts[..i], q) + (if q(parts[i]) then parts[i].amount else 0)
  {
    assert parts[..i + 1][..i] == parts[..i];
  }

  lemma {:induction false} FirstAdvancedSnoc(parts: seq<Part>, p: Part, open: Month)
    ensures FirstAdvanced(parts + [p], open) ==
            if FirstAdvanced(parts, open).Some? then FirstAdvanced(parts, open)
            else if p.month >= open && p.advanced then Some(p.month) else None
  {
    if parts == [] {
      assert [p][1..] == [];
    } else {
      assert (parts + [p])[1..] == parts[1..] + [p];
      FirstAdvancedSnoc(parts[1..], p, open);
    }
  }

  class Cards {
    var card: CardRow
    var items: map<ItemKey, Cents>
    var purchases: map<string, Purchase>
    var frozen: map<Month, Frozen>
    var bills: map<BillKey, StatementBill>
    var log: seq<Tx>
    var reversed: set<TxId>

    ghost function Now(): Store
      reads this
    {
      Store(card, items, purchases, frozen, bills, log, reversed)
    }

    /** A new card: its first open statement is the current month. */
    constructor (id: string, month: Month, closingDay: int, dueDay: int, paying: Account)
      ensures Now() == NewCard(id, month, closingDay, dueDay, paying)
    {
      card := CardRow(id, month, 0, month, closingDay, dueDay, paying, false);
      items, purchases, frozen, bills, log, reversed := map[], map[], map[], map[], [], {};
    }

    method AddPurchase(read: CardRow, id: string, total: Cents, n: int, date: Date, category: Account) returns (r: Option<Error>)
      modifies this
      ensures Answers(old(Now()), Now(), Buy(old(Now()), read, id, total, n, date, category), r)
    {
      if read.archived {
        return Some(CardArchived);
      }
      var plan := PlaceInstallments(total, n, date, read.closingDay, read.open);
      var tx := CardPurchase(CardAccount(card.id), category, total, date);
      if !(category.Category? && category.expense) || plan.None? || tx.None? {
        return Some(Invalid);
      }
      var parts, puts := PurchaseWrites(plan.value, id);
      if card.open != read.open {
        return Some(CardMoved);
      }
      if id in purchases || puts.Keys * items.Keys != {} {
        return Some(AlreadyRecorded);
      }
      purchases := purchases[id := Purchase(total, category, date, parts, |log|, false, 0)];
      items, log, card := items + puts, log + [tx.value], CardBump(card);
      return None;
    }

    /** One item per installment. */
    method PurchaseWrites(plan: seq<Installment>, id: string) returns (parts: seq<Part>, puts: map<ItemKey, Cents>)
      requires forall i :: 0 <= i < |plan| ==> plan[i].number == i + 1
      ensures parts == FreshParts(plan) && puts == PlanItems(id, parts)
    {
      parts, puts := [], map[];
      for i := 0 to |plan|
        invariant parts == FreshParts(plan)[..i]
        invariant puts == PlanItems(id, parts)
        invariant forall k :: k in puts ==> k.tag.PartTag? && k.tag.n <= i
      {
        var p := Part(plan[i].number, plan[i].amount, plan[i].month, false);
        var k := ItemKey(p.month, PurchaseOwner(id), PartTag(p.number));
        PlanUnfold(id, parts, p);
        puts := puts[k := p.amount];
        parts := parts + [p];
      }
    }

    method AddCredit(read: CardRow, id: string, amount: Cents, date: Date, category: Account) returns (r: Option<Error>)
      modifies this
      ensures Answers(old(Now()), Now(), Credit(old(Now()), read, id, amount, date, category), r)
    {
      if read.archived {
        return Some(CardArchived);
      }
      var tx := CardCredit(CardAccount(card.id), category, amount, date);
      if !(category.Category? && category.expense) || tx.None? {
        return Some(Invalid);
      }
      if card.open != read.open {
        return Some(CardMoved);
      }
      var k := CreditKey(id, read.open);
      if k in items {
        return Some(AlreadyRecorded);
      }
      items, log, card := items[k := -amount], log + [tx.value], CardBump(card);
      return None;
    }

    method Advance(read: CardRow, row: Purchase, id: string) returns (r: Option<Error>)
      modifies this
      ensures Answers(old(Now()), Now(), CardModel.Advance(old(Now()), read, row, id), r)
    {
      if row.refunded {
        return Some(PurchaseRefunded);
      }
      var gone, sum, parts := AdvanceWrites(row, id, read.open);
      if sum == 0 {
        return Some(NothingToAdvance);
      }
      if !(id in purchases && !purchases[id].refunded && purchases[id].rev == row.rev) || card.open != read.open {
        return Some(CardMoved);
      }
      var k := AdvKey(id, read.open);
      if k in items {
        return Some(NothingToAdvance);
      }
      items := (items - gone)[k := sum];
      purchases := purchases[id := purchases[id].(parts := parts, rev := purchases[id].rev + 1)];
      card := CardBump(card);
      return None;
    }

    /** The items an advance deletes, what it moves, and the plan it stores. */
    method AdvanceWrites(row: Purchase, id: string, open: Month) returns (gone: set<ItemKey>, sum: Cents, parts: seq<Part>)
      ensures gone == AdvanceDeletes(id, row.parts, open)
      ensures sum == SumParts(row.parts, After(open))
      ensures parts == AdvancedParts(row.parts, open)
    {
      var plan := seq(|row.parts|, i requires 0 <= i < |row.parts| => Installment(row.parts[i].number, row.parts[i].amount, row.parts[i].month));
      var moved := AdvancePlan(plan, open);
      gone, sum, parts := {}, 0, [];
      for i := 0 to |plan|
        invariant parts == AdvancedParts(row.parts, open)[..i]
        invariant sum == SumParts(row.parts[..i], After(open))
        invariant gone == AdvanceDeletes(id, row.parts[..i], open)
      {
        var p := row.parts[i];
        SumPartsSnoc(row.parts, i, After(open));
        AdvanceDeletesSnoc(id, row.parts, i, open);
        if plan[i].month != moved[i].month {
          gone := gone + {ItemKey(p.month, PurchaseOwner(id), PartTag(p.number))};
          sum := sum + p.amount;
          p := p.(advanced := true);
        }
        parts := parts + [p.(month := moved[i].month)];
      }
      assert row.parts[..|plan|] == row.parts;
    }

    method Refund(read: CardRow, row: Purchase, id: string, date: Date) returns (r: Option<Error>)
      modifies this
      ensures Answers(old(Now()), Now(), CardModel.Refund(old(Now()), read, row, id, date), r)
    {
      if row.refunded {
        return Some(PurchaseRefunded);
      }
      if row.tx >= |log| || Reverse(log[row.tx], row.tx, date).None? {
        return Some(NotFound);
      }
      var deletes, credit := RefundWrites(row, id, read.open);
      if row.tx in reversed {
        return Some(if id in purchases && purchases[id].refunded then PurchaseRefunded else CardMoved);
      }
      if !(id in purchases && !purchases[id].refunded && purchases[id].rev == row.rev) || card.open != read.open {
        return Some(CardMoved);
      }
      var k := RefundKey(id, read.open);
      if credit > 0 && k in items {
        return Some(Invalid);
      }
      items := items - deletes;
      if credit > 0 {
        items := items[k := -credit];
      }
      purchases := purchases[id := purchases[id].(refunded := true)];
      log, reversed, card := log + [Reverse(log[row.tx], row.tx, date).value], reversed + {row.tx}, CardBump(card);
      return None;
    }

    /** The items a refund deletes, its one "adv" item once, and the credit for what was billed. */
    method RefundWrites(row: Purchase, id: string, open: Month) returns (deletes: set<ItemKey>, credit: Cents)
      ensures deletes == RefundDeletes(id, row.parts, open)
      ensures credit == SumParts(row.parts, Billed(open))
    {
      var deletedAdv := false;
      deletes, credit := {}, 0;
      for i := 0 to |row.parts|
        invariant credit == SumParts(row.parts[..i], Billed(open))
        invariant deletedAdv == FirstAdvanced(row.parts[..i], open).Some?
        invariant deletes == RefundDeletes(id, row.parts[..i], open)
      {
        var p := row.parts[i];
        SumPartsSnoc(row.parts, i, Billed(open));
        RefundDeletesSnoc(id, row.parts, i, open);
        if p.month < open {
          credit := credit + p.amount;
        } else if p.advanced {
          if !deletedAdv {
            deletes := deletes + {AdvKey(id, p.month)};
            deletedAdv := true;
          }
        } else {
          deletes := deletes + {ItemKey(p.month, PurchaseOwner(id), PartTag(p.number))};
        }
      }
      assert row.parts[..|row.parts|] == row.parts;
    }

    /** Every line the plan names is there; a line several parts share is looked up once. */
    method LinesExist(row: Purchase, id: string) returns (there: bool)
      ensures there <==> forall j :: 0 <= j < |row.parts| ==> KeyOf(id, row.parts[j]) in items
    {
      var seen: set<ItemKey> := {};
      for i := 0 to |row.parts|
        invariant forall j :: 0 <= j < i ==> KeyOf(id, row.parts[j]) in items
        invariant forall k :: k in seen ==> k in items
      {
        var k := KeyOf(id, row.parts[i]);
        if k !in seen {
          if k !in items {
            return false;
          }
          seen := seen + {k};
        }
      }
      return true;
    }

    method EditPurchase(row: Purchase, id: string, category: Account) returns (r: Option<Error>)
      modifies this
      ensures Answers(old(Now()), Now(), CardModel.EditPurchase(old(Now()), row, id, category), r)
    {
      var moves := category != row.category;
      var tx := CardPurchase(CardAccount(card.id), category, row.total, row.date);
      if row.refunded {
        return Some(PurchaseRefunded);
      }
      if moves && (!(category.Category? && category.expense) || tx.None?) {
        return Some(Invalid);
      }
      if moves && (row.tx >= |log| || Reverse(log[row.tx], row.tx, row.date).None?) {
        return Some(NotFound);
      }
      if !(id in purchases && !purchases[id].refunded && purchases[id].rev == row.rev) || (moves && row.tx in reversed) {
        return Some(CardMoved);
      }
      var there := LinesExist(row, id);
      if !there {
        return Some(MissingLine);
      }
      var cur := purchases[id];
      if moves {
        purchases := purchases[id := cur.(category := category, tx := |log| + 1, rev := cur.rev + 1)];
        log, reversed := log + [Reverse(log[row.tx], row.tx, row.date).value, tx.value], reversed + {row.tx};
      } else {
        purchases := purchases[id := cur.(rev := cur.rev + 1)];
      }
      return None;
    }

    /** The total a month's statement shows. */
    method Statement(m: Month) returns (total: Cents)
      ensures total == StatementTotal(Now(), m)
    {
      if m in frozen {
        return frozen[m].total;
      }
      total := 0;
      var rest := items;
      while |rest| > 0
        invariant total + SumWhere(rest, On(m)) == SumWhere(items, On(m))
        decreases |rest|
      {
        var k :| k in rest;
        SumTake(rest, On(m), k);
        if k.month == m {
          total := total + rest[k];
        }
        rest := rest - {k};
      }
    }

    /** The transaction that freezes month read.open at total. */
    method CommitClose(read: CardRow, total: Cents) returns (r: Option<Error>)
      modifies this
      ensures Answers(old(Now()), Now(), Close(old(Now()), read, total), r)
    {
      var m := read.open;
      if !ValidSettings(read) || total > MAX_LEG_AMOUNT {
        return Some(Invalid);
      }
      var k := BillKey(m, read.version);
      if card.open != m || card.version != read.version || m in frozen
         || (total > 0 && k in bills) || (total < 0 && CarryKey(m) in items) {
        return Some(CardMoved);
      }
      if total > 0 {
        bills := bills[k := StatementBill(total, read.paying, DueDate(m, read.closingDay, read.dueDay), Forecast, [])];
      } else if total < 0 {
        items := items[CarryKey(m) := total];
      }
      frozen := frozen[m := Frozen(total, if total > 0 then Some(k) else None)];
      card := card.(open := m + 1);
      return None;
    }

    method Reopen(read: CardRow, row: Option<Frozen>, bill: Option<StatementBill>, m: Month) returns (r: Option<Error>)
      modifies this
      ensures Answers(old(Now()), Now(), CardModel.Reopen(old(Now()), read, row, bill, m), r)
    {
      if read.archived || read.open != m + 1 || row.None? {
        return Some(NotReopenable);
      }
      var f := row.value;
      if f.bill.Some? {
        if bill.None? {
          return Some(NotFound);
        }
        if bill.value.status != Forecast {
          return Some(NotReopenable);
        }
        var k := f.bill.value;
        if !(k in bills && bills[k].status == Forecast && |bills[k].txs| == |bill.value.txs|
             && bills[k].account == bill.value.account && bills[k].due == bill.value.due) {
          return Some(CardMoved);
        }
      }
      if card.open != m + 1 || card.version != read.version {
        return Some(CardMoved);
      }
      if f.bill.Some? {
        bills := bills[f.bill.value := bills[f.bill.value].(status := Canceled)];
      } else if f.total < 0 {
        items := items - {CarryKey(m)};
      }
      frozen := frozen - {m};
      card := card.(open := m, version := card.version + 1);
      return None;
    }

    /** Any number of purchases, of anything, made by others meanwhile; none if calm. */
    method OthersBuy(calm: bool)
      modifies this
      ensures Interfered(old(Now()), Now()) && (calm ==> Now() == old(Now()))
    {
      var n: nat := *;
      if calm {
        return;
      }
      while n > 0
        invariant Interfered(old(Now()), Now())
      {
        var id: string, total: Cents, k: int, date: Date, category: Account := *, *, *, *, *;
        OneBuys(id, total, k, date, category);
        n := n - 1;
      }
    }

    method OneBuys(id: string, total: Cents, k: int, date: Date, category: Account)
      modifies this
      ensures Interfered(old(Now()), Now())
    {
      var r := AddPurchase(card, id, total, k, date, category);
      if r.None? {
        BoughtInterferes(old(Now()), id, total, k, date, category);
      }
    }

    /**
     One attempt to close the month of a card row read at any time, others buying between the sum and the write. If it
     commits, the month is the open one and, for a row that is not from the future, it is frozen at the sum of its items.
     */
    method CloseAt(read: CardRow, calm: bool) returns (r: Option<Error>)
      modifies this
      ensures r.None? ==> read.open == old(card).open && card == old(card).(open := old(card).open + 1, version := card.version)
      ensures r.None? ==> old(card).open !in old(frozen) && frozen.Keys == old(frozen).Keys + {old(card).open} && forall m :: m in old(frozen) ==> frozen[m] == old(frozen)[m]
      ensures r.None? && read.version <= old(card).version ==> old(card).open in frozen && frozen[old(card).open].total == SumWhere(items, On(old(card).open))
      ensures SameBefore(old(items), items, old(card).open) && card.version >= old(card).version
      ensures r.Some? ==> card == old(card).(version := card.version) && frozen == old(frozen)
      ensures r.Some? ==> r.value == CardMoved || r.value == Invalid
      ensures calm && read == old(card) && Tidy(old(Now())) ==> Tidy(Now()) && (r.Some? ==> r.value == Invalid && TooMuch(Now()))
    {
      var total := Statement(read.open);
      OthersBuy(calm);
      ghost var was := Now();
      r := CommitClose(read, total);
      if r.None? {
        ClosedSum(was, Now(), read, total);
      }
      if calm && read == old(card) {
        CalmClose(was, Now(), r);
      }
    }

    /** How many closing dates from the open month on can be on or before today: none past today's own month. */
    ghost function MonthsDue(today: Date): nat
      reads this
    {
      if card.open > today.month then 0 else today.month - card.open + 1
    }

    /**
     Closes, in order, every statement whose closing date is on or before today; others may buy at any point. If none does,
     it gets through, unless a statement owes more than a bill may hold.
     */
    method CloseDue(today: Date, calm: bool) returns (closed: nat, r: Option<Error>)
      modifies this
      ensures closed == card.open - old(card.open) && MonthsClosed(old(Now()), Now(), today) && Summed(Now(), old(card.open))
      ensures r.None? ==> card.archived || Before(today, ClosingDate(card.open, card.closingDay))
      ensures r.Some? ==> r.value == CardMoved || r.value == Invalid
      ensures calm && Tidy(old(Now())) && r.Some? ==> r.value == Invalid && TooMuch(Now())
    {
      closed := 0;
      var misses := 0;
      while true
        invariant 0 <= misses <= CLOSE_RETRIES
        invariant closed == card.open - old(card.open) && MonthsClosed(old(Now()), Now(), today) && Summed(Now(), old(card.open))
        invariant calm && Tidy(old(Now())) ==> Tidy(Now())
        decreases MonthsDue(today), CLOSE_RETRIES - misses
      {
        var over, e := TryNext(today, calm, old(Now()));
        if over {
          return closed, None;
        } else if e.None? {
          closed, misses := closed + 1, 0;
        } else if e == Some(CardMoved) && misses < CLOSE_RETRIES {
          misses := misses + 1;
        } else {
          return closed, e;
        }
      }
    }

    /** One look at the card and, if its open statement is due, one attempt to close it. */
    method TryNext(today: Date, calm: bool, ghost start: Store) returns (over: bool, e: Option<Error>)
      requires MonthsClosed(start, Now(), today) && Summed(Now(), start.card.open)
      modifies this
      ensures MonthsClosed(start, Now(), today) && Summed(Now(), start.card.open)
      ensures over ==> e.None? && card.open == old(card).open && (card.archived || Before(today, ClosingDate(card.open, card.closingDay)))
      ensures !over && e.None? ==> card.open == old(card).open + 1 && MonthsDue(today) < old(MonthsDue(today))
      ensures e.Some? ==> card.open == old(card).open && (e.value == CardMoved || e.value == Invalid)
      ensures calm && Tidy(old(Now())) ==> Tidy(Now()) && (e.Some? ==> e.value == Invalid && TooMuch(Now()))
    {
      var read := card;
      OthersBuy(calm);
      SummedSame(old(Now()), Now(), start.card.open);
      if read.archived || Before(today, ClosingDate(read.open, read.closingDay)) {
        return true, None;
      }
      ghost var was := Now();
      e := CloseAt(read, calm);
      over := false;
      if e.None? {
        OneMoreClosed(start, was, Now(), today);
        SummedMore(was, Now(), start.card.open);
      } else {
        SummedSame(was, Now(), start.card.open);
      }
    }
  }

  /** From s to t: the months between their open ones were due and are closed; no other closed month changed. */
  ghost predicate MonthsClosed(s: Store, t: Store, today: Date) {
    && s.card.open <= t.card.open && t.card == s.card.(open := t.card.open, version := t.card.version)
    && (forall m :: m in t.frozen <==> m in s.frozen || s.card.open <= m < t.card.open)
    && (forall m :: m in s.frozen && m in t.frozen && !(s.card.open <= m < t.card.open) ==> t.frozen[m] == s.frozen[m])
    && (forall m :: s.card.open <= m < t.card.open ==> !Before(today, ClosingDate(m, t.card.closingDay)))
  }

  lemma OneMoreClosed(s: Store, was: Store, t: Store, today: Date)
    requires MonthsClosed(s, was, today)
    requires t.card == was.card.(open := was.card.open + 1, version := t.card.version) && was.card.open !in was.frozen
    requires t.frozen.Keys == was.frozen.Keys + {was.card.open} && forall m :: m in was.frozen ==> t.frozen[m] == was.frozen[m]
    requires !Before(today, ClosingDate(was.card.open, was.card.closingDay))
    ensures MonthsClosed(s, t, today)
  {
  }

  lemma SummedSame(was: Store, t: Store, first: Month)
    requires Summed(was, first) && SameBefore(was.items, t.items, was.card.open)
    requires t.card.open == was.card.open && t.frozen == was.frozen
    ensures Summed(t, first)
  {
    SummedStays(was, t, first);
  }

  lemma SummedMore(was: Store, t: Store, first: Month)
    requires Summed(was, first) && SameBefore(was.items, t.items, was.card.open)
    requires t.card.open == was.card.open + 1 && was.card.open in t.frozen
    requires forall m :: m in was.frozen ==> m in t.frozen && t.frozen[m] == was.frozen[m]
    requires t.frozen[was.card.open].total == SumWhere(t.items, On(was.card.open))
    ensures Summed(t, first)
  {
    SummedStays(was, t, first);
    SummedNext(was, t, first);
  }

  lemma SummedNext(was: Store, t: Store, first: Month)
    requires t.card.open == was.card.open + 1 && was.card.open in t.frozen
    requires t.frozen[was.card.open].total == SumWhere(t.items, On(was.card.open))
    requires forall m :: first <= m < was.card.open ==> m in t.frozen && t.frozen[m].total == SumWhere(t.items, On(m))
    ensures Summed(t, first)
  {
  }

  /** Closed months as their rows say, and no carried credit left behind. */
  ghost predicate Tidy(s: Store) { Frames(s) && NoStray(s) }

  /** The open statement owes more than one bill may hold. */
  ghost predicate TooMuch(s: Store) { SumWhere(s.items, On(s.card.open)) > MAX_LEG_AMOUNT }

  lemma CalmClose(was: Store, now: Store, r: Option<Error>)
    requires Answers(was, now, Close(was, was.card, StatementTotal(was, was.card.open)), r)
    ensures Tidy(was) ==> Tidy(now) && (r.Some? ==> r.value == Invalid && TooMuch(now))
  {
    if Tidy(was) {
      CloseCommitsIff(was);
      if r.None? {
        CloseFrames(was, was.card, StatementTotal(was, was.card.open));
      }
    }
  }

  /** Purchases by others: the card only in its version, nothing before its open month, and nothing at all if no version. */
  ghost predicate Interfered(s: Store, t: Store) {
    && t.card == s.card.(version := t.card.version) && s.card.version <= t.card.version && t.frozen == s.frozen
    && SameBefore(s.items, t.items, s.card.open)
    && (t.card.version == s.card.version ==> t.items == s.items)
  }

  lemma BoughtInterferes(s: Store, id: string, total: Cents, n: int, date: Date, category: Account)
    requires Buy(s, s.card, id, total, n, date, category).Committed?
    ensures Interfered(s, Buy(s, s.card, id, total, n, date, category).store)
  {
    BuyPlan(id, total, n, date, s.card.closingDay, s.card.open);
    var row := Purchase(total, category, date, FreshParts(PlaceInstallments(total, n, date, s.card.closingDay, s.card.open).value), |s.log|, false, 0);
    RecordInterferes(s, id, row, CardPurchase(CardOf(s), category, total, date).value);
  }

  lemma RecordInterferes(s: Store, id: string, row: Purchase, tx: Tx)
    requires RecordPurchase(s, s.card.open, id, row, tx).Committed?
    requires forall k :: k in PlanItems(id, row.parts) ==> k.month >= s.card.open
    ensures Interfered(s, RecordPurchase(s, s.card.open, id, row, tx).store)
  {
  }

  lemma ClosedSum(s: Store, t: Store, read: CardRow, total: Cents)
    requires Close(s, read, total) == Committed(t)
    ensures SumWhere(t.items, On(read.open)) == SumWhere(s.items, On(read.open)) && SameBefore(s.items, t.items, read.open)
  {
    SumSame(s.items, t.items, On(read.open));
  }

  /** Every month closed from first on is frozen at the sum of its items. */
  ghost predicate Summed(s: Store, first: Month) {
    forall m :: first <= m < s.card.open ==> m in s.frozen && s.frozen[m].total == SumWhere(s.items, On(m))
  }

  lemma SummedStays(s: Store, t: Store, first: Month)
    requires Summed(s, first) && SameBefore(s.items, t.items, s.card.open)
    requires forall m :: m in s.frozen ==> m in t.frozen && t.frozen[m] == s.frozen[m]
    ensures forall m :: first <= m < s.card.open ==> m in t.frozen && t.frozen[m].total == SumWhere(t.items, On(m))
  {
    forall m | first <= m < s.card.open ensures m in t.frozen && t.frozen[m].total == SumWhere(t.items, On(m)) {
      SumSame(s.items, t.items, On(m));
    }
  }

  lemma AdvanceDeletesSnoc(id: string, parts: seq<Part>, i: nat, open: Month)
    requires i < |parts|
    ensures AdvanceDeletes(id, parts[..i + 1], open) == AdvanceDeletes(id, parts[..i], open)
            + (if parts[i].month > open then {ItemKey(parts[i].month, PurchaseOwner(id), PartTag(parts[i].number))} else {})
  {
    var a, b := parts[..i], parts[..i + 1];
    forall k | k in AdvanceDeletes(id, b, open)
      ensures k in AdvanceDeletes(id, a, open) || (parts[i].month > open && k == ItemKey(parts[i].month, PurchaseOwner(id), PartTag(parts[i].number)))
    {
      var j :| 0 <= j < |b| && b[j].month > open && k == ItemKey(b[j].month, PurchaseOwner(id), PartTag(b[j].number));
      if j < i {
        assert a[j] == b[j];
      }
    }
    forall k | k in AdvanceDeletes(id, a, open) ensures k in AdvanceDeletes(id, b, open) {
      var j :| 0 <= j < |a| && a[j].month > open && k == ItemKey(a[j].month, PurchaseOwner(id), PartTag(a[j].number));
      assert a[j] == b[j];
    }
    assert b[i] == parts[i];
  }

  /** The unbilled parts' own keys, without the "adv" item. */
  function PlainDeletes(id: string, parts: seq<Part>, open: Month): set<ItemKey> {
    set i | 0 <= i < |parts| && parts[i].month >= open && !parts[i].advanced :: KeyOf(id, parts[i])
  }

  lemma PlainDeletesSnoc(id: string, parts: seq<Part>, i: nat, open: Month)
    requires i < |parts|
    ensures PlainDeletes(id, parts[..i + 1], open) == PlainDeletes(id, parts[..i], open)
            + (if parts[i].month >= open && !parts[i].advanced then {KeyOf(id, parts[i])} else {})
  {
    var a, b := parts[..i], parts[..i + 1];
    forall k | k in PlainDeletes(id, b, open)
      ensures k in PlainDeletes(id, a, open) || (parts[i].month >= open && !parts[i].advanced && k == KeyOf(id, parts[i]))
    {
      var j :| 0 <= j < |b| && b[j].month >= open && !b[j].advanced && k == KeyOf(id, b[j]);
      if j < i {
        assert a[j] == b[j];
      }
    }
    forall k | k in PlainDeletes(id, a, open) ensures k in PlainDeletes(id, b, open) {
      var j :| 0 <= j < |a| && a[j].month >= open && !a[j].advanced && k == KeyOf(id, a[j]);
      assert a[j] == b[j];
    }
    assert b[i] == parts[i];
  }

  lemma RefundDeletesSnoc(id: string, parts: seq<Part>, i: nat, open: Month)
    requires i < |parts|
    ensures FirstAdvanced(parts[..i + 1], open) ==
            (if FirstAdvanced(parts[..i], open).Some? then FirstAdvanced(parts[..i], open)
             else if parts[i].month >= open && parts[i].advanced then Some(parts[i].month) else None)
    ensures RefundDeletes(id, parts[..i + 1], open) == RefundDeletes(id, parts[..i], open)
            + (if parts[i].month < open then {}
               else if !parts[i].advanced then {KeyOf(id, parts[i])}
               else if FirstAdvanced(parts[..i], open).Some? then {} else {AdvKey(id, parts[i].month)})
  {
    assert parts[..i + 1] == parts[..i] + [parts[i]];
    FirstAdvancedSnoc(parts[..i], parts[i], open);
    PlainDeletesSnoc(id, parts, i, open);
  }
}
