/**
 One credit card's rows and the guarded transactions that change them: purchases, credits, advances, refunds, edits,
 closing and reopening statements, and the statement bills (repositories/cards_close.go, cards_purchases.go,
 cards_credit.go, bills.go). Each operation takes the rows it READ, possibly long before, and the store it commits to;
 its conditions are those of the source's transaction.
 */
module CardModel {
  import opened Calendar
  import opened Installments
  import opened Ledger
  import opened Sums

  // ---- rows ----

  datatype Owner = PurchaseOwner(id: string) | CreditOwner(id: string) | CarryOwner

  datatype Tag = PartTag(n: nat) | AdvTag | RefundTag | CreditTag | CarryTag(closed: Month)

  /** The sort key of a statement item. */
  datatype ItemKey = ItemKey(month: Month, owner: Owner, tag: Tag)

  datatype Part = Part(number: nat, amount: Cents, month: Month, advanced: bool)

  datatype Purchase = Purchase(total: Cents, category: Account, date: Date, parts: seq<Part>, tx: TxId, refunded: bool, rev: nat)

  /** A statement bill's id is a hash of the card, the month and the card version it was closed at. */
  datatype BillKey = BillKey(month: Month, version: nat)

  datatype StatementBill = StatementBill(amount: Cents, account: Account, due: Date, status: Status, txs: seq<TxId>)

  datatype Frozen = Frozen(total: Cents, bill: Option<BillKey>)

  datatype CardRow = CardRow(id: string, open: Month, version: nat, first: Month,
                             closingDay: int, dueDay: int, paying: Account, archived: bool)

  datatype Store = Store(card: CardRow, items: map<ItemKey, Cents>, purchases: map<string, Purchase>,
                         frozen: map<Month, Frozen>, bills: map<BillKey, StatementBill>,
                         log: seq<Tx>, reversed: set<TxId>)

  datatype Error = CardMoved | PurchaseRefunded | NothingToAdvance | NotReopenable | CardArchived | Invalid | NotFound
                 | BillState | AlreadyRecorded | MissingLine

  datatype Outcome = Committed(store: Store) | Refused(error: Error)

  // ---- selections of items ----

  function Since(m: Month): ItemKey -> bool { (k: ItemKey) => k.month >= m }

  function On(m: Month): ItemKey -> bool { (k: ItemKey) => k.month == m }

  function OwnedBy(o: Owner): ItemKey -> bool { (k: ItemKey) => k.owner == o }

  function Own(items: map<ItemKey, Cents>, o: Owner): map<ItemKey, Cents> {
    map k | k in items && k.owner == o :: items[k]
  }

  // ---- a purchase's plan and the items it names ----

  function KeyOf(id: string, p: Part): ItemKey {
    ItemKey(p.month, PurchaseOwner(id), if p.advanced then AdvTag else PartTag(p.number))
  }

  function AdvKey(id: string, m: Month): ItemKey { ItemKey(m, PurchaseOwner(id), AdvTag) }

  function RefundKey(id: string, m: Month): ItemKey { ItemKey(m, PurchaseOwner(id), RefundTag) }

  function CreditKey(id: string, m: Month): ItemKey { ItemKey(m, CreditOwner(id), CreditTag) }

  function CarryKey(m: Month): ItemKey { ItemKey(m + 1, CarryOwner, CarryTag(m)) }

  function Bump(m: map<ItemKey, Cents>, k: ItemKey, a: Cents): map<ItemKey, Cents> {
    m[k := (if k in m then m[k] else 0) + a]
  }

  /** The items a plan names: one per installment billed as such, one "adv" per month an advance moved parts onto. */
  function PlanItems(id: string, parts: seq<Part>): map<ItemKey, Cents> {
    if parts == [] then map[]
    else Bump(PlanItems(id, parts[..|parts| - 1]), KeyOf(id, parts[|parts| - 1]), parts[|parts| - 1].amount)
  }

  function FreshParts(plan: seq<Installment>): seq<Part> {
    seq(|plan|, i requires 0 <= i < |plan| => Part(plan[i].number, plan[i].amount, plan[i].month, false))
  }

  /** The sum of the parts q holds of. */
  function SumParts(parts: seq<Part>, q: Part -> bool): Cents {
    if parts == [] then 0
    else SumParts(parts[..|parts| - 1], q) + (if q(parts[|parts| - 1]) then parts[|parts| - 1].amount else 0)
  }

  function After(open: Month): Part -> bool { (p: Part) => p.month > open }

  function FlaggedAfter(open: Month): Part -> bool { (p: Part) => p.month > open && p.advanced }

  function Billed(open: Month): Part -> bool { (p: Part) => p.month < open }

  function AnyPart(): Part -> bool { (p: Part) => true }

  /** The plan after every part past the open month moved onto it. */
  function AdvancedParts(parts: seq<Part>, open: Month): seq<Part> {
    seq(|parts|, i requires 0 <= i < |parts| =>
      if parts[i].month > open then parts[i].(month := open, advanced := true) else parts[i])
  }

  /** The items an advance deletes: by installment tag, whatever the part is billed as. */
  function AdvanceDeletes(id: string, parts: seq<Part>, open: Month): set<ItemKey> {
    set i | 0 <= i < |parts| && parts[i].month > open :: ItemKey(parts[i].month, PurchaseOwner(id), PartTag(parts[i].number))
  }

  /** The month of the first advanced part at or after open: the only "adv" item a refund deletes. */
  function FirstAdvanced(parts: seq<Part>, open: Month): Option<Month> {
    if parts == [] then None
    else if parts[0].month >= open && parts[0].advanced then Some(parts[0].month)
    else FirstAdvanced(parts[1..], open)
  }

  function RefundDeletes(id: string, parts: seq<Part>, open: Month): set<ItemKey> {
    (set i | 0 <= i < |parts| && parts[i].month >= open && !parts[i].advanced :: KeyOf(id, parts[i]))
    + (match FirstAdvanced(parts, open) case Some(m) => {AdvKey(id, m)} case None => {})
  }

  // ---- derived figures ----

  function CardOf(s: Store): Account { CardAccount(s.card.id) }

  /** What the ledger says the card owes. */
  function Debt(s: Store): Cents { -Balance(s.log, CardOf(s)) }

  /** A bill closed on a month whose row still names it. */
  predicate Names(s: Store, k: BillKey) { k.month in s.frozen && s.frozen[k.month].bill == Some(k) }

  /** Unpaid statement bills: those in the open list, and those canceled under a frozen statement (an archived card's). */
  ghost function Outstanding(s: Store): map<BillKey, Cents> {
    map k | k in s.bills && (s.bills[k].status == Forecast || (s.bills[k].status == Canceled && Names(s, k))) :: s.bills[k].amount
  }

  ghost function ForecastBills(s: Store): map<BillKey, Cents> {
    map k | k in s.bills && s.bills[k].status == Forecast :: s.bills[k].amount
  }

  function AnyBill(): BillKey -> bool { (k: BillKey) => true }

  ghost function Unbilled(s: Store): Cents { SumWhere(s.items, Since(s.card.open)) }

  // ---- guards ----

  function CardBump(c: CardRow): CardRow { c.(version := c.version + 1) }

  /** The purchase is as it was read: not refunded, same revision. */
  predicate PurchaseGuard(s: Store, id: string, read: Purchase) {
    id in s.purchases && !s.purchases[id].refunded && s.purchases[id].rev == read.rev
  }

  /** The bill is as it was read: a forecast with the same number of transactions, account and due date. */
  predicate ForecastGuard(s: Store, k: BillKey, read: StatementBill) {
    && k in s.bills && s.bills[k].status == Forecast && |s.bills[k].txs| == |read.txs|
    && s.bills[k].account == read.account && s.bills[k].due == read.due
  }

  // ---- operations ----

  function NewCard(id: string, month: Month, closingDay: int, dueDay: int, paying: Account): Store {
    Store(CardRow(id, month, 0, month, closingDay, dueDay, paying, false), map[], map[], map[], map[], [], {})
  }

  /** Writes a purchase planned against the given open month, its items and its posting. */
  function RecordPurchase(s: Store, open: Month, id: string, row: Purchase, tx: Tx): Outcome {
    if s.card.open != open then Refused(CardMoved)
    else if id in s.purchases || PlanItems(id, row.parts).Keys * s.items.Keys != {} then Refused(AlreadyRecorded)
    else Committed(s.(card := CardBump(s.card), items := s.items + PlanItems(id, row.parts),
                      purchases := s.purchases[id := row], log := s.log + [tx]))
  }

  function Buy(s: Store, read: CardRow, id: string, total: Cents, n: int, date: Date, category: Account): Outcome {
    var plan := PlaceInstallments(total, n, date, read.closingDay, read.open);
    var tx := CardPurchase(CardOf(s), category, total, date);
    if read.archived then Refused(CardArchived)
    else if !(category.Category? && category.expense) || plan.None? || tx.None? then Refused(Invalid)
    else RecordPurchase(s, read.open, id, Purchase(total, category, date, FreshParts(plan.value), |s.log|, false, 0), tx.value)
  }

  function Credit(s: Store, read: CardRow, id: string, amount: Cents, date: Date, category: Account): Outcome {
    var tx := CardCredit(CardOf(s), category, amount, date);
    var k := CreditKey(id, read.open);
    if read.archived then Refused(CardArchived)
    else if !(category.Category? && category.expense) || tx.None? then Refused(Invalid)
    else if s.card.open != read.open then Refused(CardMoved)
    else if k in s.items then Refused(AlreadyRecorded)
    else Committed(s.(card := CardBump(s.card), items := s.items[k := -amount], log := s.log + [tx.value]))
  }

  function Advance(s: Store, read: CardRow, row: Purchase, id: string): Outcome {
    var sum := SumParts(row.parts, After(read.open));
    var k := AdvKey(id, read.open);
    if row.refunded then Refused(PurchaseRefunded)
    else if sum == 0 then Refused(NothingToAdvance)
    else if !PurchaseGuard(s, id, row) || s.card.open != read.open then Refused(CardMoved)
    else if k in s.items then Refused(NothingToAdvance)
    else
      var cur := s.purchases[id];
      Committed(s.(card := CardBump(s.card), items := (s.items - AdvanceDeletes(id, row.parts, read.open))[k := sum],
                   purchases := s.purchases[id := cur.(parts := AdvancedParts(row.parts, read.open), rev := cur.rev + 1)]))
  }

  /** The items after a refund: what was not billed goes, what was comes back as a credit on the open month. */
  function RefundedItems(items: map<ItemKey, Cents>, id: string, parts: seq<Part>, open: Month): map<ItemKey, Cents> {
    var kept := items - RefundDeletes(id, parts, open);
    var credit := SumParts(parts, Billed(open));
    if credit > 0 then kept[RefundKey(id, open) := -credit] else kept
  }

  function Refund(s: Store, read: CardRow, row: Purchase, id: string, date: Date): Outcome {
    if row.refunded then Refused(PurchaseRefunded)
    else if row.tx >= |s.log| || Reverse(s.log[row.tx], row.tx, date).None? then Refused(NotFound)
    else if row.tx in s.reversed && id in s.purchases && s.purchases[id].refunded then Refused(PurchaseRefunded)
    else if row.tx in s.reversed || !PurchaseGuard(s, id, row) || s.card.open != read.open then Refused(CardMoved)
    else if SumParts(row.parts, Billed(read.open)) > 0 && RefundKey(id, read.open) in s.items then Refused(Invalid)
    else
      Committed(s.(card := CardBump(s.card), items := RefundedItems(s.items, id, row.parts, read.open),
                   purchases := s.purchases[id := s.purchases[id].(refunded := true)],
                   log := s.log + [Reverse(s.log[row.tx], row.tx, date).value], reversed := s.reversed + {row.tx}))
  }

  /** A new label and, when it differs, a new category: the transaction is reversed and posted again. Amounts never change. */
  function EditPurchase(s: Store, row: Purchase, id: string, category: Account): Outcome {
    var moves := category != row.category;
    var tx := CardPurchase(CardOf(s), category, row.total, row.date);
    if row.refunded then Refused(PurchaseRefunded)
    else if moves && (!(category.Category? && category.expense) || tx.None?) then Refused(Invalid)
    else if moves && (row.tx >= |s.log| || Reverse(s.log[row.tx], row.tx, row.date).None?) then Refused(NotFound)
    else if !PurchaseGuard(s, id, row) || (moves && row.tx in s.reversed) then Refused(CardMoved)
    else if exists i :: 0 <= i < |row.parts| && KeyOf(id, row.parts[i]) !in s.items then Refused(MissingLine)
    else
      var cur := s.purchases[id];
      if !moves then Committed(s.(purchases := s.purchases[id := cur.(rev := cur.rev + 1)]))
      else
        Committed(Recategorized(s, id, category, row.tx, Reverse(s.log[row.tx], row.tx, row.date).value, tx.value))
  }

  /** The purchase under a new category: its transaction reversed by rev, and tx standing in its place. */
  function Recategorized(s: Store, id: string, category: Account, was: TxId, rev: Tx, tx: Tx): Store
    requires id in s.purchases
  {
    var cur := s.purchases[id];
    s.(purchases := s.purchases[id := cur.(category := category, tx := |s.log| + 1, rev := cur.rev + 1)],
       log := s.log + [rev, tx], reversed := s.reversed + {was})
  }

  /** The total a statement shows: the frozen one when closed, its items' sum otherwise. */
  ghost function StatementTotal(s: Store, m: Month): Cents {
    if m in s.frozen then s.frozen[m].total else SumWhere(s.items, On(m))
  }

  predicate ValidSettings(c: CardRow) { 1 <= c.closingDay <= 31 && 1 <= c.dueDay <= 31 }

  /** Month m frozen at total: its bill if it owes, the credit carried forward if it is owed. */
  function Closed(s: Store, m: Month, k: BillKey, bill: StatementBill): Store {
    var total := bill.amount;
    s.(card := s.card.(open := m + 1),
       frozen := s.frozen[m := Frozen(total, if total > 0 then Some(k) else None)],
       bills := if total > 0 then s.bills[k := bill] else s.bills,
       items := if total < 0 then s.items[CarryKey(m) := total] else s.items)
  }

  /** Closes read.open with the total summed from the rows read. */
  function Close(s: Store, read: CardRow, total: Cents): Outcome {
    var m := read.open;
    var k := BillKey(m, read.version);
    if !ValidSettings(read) || total > MAX_LEG_AMOUNT then Refused(Invalid)
    else if s.card.open != m || s.card.version != read.version || m in s.frozen
            || (total > 0 && k in s.bills) || (total < 0 && CarryKey(m) in s.items)
    then Refused(CardMoved)
    else Committed(Closed(s, m, k, StatementBill(total, read.paying, DueDate(m, read.closingDay, read.dueDay), Forecast, [])))
  }

  /** Month m open again, the bill or the carried credit its row f names withdrawn. */
  function Reopened(s: Store, m: Month, f: Frozen): Store
    requires f.bill.Some? ==> f.bill.value in s.bills
  {
    s.(card := s.card.(open := m, version := s.card.version + 1),
       frozen := s.frozen - {m},
       bills := if f.bill.Some? then s.bills[f.bill.value := s.bills[f.bill.value].(status := Canceled)] else s.bills,
       items := if f.bill.None? && f.total < 0 then s.items - {CarryKey(m)} else s.items)
  }

  /** Undoes the close of month m: row and bill are as they were read. */
  function Reopen(s: Store, read: CardRow, row: Option<Frozen>, bill: Option<StatementBill>, m: Month): Outcome {
    if read.archived || read.open != m + 1 || row.None? then Refused(NotReopenable)
    else
      var f := row.value;
      if f.bill.Some? && bill.None? then Refused(NotFound)
      else if f.bill.Some? && bill.value.status != Forecast then Refused(NotReopenable)
      else if s.card.open != m + 1 || s.card.version != read.version
              || (f.bill.Some? && !ForecastGuard(s, f.bill.value, bill.value))
      then Refused(CardMoved)
      else Committed(Reopened(s, m, f))
  }

  function FactsOf(s: Store, b: StatementBill, into: Option<Account>): Facts {
    Facts(Payable, b.amount, CardOf(s), if into.Some? then into.value else b.account, Some(CardOf(s)))
  }

  function Settled(s: Store, k: BillKey, tx: Tx, into: Option<Account>): Store
    requires k in s.bills
  {
    var b := s.bills[k];
    s.(bills := s.bills[k := b.(status := Paid, txs := b.txs + [|s.log|], account := if into.Some? then into.value else b.account)],
       log := s.log + [tx])
  }

  /** Pays a statement bill; into, when set, is the bank account whose line pays it. */
  function Settle(s: Store, read: StatementBill, k: BillKey, paid: Cents, difference: Option<Account>, date: Date, into: Option<Account>): Outcome {
    var tx := SettleBill(FactsOf(s, read, into), paid, difference, date);
    if read.status != Forecast then Refused(BillState)
    else if (difference.Some? && !difference.value.Category?) || tx.None? then Refused(Invalid)
    else if !ForecastGuard(s, k, read) then Refused(BillState)
    else Committed(Settled(s, k, tx.value, into))
  }

  /** The reversal of a bill's last transaction, as its undo builds it. */
  function UndoLast(s: Store, read: StatementBill, date: Date): Option<Tx> {
    if read.txs == [] || read.txs[|read.txs| - 1] >= |s.log| then None
    else Reverse(s.log[read.txs[|read.txs| - 1]], read.txs[|read.txs| - 1], date)
  }

  function Undone(s: Store, read: StatementBill, k: BillKey, from: Status, date: Date): Outcome {
    var tx := UndoLast(s, read, date);
    if read.status != from || read.txs == [] then Refused(BillState)
    else if tx.None? then Refused(Invalid)
    else
      var last := read.txs[|read.txs| - 1];
      if k !in s.bills || s.bills[k].status != from || |s.bills[k].txs| != |read.txs| || last in s.reversed then Refused(BillState)
      else
        var b := s.bills[k];
        Committed(s.(bills := s.bills[k := b.(status := Forecast, txs := b.txs + [|s.log|])],
                     log := s.log + [tx.value], reversed := s.reversed + {last}))
  }

  function Unsettle(s: Store, read: StatementBill, k: BillKey, date: Date): Outcome { Undone(s, read, k, Paid, date) }

  /** Restoring a canceled bill reverses its last transaction, taken to be the cancellation. */
  function Restore(s: Store, read: StatementBill, k: BillKey, date: Date): Outcome {
    if |read.txs| < 2 then Refused(BillState) else Undone(s, read, k, Canceled, date)
  }

  /** A direct cancel: only on an archived card, and nothing is posted. */
  function CancelBill(s: Store, archived: bool, read: StatementBill, k: BillKey): Outcome {
    if !archived || read.status != Forecast || !ForecastGuard(s, k, read) then Refused(BillState)
    else Committed(s.(bills := s.bills[k := s.bills[k].(status := Canceled)]))
  }

  /** A statement bill's account and due date may change; its amount comes from its purchases. */
  function EditBill(s: Store, read: StatementBill, k: BillKey, account: Account, due: Date): Outcome {
    if read.status != Forecast || !ForecastGuard(s, k, read) then Refused(BillState)
    else Committed(s.(bills := s.bills[k := s.bills[k].(account := account, due := due)]))
  }

  function UpdateCard(s: Store, closingDay: int, dueDay: int, paying: Account): Outcome {
    if !(1 <= closingDay <= 31 && 1 <= dueDay <= 31) then Refused(Invalid)
    else Committed(s.(card := s.card.(closingDay := closingDay, dueDay := dueDay, paying := paying)))
  }

  function Archive(s: Store): Outcome { Committed(s.(card := s.card.(archived := true))) }
}
