/**
 Payables and receivables: creation with recognition, edits, settlement, cancellation and their undoing, paid invoices and
 their credit notes (repositories/bills.go, repositories/finance_invoices.go). An operation takes the bill it READ and the
 store it commits to. Bills made from card statements are modelled with the card.
 */
module Bills {
  import opened Calendar
  import opened Installments
  import opened Ledger
  import opened Sums

  datatype Origin = Manual | Recurrence | BillingInvoice | Import

  /** listed and scheduled are the sparse index keys: the open list by due date, and the auto-settle work list. */
  datatype Bill = Bill(direction: Direction, amount: Cents, account: Account, category: Account, description: string,
                       competence: Date, due: Date, status: Status, origin: Origin, autoSettle: bool,
                       txs: seq<TxId>, credited: Cents, listed: Option<Date>, scheduled: Option<Date>)

  /** A posted credit note. */
  datatype Note = Note(bill: string, amount: Cents)

  datatype Store = Store(bills: map<string, Bill>, notes: map<string, Note>, log: seq<Tx>, reversed: set<TxId>)

  datatype Error = Exists | Invalid | NotFound | BillState | AlreadyPosted | Moved

  datatype Outcome = Committed(store: Store) | Refused(error: Error)

  datatype Change = Change(amount: Option<Cents>, category: Option<Account>, account: Option<Account>,
                           description: Option<string>, due: Option<Date>, autoSettle: Option<bool>)

  function FactsOf(b: Bill): Facts { Facts(b.direction, b.amount, b.category, b.account, None) }

  /** The amount and the classes of the accounts a bill may name. */
  predicate ValidBill(b: Bill) {
    && 0 < b.amount <= MAX_LEG_AMOUNT
    && b.category.Category? && b.category.expense == (b.direction == Payable)
    && b.account.Cash?
  }

  predicate ForecastGuard(s: Store, id: string, read: Bill) {
    && id in s.bills && s.bills[id].status == Forecast && |s.bills[id].txs| == |read.txs|
    && s.bills[id].account == read.account && s.bills[id].due == read.due
  }

  // ---- operations ----

  function Create(s: Store, id: string, draft: Bill): Outcome {
    var tx := RecognizeBill(FactsOf(draft), draft.competence);
    if !ValidBill(draft) || tx.None? then Refused(Invalid)
    else if id in s.bills then Refused(Exists)
    else
      var b := draft.(status := Forecast, txs := [], credited := 0, listed := Some(draft.due),
                      scheduled := if draft.autoSettle then Some(draft.due) else None);
      Committed(Posted(s, id, b, tx.value))
  }

  /** The bill after e, on the bill as read. */
  function Edited(read: Bill, e: Change): Bill {
    read.(amount := Get(e.amount, read.amount), category := Get(e.category, read.category), account := Get(e.account, read.account),
          description := Get(e.description, read.description), due := Get(e.due, read.due), autoSettle := Get(e.autoSettle, read.autoSettle))
  }

  function Get<T>(o: Option<T>, current: T): T { if o.Some? then o.value else current }

  predicate ChangesMoney(read: Bill, e: Change) { Edited(read, e).amount != read.amount || Edited(read, e).category != read.category }

  /** The row written: only attributes that differ from those read are set; the rest stay as stored. */
  function EditRow(cur: Bill, read: Bill, e: Change, txs: seq<TxId>): Bill {
    var next := Edited(read, e);
    cur.(amount := if ChangesMoney(read, e) then next.amount else cur.amount,
         category := if ChangesMoney(read, e) then next.category else cur.category,
         account := if next.account != read.account then next.account else cur.account,
         description := if next.description != read.description then next.description else cur.description,
         due := if next.due != read.due then next.due else cur.due,
         listed := if next.due != read.due then Some(next.due) else cur.listed,
         autoSettle := if next.autoSettle != read.autoSettle then next.autoSettle else cur.autoSettle,
         scheduled := if next.autoSettle then (if next.autoSettle != read.autoSettle || next.due != read.due then Some(next.due) else cur.scheduled)
                      else if read.autoSettle then None else cur.scheduled,
         txs := txs)
  }

  function Edit(s: Store, read: Bill, id: string, e: Change): Outcome {
    var next := Edited(read, e);
    var tx := AdjustBill(FactsOf(read), FactsOf(next), read.competence);
    if read.status != Forecast then Refused(BillState)
    else if !ValidBill(next) || (ChangesMoney(read, e) && tx.None?) then Refused(Invalid)
    else if next == read then Committed(s)
    else if !ForecastGuard(s, id, read) then Refused(BillState)
    else
      var cur := s.bills[id];
      if ChangesMoney(read, e) then
        Committed(s.(bills := s.bills[id := EditRow(cur, read, e, cur.txs + [|s.log|])], log := s.log + [tx.value]))
      else Committed(s.(bills := s.bills[id := EditRow(cur, read, e, cur.txs)]))
  }

  function Into(b: Bill, into: Option<Account>): Bill { b.(account := Get(into, b.account)) }

  /** Marks the bill with one more transaction and takes it off the work lists. */
  function Posted(s: Store, id: string, b: Bill, tx: Tx): Store {
    s.(bills := s.bills[id := b.(txs := b.txs + [|s.log|])], log := s.log + [tx])
  }

  function Settle(s: Store, read: Bill, id: string, paid: Cents, difference: Option<Account>, date: Date, into: Option<Account>): Outcome {
    var tx := SettleBill(FactsOf(Into(read, into)), paid, difference, date);
    if read.status != Forecast then Refused(BillState)
    else if (difference.Some? && !difference.value.Category?) || (into.Some? && !into.value.Cash?) || tx.None? then Refused(Invalid)
    else if !ForecastGuard(s, id, read) then Refused(BillState)
    else Committed(Posted(s, id, Into(s.bills[id], into).(status := Paid, listed := None, scheduled := None), tx.value))
  }

  function Cancel(s: Store, read: Bill, id: string, date: Date): Outcome {
    var tx := CancelBill(FactsOf(read), date);
    if read.status != Forecast then Refused(BillState)
    else if tx.None? then Refused(Invalid)
    else if !ForecastGuard(s, id, read) then Refused(BillState)
    else Committed(Posted(s, id, s.bills[id].(status := Canceled, listed := None, scheduled := None), tx.value))
  }

  /** Undoes the last transaction of a paid or canceled bill; auto-settle is turned off. */
  function Undo(s: Store, read: Bill, id: string, from: Status, date: Date): Outcome {
    if read.status != from || |read.txs| < (if from == Paid then 1 else 2) then Refused(BillState)
    else
      var last := read.txs[|read.txs| - 1];
      if last >= |s.log| then Refused(NotFound)
      else
        var tx := Reverse(s.log[last], last, date);
        if tx.None? then Refused(Invalid)
        else if id !in s.bills || s.bills[id].status != from || |s.bills[id].txs| != |read.txs| || last in s.reversed then Refused(BillState)
        else
          var b := s.bills[id];
          Committed(Posted(s, id, b.(status := Forecast, autoSettle := false, listed := Some(read.due)), tx.value)
                    .(reversed := s.reversed + {last}))
  }

  function Unsettle(s: Store, read: Bill, id: string, date: Date): Outcome { Undo(s, read, id, Paid, date) }

  function Restore(s: Store, read: Bill, id: string, date: Date): Outcome { Undo(s, read, id, Canceled, date) }

  /** A paid invoice: the bill created and settled in one write, conditional on its absence. */
  function RecordInvoice(s: Store, id: string, draft: Bill, paid: Date): Outcome {
    var rec, settle := RecognizeBill(FactsOf(draft), draft.competence), SettleBill(FactsOf(draft), draft.amount, None, paid);
    if !ValidBill(draft) || rec.None? || settle.None? then Refused(Invalid)
    else if id in s.bills then Refused(Exists)
    else
      var b := draft.(status := Paid, origin := BillingInvoice, txs := [], credited := 0, listed := None, scheduled := None);
      var recognised := Posted(s, id, b, rec.value);
      Committed(Posted(recognised, id, recognised.bills[id], settle.value))
  }

  /** One attempt to post a credit note against the bill as read: the note's header is put once, credited moves by compare-and-set. */
  function Credit(s: Store, read: Bill, id: string, note: string, amount: Cents, date: Date): Outcome {
    var tx := CreditBill(FactsOf(read), amount, date);
    if read.status != Paid then Refused(BillState)
    else if amount > read.amount - read.credited || tx.None? then Refused(Invalid)
    else if note in s.notes then Refused(AlreadyPosted)
    else if id !in s.bills || s.bills[id].status != Paid || s.bills[id].credited != read.credited then Refused(Moved)
    else Committed(Noted(s, id, note, read.credited, amount, tx.value))
  }

  function Noted(s: Store, id: string, note: string, before: Cents, amount: Cents, tx: Tx): Store
    requires id in s.bills
  {
    s.(bills := s.bills[id := s.bills[id].(credited := before + amount)],
       notes := s.notes[note := Note(id, amount)], log := s.log + [tx])
  }
}
