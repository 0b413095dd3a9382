/** Each bill operation keeps the books, however stale the read it was planned on. */
module BillSteps {
  import opened Calendar
  import opened Installments
  import opened Ledger
  import opened Sums
  import opened Bills
  import opened BillInvariant

  /** The bill read and the bill stored have the same history as far as its length can tell, hence the same money facts. */
  ghost predicate FreshBill(s: Store, id: string, read: Bill) {
    id in s.bills && |s.bills[id].txs| == |read.txs| ==>
      var b := s.bills[id];
      b.txs == read.txs && b.direction == read.direction && b.amount == read.amount && b.category == read.category && b.status == read.status
      && (b.status != Forecast ==> b.due == read.due)
  }

  lemma NetAbsent(legs: seq<Leg>, a: Account)
    requires forall i :: 0 <= i < |legs| ==> legs[i].account != a
    ensures NetLegs(legs, a) == 0
  {
    AccountsMention(legs, a);
  }

  // ---- posting on a bill ----

  lemma PostedBalances(s: Store, id: string, b: Bill, tx: Tx)
    ensures Balance(Posted(s, id, b, tx).log, Payables) == Balance(s.log, Payables) + Net(tx, Payables)
    ensures Balance(Posted(s, id, b, tx).log, Receivables) == Balance(s.log, Receivables) + Net(tx, Receivables)
  {
    Append(s.log, tx, Payables);
    Append(s.log, tx, Receivables);
  }

  lemma PostedStep(s: Store, id: string, b: Bill, tx: Tx)
    requires Apart(s)
    requires if id in s.bills then b.credited == s.bills[id].credited else b.credited == 0
    ensures BillStep(s, Posted(s, id, b, tx), id)
  {
  }

  /** The transactions before the one just posted still explain the bill. */
  lemma PostedExplains(s: Store, id: string, b: Bill, tx: Tx)
    requires TxsKnown(s.log, b.txs) && Explains(s.log, b.txs, b)
    ensures var t := Posted(s, id, b, tx);
            TxsKnown(t.log, t.bills[id].txs) && Init(t.bills[id]) == b.txs && Explains(t.log, Init(t.bills[id]), t.bills[id])
  {
    var t := Posted(s, id, b, tx);
    forall a ensures TxsNet(t.log, b.txs, a) == Recognized(t.bills[id], a) {
      TxsNetExtends(s.log, t.log, b.txs, a);
      assert Recognized(t.bills[id], a) == Recognized(b, a);
    }
  }

  /** The transactions with the one just posted explain the bill. */
  lemma PostedCompletes(s: Store, id: string, b: Bill, tx: Tx)
    requires TxsKnown(s.log, b.txs) && forall a :: TxsNet(s.log, b.txs, a) + Net(tx, a) == Recognized(b, a)
    ensures var t := Posted(s, id, b, tx);
            TxsKnown(t.log, t.bills[id].txs) && Explains(t.log, t.bills[id].txs, t.bills[id])
  {
    var t := Posted(s, id, b, tx);
    forall a ensures TxsNet(t.log, t.bills[id].txs, a) == Recognized(t.bills[id], a) {
      TxsNetAppend(s.log, tx, b.txs, a);
      assert Recognized(t.bills[id], a) == Recognized(b, a);
    }
  }

  lemma InvFrom(s: Store, t: Store, id: string)
    requires Inv(s) && BillStep(s, t, id) && BillOk(t, id)
    requires Balance(t.log, Payables) - Balance(s.log, Payables) == Held(t, id, Payable) - Held(s, id, Payable)
    requires Balance(t.log, Receivables) - Balance(s.log, Receivables) == Held(t, id, Receivable) - Held(s, id, Receivable)
    ensures Inv(t)
  {
    StepBills(s, t, id);
    StepControls(s, t, id, Payable);
    StepControls(s, t, id, Receivable);
  }

  lemma InvValid(s: Store, id: string)
    requires Inv(s) && id in s.bills
    ensures ValidBill(s.bills[id])
  {
    assert BillOk(s, id);
  }

  // ---- creating ----

  lemma NoNotes(s: Store, id: string)
    requires Apart(s) && id !in s.bills
    ensures SumWhere(NotesOf(s.notes, id), AnyNote()) == 0
  {
    SumNone(NotesOf(s.notes, id), AnyNote());
  }

  lemma CreateKeeps(s: Store, id: string, draft: Bill)
    requires Inv(s) && Create(s, id, draft).Committed?
    ensures Inv(Create(s, id, draft).store)
  {
    var b := draft.(status := Forecast, txs := [], credited := 0, listed := Some(draft.due),
                    scheduled := if draft.autoSettle then Some(draft.due) else None);
    CreatedRight(s, id, b, RecognizeBill(FactsOf(draft), draft.competence).value);
  }

  lemma CreatedRight(s: Store, id: string, b: Bill, tx: Tx)
    requires Inv(s) && id !in s.bills && ValidBill(b)
    requires b.status == Forecast && b.txs == [] && b.credited == 0 && b.listed == Some(b.due) && tx.legs == RecognizeLegs(FactsOf(b))
    ensures Inv(Posted(s, id, b, tx))
  {
    var t := Posted(s, id, b, tx);
    NoNotes(s, id);
    PostedStep(s, id, b, tx);
    PostedBalances(s, id, b, tx);
    PostedCompletes(s, id, b, tx);
    RecognizedControl(b, Payable);
    RecognizedControl(b, Receivable);
    InvFrom(s, t, id);
  }

  lemma RecordInvoiceKeeps(s: Store, id: string, draft: Bill, paid: Date)
    requires Inv(s) && RecordInvoice(s, id, draft, paid).Committed?
    ensures Inv(RecordInvoice(s, id, draft, paid).store)
  {
    var b := draft.(status := Paid, origin := BillingInvoice, txs := [], credited := 0, listed := None, scheduled := None);
    SettleClears(draft, draft.amount, None, paid);
    InvoicedRight(s, id, b, RecognizeBill(FactsOf(draft), draft.competence).value, SettleBill(FactsOf(draft), draft.amount, None, paid).value);
  }

  lemma InvoicedRight(s: Store, id: string, b: Bill, rec: Tx, settle: Tx)
    requires Inv(s) && id !in s.bills && ValidBill(b)
    requires b.status == Paid && b.txs == [] && b.credited == 0 && b.listed == None && rec.legs == RecognizeLegs(FactsOf(b))
    requires settle.kind == Settlement && ValidLegs(settle.legs) && Clears(settle, b)
    ensures var mid := Posted(s, id, b, rec);
            Inv(Posted(mid, id, mid.bills[id], settle))
  {
    var mid := Posted(s, id, b, rec);
    var t := Posted(mid, id, mid.bills[id], settle);
    NoNotes(s, id);
    PostedCompletes(s, id, b, rec);
    PostedExplains(mid, id, mid.bills[id], settle);
    PostedBalances(s, id, b, rec);
    PostedBalances(mid, id, mid.bills[id], settle);
    RecognizedControl(b, Payable);
    RecognizedControl(b, Receivable);
    InvoicedStep(s, id, b, rec, settle);
    assert BillOk(t, id);
    InvFrom(s, t, id);
  }

  lemma InvoicedStep(s: Store, id: string, b: Bill, rec: Tx, settle: Tx)
    requires Apart(s) && id !in s.bills && b.txs == [] && b.credited == 0
    ensures var mid := Posted(s, id, b, rec);
            BillStep(s, Posted(mid, id, mid.bills[id], settle), id)
  {
  }

  /** A settlement clears the bill's own control account by its amount and never touches the other. */
  lemma SettleClears(b: Bill, paid: Cents, difference: Option<Account>, date: Date)
    requires ValidBill(b) && (difference.Some? ==> difference.value.Category?)
    requires SettleBill(FactsOf(b), paid, difference, date).Some?
    ensures var tx := SettleBill(FactsOf(b), paid, difference, date).value;
            Clears(tx, b) && tx.kind == Settlement && ValidLegs(tx.legs)
  {
    SettleNets(FactsOf(b), paid, difference, date, Control(b.direction));
    NetAbsent(SettleLegs(FactsOf(b), paid, difference), if b.direction == Payable then Receivables else Payables);
  }

  // ---- settling and canceling ----

  lemma SettleKeeps(s: Store, read: Bill, id: string, paid: Cents, difference: Option<Account>, date: Date, into: Option<Account>)
    requires Inv(s) && FreshBill(s, id, read)
    requires Settle(s, read, id, paid, difference, date, into).Committed?
    ensures Inv(Settle(s, read, id, paid, difference, date, into).store)
  {
    assert BillOk(s, id);
    SettleClears(Into(read, into), paid, difference, date);
    SettledRight(s, id, Into(s.bills[id], into).(status := Paid, listed := None, scheduled := None),
                 SettleBill(FactsOf(Into(read, into)), paid, difference, date).value);
  }

  lemma SettledRight(s: Store, id: string, b: Bill, tx: Tx)
    requires Inv(s) && id in s.bills && s.bills[id].status == Forecast && ValidBill(b)
    requires b == s.bills[id].(account := b.account, status := Paid, listed := None, scheduled := None)
    requires tx.kind == Settlement && ValidLegs(tx.legs) && Clears(tx, b)
    ensures Inv(Posted(s, id, b, tx))
  {
    assert BillOk(s, id);
    SameRecognition(s.log, b.txs, s.bills[id], b);
    PostedStep(s, id, b, tx);
    PostedBalances(s, id, b, tx);
    PostedExplains(s, id, b, tx);
    InvFrom(s, Posted(s, id, b, tx), id);
  }

  lemma SameRecognition(log: seq<Tx>, txs: seq<TxId>, a: Bill, b: Bill)
    requires TxsKnown(log, txs) && Explains(log, txs, a) && a.direction == b.direction && a.amount == b.amount && a.category == b.category
    ensures Explains(log, txs, b)
  {
    forall x ensures TxsNet(log, txs, x) == Recognized(b, x) {
      assert Recognized(a, x) == Recognized(b, x);
    }
  }

  lemma CancelKeeps(s: Store, read: Bill, id: string, date: Date)
    requires Inv(s) && FreshBill(s, id, read)
    requires Cancel(s, read, id, date).Committed?
    ensures Inv(Cancel(s, read, id, date).store)
  {
    var tx, b := CancelBill(FactsOf(read), date).value, s.bills[id].(status := Canceled, listed := None, scheduled := None);
    assert BillOk(s, id);
    forall a ensures Net(tx, a) == -Recognized(b, a) {
      NegateNets(RecognizeLegs(FactsOf(read)), a);
    }
    CanceledRight(s, id, b, tx);
  }

  lemma CanceledRight(s: Store, id: string, b: Bill, tx: Tx)
    requires Inv(s) && id in s.bills && s.bills[id].status == Forecast
    requires b == s.bills[id].(status := Canceled, listed := None, scheduled := None)
    requires tx.kind == Adjustment && ValidLegs(tx.legs) && forall a :: Net(tx, a) == -Recognized(b, a)
    ensures Inv(Posted(s, id, b, tx))
  {
    assert BillOk(s, id);
    SameRecognition(s.log, b.txs, s.bills[id], b);
    PostedStep(s, id, b, tx);
    PostedBalances(s, id, b, tx);
    PostedExplains(s, id, b, tx);
    RecognizedControl(b, Payable);
    RecognizedControl(b, Receivable);
    InvFrom(s, Posted(s, id, b, tx), id);
  }

  // ---- undoing ----

  lemma UndoKeeps(s: Store, read: Bill, id: string, from: Status, date: Date)
    requires Inv(s) && FreshBill(s, id, read) && from != Forecast
    requires Undo(s, read, id, from, date).Committed?
    ensures Inv(Undo(s, read, id, from, date).store)
  {
    var last := read.txs[|read.txs| - 1];
    LastUndoable(s, id);
    ReverseUndoes(s.log[last], last, date);
    UndoneRight(s, id, Reverse(s.log[last], last, date).value);
  }

  lemma LastUndoable(s: Store, id: string)
    requires Inv(s) && id in s.bills && s.bills[id].status != Forecast
    ensures s.bills[id].txs != [] && Undoable(s, Last(s.bills[id]))
  {
    assert BillOk(s, id);
  }

  function Reopened(b: Bill): Bill { b.(status := Forecast, autoSettle := false, listed := Some(b.due)) }

  /** Posting the exact opposite of a bill's last transaction makes it a forecast its transactions explain again. */
  lemma UndoneRight(s: Store, id: string, tx: Tx)
    requires Inv(s) && id in s.bills && s.bills[id].status != Forecast && s.bills[id].txs != [] && Last(s.bills[id]) < |s.log|
    requires forall a :: Net(tx, a) == -Net(s.log[Last(s.bills[id])], a)
    ensures Inv(Posted(s, id, Reopened(s.bills[id]), tx).(reversed := s.reversed + {Last(s.bills[id])}))
  {
    var cur, b := s.bills[id], Reopened(s.bills[id]);
    var t := Posted(s, id, b, tx).(reversed := s.reversed + {Last(cur)});
    assert BillOk(s, id);
    PostedBalances(s, id, b, tx);
    UndoneExplains(s, id, b, tx);
    RecognizedControl(cur, Payable);
    RecognizedControl(cur, Receivable);
    UndoneStep(s, id, tx);
    assert BillOk(t, id);
    InvFrom(s, t, id);
  }

  lemma UndoneStep(s: Store, id: string, tx: Tx)
    requires Apart(s) && id in s.bills && s.bills[id].txs != [] && Last(s.bills[id]) < |s.log|
    ensures BillStep(s, Posted(s, id, Reopened(s.bills[id]), tx).(reversed := s.reversed + {Last(s.bills[id])}), id)
  {
  }

  lemma UndoneExplains(s: Store, id: string, b: Bill, tx: Tx)
    requires id in s.bills && s.bills[id].txs != [] && TxsKnown(s.log, s.bills[id].txs) && Explains(s.log, Init(s.bills[id]), s.bills[id])
    requires b == Reopened(s.bills[id])
    requires forall a :: Net(tx, a) == -Net(s.log[Last(s.bills[id])], a)
    ensures var t := Posted(s, id, b, tx);
            TxsKnown(t.log, t.bills[id].txs) && Explains(t.log, t.bills[id].txs, t.bills[id])
  {
    forall a ensures TxsNet(s.log, b.txs, a) + Net(tx, a) == Recognized(b, a) {
      assert Recognized(b, a) == Recognized(s.bills[id], a);
      assert TxsNet(s.log, Init(s.bills[id]), a) == Recognized(s.bills[id], a);
    }
    PostedCompletes(s, id, b, tx);
  }

  // ---- editing ----

  /** What an edit leaves on the row, for a read the guard accepted. */
  lemma EditRowFacts(cur: Bill, read: Bill, e: Change, txs: seq<TxId>)
    requires ValidBill(cur) && ValidBill(Edited(read, e)) && cur.direction == read.direction && cur.listed == Some(cur.due)
    requires cur.amount == read.amount && cur.category == read.category
    ensures var b, next := EditRow(cur, read, e, txs), Edited(read, e);
            && ValidBill(b) && b.listed == Some(b.due) && b.txs == txs && b.status == cur.status && b.credited == cur.credited
            && b.direction == cur.direction && b.amount == next.amount && b.category == next.category
  {
  }

  lemma EditKeeps(s: Store, read: Bill, id: string, e: Change)
    requires Inv(s) && FreshBill(s, id, read)
    requires Edit(s, read, id, e).Committed?
    ensures Inv(Edit(s, read, id, e).store)
  {
    if Edited(read, e) != read {
      var cur := s.bills[id];
      assert BillOk(s, id);
      EditRowFacts(cur, read, e, cur.txs);
      var b := EditRow(cur, read, e, cur.txs);
      if ChangesMoney(read, e) {
        var tx := AdjustBill(FactsOf(read), FactsOf(Edited(read, e)), read.competence).value;
        forall a ensures Net(tx, a) == Recognized(b, a) - Recognized(cur, a) {
          AdjustNets(FactsOf(read), FactsOf(Edited(read, e)), read.competence, a);
        }
        AdjustedRight(s, id, b, tx);
        assert Edit(s, read, id, e).store == Posted(s, id, b, tx);
      } else {
        RelabeledRight(s, id, b);
      }
    }
  }

  lemma AdjustedRight(s: Store, id: string, b: Bill, tx: Tx)
    requires Inv(s) && id in s.bills && s.bills[id].status == Forecast
    requires ValidBill(b) && b.listed == Some(b.due) && b.txs == s.bills[id].txs && b.status == Forecast
    requires b.credited == s.bills[id].credited && b.direction == s.bills[id].direction
    requires forall a :: Net(tx, a) == Recognized(b, a) - Recognized(s.bills[id], a)
    ensures Inv(Posted(s, id, b, tx))
  {
    assert BillOk(s, id);
    PostedStep(s, id, b, tx);
    PostedBalances(s, id, b, tx);
    forall a ensures TxsNet(s.log, b.txs, a) + Net(tx, a) == Recognized(b, a) {
      assert TxsNet(s.log, b.txs, a) == Recognized(s.bills[id], a);
    }
    PostedCompletes(s, id, b, tx);
    EditControls(s.bills[id], b, tx);
    InvFrom(s, Posted(s, id, b, tx), id);
  }

  lemma EditControls(cur: Bill, b: Bill, tx: Tx)
    requires ValidBill(cur) && ValidBill(b) && forall a :: Net(tx, a) == Recognized(b, a) - Recognized(cur, a)
    ensures Net(tx, Payables) == ControlAmount(b, Payable) - ControlAmount(cur, Payable)
    ensures Net(tx, Receivables) == ControlAmount(b, Receivable) - ControlAmount(cur, Receivable)
  {
    RecognizedControl(cur, Payable);
    RecognizedControl(cur, Receivable);
    RecognizedControl(b, Payable);
    RecognizedControl(b, Receivable);
  }

  /** A change of account, due date, description or auto-settle moves no money. */
  lemma RelabeledRight(s: Store, id: string, b: Bill)
    requires Inv(s) && id in s.bills && s.bills[id].status == Forecast
    requires ValidBill(b) && b.listed == Some(b.due) && b.txs == s.bills[id].txs && b.status == Forecast
    requires b.credited == s.bills[id].credited && b.direction == s.bills[id].direction
    requires b.amount == s.bills[id].amount && b.category == s.bills[id].category
    ensures Inv(s.(bills := s.bills[id := b]))
  {
    var t := s.(bills := s.bills[id := b]);
    assert BillOk(s, id);
    SameRecognition(s.log, b.txs, s.bills[id], b);
    assert BillStep(s, t, id);
    InvFrom(s, t, id);
  }

  // ---- credit notes ----

  lemma NotesGrow(notes: map<string, Note>, id: string, note: string, amount: Cents, x: string)
    requires note !in notes
    ensures SumWhere(NotesOf(notes[note := Note(id, amount)], x), AnyNote())
         == SumWhere(NotesOf(notes, x), AnyNote()) + (if x == id then amount else 0)
  {
    var more := notes[note := Note(id, amount)];
    if x == id {
      assert NotesOf(more, x) == NotesOf(notes, x)[note := amount];
      SumAdd(NotesOf(notes, x), AnyNote(), note, amount);
    } else {
      assert NotesOf(more, x) == NotesOf(notes, x);
    }
  }

  lemma NotedBill(s: Store, id: string, note: string, amount: Cents, tx: Tx, x: string)
    requires id in s.bills && note !in s.notes && x in s.bills && BillOk(s, x)
    ensures BillOk(Noted(s, id, note, s.bills[id].credited, amount, tx), x)
  {
    var t := Noted(s, id, note, s.bills[id].credited, amount, tx);
    NotesGrow(s.notes, id, note, amount, x);
    CreditedAlone(s, t, x);
  }

  /** A bill that changed only in what was credited, under a longer log. */
  lemma CreditedAlone(s: Store, t: Store, x: string)
    requires x in s.bills && x in t.bills && t.bills[x] == s.bills[x].(credited := t.bills[x].credited) && s.log <= t.log
    requires s.reversed == t.reversed && BillOk(s, x) && t.bills[x].credited == SumWhere(NotesOf(t.notes, x), AnyNote())
    ensures BillOk(t, x)
  {
    var b, c := s.bills[x], t.bills[x];
    forall a ensures Recognized(b, a) == Recognized(c, a) {
    }
    match b.status
    case Forecast =>
      ExplainsExtends(s.log, t.log, b.txs, b);
      SameRecognition(t.log, b.txs, b, c);
    case _ =>
      ExplainsExtends(s.log, t.log, Init(b), b);
      SameRecognition(t.log, Init(b), b, c);
  }

  lemma SameForecasts(s: Store, t: Store, d: Direction)
    requires t.bills.Keys == s.bills.Keys
    requires forall x :: x in s.bills ==> var b, c := s.bills[x], t.bills[x]; b.status == c.status && b.direction == c.direction && b.amount == c.amount
    requires Balance(t.log, Control(d)) == Balance(s.log, Control(d)) && Controls(s, d)
    ensures Controls(t, d)
  {
    assert Forecasts(t, d) == Forecasts(s, d);
  }

  lemma NotedControls(s: Store, id: string, note: string, amount: Cents, tx: Tx, d: Direction)
    requires id in s.bills && Controls(s, d) && Net(tx, Control(d)) == 0
    ensures Controls(Noted(s, id, note, s.bills[id].credited, amount, tx), d)
  {
    Append(s.log, tx, Control(d));
    SameForecasts(s, Noted(s, id, note, s.bills[id].credited, amount, tx), d);
  }

  lemma NotedApart(s: Store, id: string, note: string, amount: Cents, tx: Tx)
    requires id in s.bills && Apart(s)
    ensures Apart(Noted(s, id, note, s.bills[id].credited, amount, tx))
  {
    var t := Noted(s, id, note, s.bills[id].credited, amount, tx);
    assert forall x :: x in t.bills ==> x in s.bills && t.bills[x].txs == s.bills[x].txs;
  }

  lemma NotedKeeps(s: Store, id: string, note: string, amount: Cents, tx: Tx)
    requires Inv(s) && id in s.bills && note !in s.notes
    requires Net(tx, Payables) == 0 && Net(tx, Receivables) == 0
    ensures Inv(Noted(s, id, note, s.bills[id].credited, amount, tx))
  {
    var t := Noted(s, id, note, s.bills[id].credited, amount, tx);
    forall x | x in t.bills ensures BillOk(t, x) {
      assert BillOk(s, x);
      NotedBill(s, id, note, amount, tx, x);
    }
    NotedControls(s, id, note, amount, tx, Payable);
    NotedControls(s, id, note, amount, tx, Receivable);
    NotedApart(s, id, note, amount, tx);
  }

  /** A credit note moves the paying account and the category: no control account. */
  lemma CreditSpares(b: Bill, amount: Cents, date: Date)
    requires ValidBill(b) && CreditBill(FactsOf(b), amount, date).Some?
    ensures var tx := CreditBill(FactsOf(b), amount, date).value;
            Net(tx, Payables) == 0 && Net(tx, Receivables) == 0
  {
    var tx := CreditBill(FactsOf(b), amount, date).value;
    NetAbsent(tx.legs, Payables);
    NetAbsent(tx.legs, Receivables);
  }

  lemma CreditKeeps(s: Store, read: Bill, id: string, note: string, amount: Cents, date: Date)
    requires Inv(s) && ValidBill(read)
    requires Credit(s, read, id, note, amount, date).Committed?
    ensures Inv(Credit(s, read, id, note, amount, date).store)
  {
    CreditWrites(s, read, id, note, amount, date);
    CreditSpares(read, amount, date);
    NotedKeeps(s, id, note, amount, CreditBill(FactsOf(read), amount, date).value);
  }

  lemma CreditWrites(s: Store, read: Bill, id: string, note: string, amount: Cents, date: Date)
    requires Credit(s, read, id, note, amount, date).Committed?
    ensures id in s.bills && note !in s.notes && CreditBill(FactsOf(read), amount, date).Some?
    ensures Credit(s, read, id, note, amount, date).store
         == Noted(s, id, note, s.bills[id].credited, amount, CreditBill(FactsOf(read), amount, date).value)
  {
  }
}
