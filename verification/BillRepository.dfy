/**
 The bill operations as the repository performs them, on stored rows it updates in place: each plans on a row it read and
 commits, all or nothing, under its guard. Every method is proved to do exactly what the transaction model says; the two
 retry loops run with other writers in between.
 */
module BillRepository {
  import opened Calendar
  import opened Installments
  import opened Ledger
  import opened Bills
  import opened BillInvariant
  import opened BillSteps
  import opened BillRuns
  import BillMoves

  /** Attempts at a write that loses races before giving up. */
  const RECORD_ATTEMPTS := 3

  /** An answer and the store it leaves are those of the model's outcome. */
  ghost predicate Answers(was: Store, now: Store, o: Outcome, r: Option<Error>) {
    match o
    case Committed(t) => r.None? && now == t
    case Refused(e) => r == Some(e) && now == was
  }

  class Ledgered {
    var bills: map<string, Bill>
    var notes: map<string, Note>
    var log: seq<Tx>
    var reversed: set<TxId>

    ghost function Now(): Store
      reads this
    {
      Store(bills, notes, log, reversed)
    }

    constructor ()
      ensures Now() == Empty && Inv(Now())
    {
      bills, notes, log, reversed := map[], map[], [], {};
      new;
      EmptyInv();
    }

    method Create(id: string, draft: Bill) returns (r: Option<Error>)
      modifies this
      ensures Answers(old(Now()), Now(), Bills.Create(old(Now()), id, draft), r)
    {
      var tx := RecognizeBill(FactsOf(draft), draft.competence);
      if !ValidBill(draft) || tx.None? {
        return Some(Invalid);
      }
      if id in bills {
        return Some(Exists);
      }
      var scheduled := if draft.autoSettle then Some(draft.due) else None;
      var b := draft.(status := Forecast, txs := [|log|], credited := 0, listed := Some(draft.due), scheduled := scheduled);
      assert [] + [|log|] == [|log|];
      bills, log := bills[id := b], log + [tx.value];
      return None;
    }

    /** Still a forecast, with the transaction list, account and due date it was read with. */
    predicate Guard(id: string, read: Bill)
      reads this
    {
      && id in bills && bills[id].status == Forecast && |bills[id].txs| == |read.txs|
      && bills[id].account == read.account && bills[id].due == read.due
    }

    method Edit(read: Bill, id: string, e: Change) returns (r: Option<Error>)
      modifies this
      ensures Answers(old(Now()), Now(), Bills.Edit(old(Now()), read, id, e), r)
    {
      if read.status != Forecast {
        return Some(BillState);
      }
      var next := Edited(read, e);
      if !ValidBill(next) {
        return Some(Invalid);
      }
      var money := next.amount != read.amount || next.category != read.category;
      var tx := None;
      if money {
        tx := BuildAdjustment(FactsOf(read), FactsOf(next), read.competence);
        if tx.None? {
          return Some(Invalid);
        }
      }
      if next == read {
        return None;
      }
      if !Guard(id, read) {
        return Some(BillState);
      }
      var row := SetAttributes(bills[id], read, next);
      if money {
        row := row.(amount := next.amount, category := next.category, txs := row.txs + [|log|]);
        log := log + [tx.value];
      }
      bills := bills[id := row];
      return None;
    }

    /** The attributes without ledger effect, each set only where the edit changed it, and the work-list keys that follow. */
    static method SetAttributes(cur: Bill, read: Bill, next: Bill) returns (row: Bill)
      ensures row == cur.(account := if next.account != read.account then next.account else cur.account,
                          description := if next.description != read.description then next.description else cur.description,
                          due := if next.due != read.due then next.due else cur.due,
                          listed := if next.due != read.due then Some(next.due) else cur.listed,
                          autoSettle := if next.autoSettle != read.autoSettle then next.autoSettle else cur.autoSettle,
                          scheduled := if next.autoSettle
                                       then (if next.autoSettle != read.autoSettle || next.due != read.due then Some(next.due) else cur.scheduled)
                                       else if read.autoSettle then None else cur.scheduled)
    {
      row := cur;
      if next.account != read.account {
        row := row.(account := next.account);
      }
      if next.description != read.description {
        row := row.(description := next.description);
      }
      if next.due != read.due {
        row := row.(due := next.due, listed := Some(next.due));
      }
      if next.autoSettle != read.autoSettle {
        row := row.(autoSettle := next.autoSettle);
      }
      if next.autoSettle {
        if next.autoSettle != read.autoSettle || next.due != read.due {
          row := row.(scheduled := Some(next.due));
        }
      } else if read.autoSettle {
        row := row.(scheduled := None);
      }
    }

    method Settle(read: Bill, id: string, paid: Cents, difference: Option<Account>, date: Date, into: Option<Account>) returns (r: Option<Error>)
      modifies this
      ensures Answers(old(Now()), Now(), Bills.Settle(old(Now()), read, id, paid, difference, date, into), r)
    {
      if read.status != Forecast {
        return Some(BillState);
      }
      var settled := if into.Some? then read.(account := into.value) else read;
      var tx := SettleBill(FactsOf(settled), paid, difference, date);
      if (difference.Some? && !difference.value.Category?) || (into.Some? && !into.value.Cash?) || tx.None? {
        return Some(Invalid);
      }
      if !Guard(id, read) {
        return Some(BillState);
      }
      var row := bills[id].(status := Paid, listed := None, scheduled := None, txs := bills[id].txs + [|log|]);
      if into.Some? {
        row := row.(account := into.value);
      }
      bills, log := bills[id := row], log + [tx.value];
      return None;
    }

    method Cancel(read: Bill, id: string, date: Date) returns (r: Option<Error>)
      modifies this
      ensures Answers(old(Now()), Now(), Bills.Cancel(old(Now()), read, id, date), r)
    {
      if read.status != Forecast {
        return Some(BillState);
      }
      var tx := CancelBill(FactsOf(read), date);
      if tx.None? {
        return Some(Invalid);
      }
      if !Guard(id, read) {
        return Some(BillState);
      }
      bills := bills[id := bills[id].(status := Canceled, listed := None, scheduled := None, txs := bills[id].txs + [|log|])];
      log := log + [tx.value];
      return None;
    }

    method Unsettle(read: Bill, id: string, date: Date) returns (r: Option<Error>)
      modifies this
      ensures Answers(old(Now()), Now(), Bills.Unsettle(old(Now()), read, id, date), r)
    {
      if read.status != Paid || |read.txs| == 0 {
        return Some(BillState);
      }
      r := ReverseLast(read, id, Paid, date);
    }

    method RestoreCancelled(read: Bill, id: string, date: Date) returns (r: Option<Error>)
      modifies this
      ensures Answers(old(Now()), Now(), Bills.Restore(old(Now()), read, id, date), r)
    {
      if read.status != Canceled || |read.txs| < 2 {
        return Some(BillState);
      }
      r := ReverseLast(read, id, Canceled, date);
    }

    method ReverseLast(read: Bill, id: string, from: Status, date: Date) returns (r: Option<Error>)
      requires read.status == from && |read.txs| >= (if from == Paid then 1 else 2)
      modifies this
      ensures Answers(old(Now()), Now(), Undo(old(Now()), read, id, from, date), r)
    {
      var last := read.txs[|read.txs| - 1];
      if last >= |log| {
        return Some(NotFound);
      }
      var tx := Reverse(log[last], last, date);
      if tx.None? {
        return Some(Invalid);
      }
      if id !in bills || bills[id].status != from || |bills[id].txs| != |read.txs| || last in reversed {
        return Some(BillState);
      }
      bills := bills[id := bills[id].(status := Forecast, autoSettle := false, listed := Some(read.due), txs := bills[id].txs + [|log|])];
      log, reversed := log + [tx.value], reversed + {last};
      return None;
    }

    method PostNote(read: Bill, id: string, note: string, amount: Cents, date: Date) returns (r: Option<Error>)
      modifies this
      ensures Answers(old(Now()), Now(), Credit(old(Now()), read, id, note, amount, date), r)
    {
      if read.status != Paid {
        return Some(BillState);
      }
      var tx := CreditBill(FactsOf(read), amount, date);
      if amount > read.amount - read.credited || tx.None? {
        return Some(Invalid);
      }
      if note in notes {
        return Some(AlreadyPosted);
      }
      if id !in bills || bills[id].status != Paid || bills[id].credited != read.credited {
        return Some(Moved);
      }
      bills := bills[id := bills[id].(credited := read.credited + amount)];
      notes, log := notes[note := Note(id, amount)], log + [tx.value];
      return None;
    }

    method PutInvoice(id: string, draft: Bill, paid: Date) returns (r: Option<Error>)
      modifies this
      ensures Answers(old(Now()), Now(), Bills.RecordInvoice(old(Now()), id, draft, paid), r)
    {
      var rec := RecognizeBill(FactsOf(draft), draft.competence);
      var settle := SettleBill(FactsOf(draft), draft.amount, None, paid);
      if !ValidBill(draft) || rec.None? || settle.None? {
        return Some(Invalid);
      }
      if id in bills {
        return Some(Exists);
      }
      var b := draft.(status := Paid, origin := BillingInvoice, txs := [|log|, |log| + 1], credited := 0, listed := None, scheduled := None);
      assert log + [rec.value] + [settle.value] == log + [rec.value, settle.value];
      assert [] + [|log|] + [|log| + 1] == [|log|, |log| + 1];
      bills, log := bills[id := b], log + [rec.value, settle.value];
      return None;
    }

    // ---- retry loops among other writers ----

    method Commit(read: Bill, st: Step) returns (r: Option<Error>)
      requires Reads(st)
      modifies this
      ensures Answers(old(Now()), Now(), Apply(old(Now()), read, st), r)
    {
      match st
      case Editing(_, id, change) => r := Edit(read, id, change);
      case Settling(_, id, paid, difference, date, into) => r := Settle(read, id, paid, difference, date, into);
      case Canceling(_, id, date) => r := Cancel(read, id, date);
      case Unsettling(_, id, date) => r := Unsettle(read, id, date);
      case Restoring(_, id, date) => r := RestoreCancelled(read, id, date);
      case Crediting(_, id, note, amount, date) => r := PostNote(read, id, note, amount, date);
    }

    /** Any number of other operations, each on the row as it stands; none if calm. */
    method Others(calm: bool)
      requires Inv(Now())
      modifies this
      ensures Inv(Now()) && Later(old(Now()), Now()) && (calm ==> Now() == old(Now()))
    {
      var n: nat := *;
      if calm {
        return;
      }
      while n > 0
        invariant Inv(Now()) && Later(old(Now()), Now())
      {
        var st: Step := *;
        ghost var was := Now();
        OneOther(st);
        LaterTrans(old(Now()), was, Now());
        n := n - 1;
      }
    }

    method OneOther(st: Step)
      requires Inv(Now())
      modifies this
      ensures Inv(Now()) && Later(old(Now()), Now())
    {
      if st.Invoicing? {
        var r := PutInvoice(st.id, st.draft, st.date);
        InvoiceAnswer(old(Now()), Now(), st.id, st.draft, st.date, r);
      } else if Reads(st) && st.id in bills {
        var r := Commit(bills[st.id], st);
        CommitAnswer(old(Now()), Now(), st, r);
      }
    }

    /** Records a paid invoice. The first look may miss a bill just written; a write that conflicts is tried again. */
    method RecordInvoice(id: string, draft: Bill, paid: Date, calm: bool) returns (created: bool, r: Option<Error>)
      requires Inv(Now())
      modifies this
      ensures Inv(Now()) && Later(old(Now()), Now())
      ensures r.None? ==> id in bills
      ensures created ==> r.None? && id !in old(bills) && bills[id].origin == BillingInvoice && bills[id].status == Paid
      ensures id in old(bills) ==> !created
      ensures calm && ValidBill(draft) ==> r.None? && created == (id !in old(bills))
      ensures calm && created ==> Committed(Now()) == Bills.RecordInvoice(old(Now()), id, draft, paid)
      ensures calm && !created ==> Now() == old(Now())
    {
      var attempt := 1;
      while true
        invariant 1 <= attempt <= RECORD_ATTEMPTS && Inv(Now()) && Later(old(Now()), Now())
        invariant calm ==> Now() == old(Now())
        decreases RECORD_ATTEMPTS - attempt
      {
        var seen: bool := *;
        if seen && id in bills {
          return false, None;
        }
        ghost var before := Now();
        Others(calm);
        LaterTrans(old(Now()), before, Now());
        var conflict: bool := *;
        if !conflict || calm {
          ghost var was := Now();
          r := PutInvoice(id, draft, paid);
          InvoiceAnswer(was, Now(), id, draft, paid, r);
          InvoiceGoesIn(was, Now(), id, draft, paid, r);
          LaterTrans(old(Now()), was, Now());
          if r == Some(Exists) {
            return false, None;
          }
          return r.None?, r;
        }
        if attempt == RECORD_ATTEMPTS {
          return false, Some(Moved);
        }
        attempt := attempt + 1;
      }
    }

    /** Posts a credit note: a lost race is tried again from a fresh read, a note already posted is acknowledged. */
    method RecordInvoiceCredit(id: string, note: string, amount: Cents, date: Date, calm: bool) returns (posted: bool, r: Option<Error>)
      requires Inv(Now())
      modifies this
      ensures Inv(Now()) && Later(old(Now()), Now())
      ensures posted ==> r.None? && note !in old(notes) && note in notes && notes[note] == Note(id, amount)
      ensures r.None? && !posted ==> note in notes
      ensures note in old(notes) ==> !posted
      ensures calm ==> AnswersCalm(old(Now()), Now(), id, note, amount, date, posted, r)
    {
      var attempt := 1;
      while true
        invariant 1 <= attempt <= RECORD_ATTEMPTS && Inv(Now()) && Later(old(Now()), Now())
        invariant calm ==> Now() == old(Now())
        decreases RECORD_ATTEMPTS - attempt
      {
        if id !in bills {
          return false, Some(NotFound);
        }
        var read := bills[id];
        InvValid(Now(), id);
        ghost var before := Now();
        Others(calm);
        LaterTrans(old(Now()), before, Now());
        ghost var was := Now();
        r := PostNote(read, id, note, amount, date);
        NoteAnswer(was, Now(), read, id, note, amount, date, r);
        NoteRow(was, read, id, note, amount, date);
        LaterTrans(old(Now()), was, Now());
        if r == Some(AlreadyPosted) {
          return false, None;
        }
        if r != Some(Moved) {
          return r.None?, r;
        }
        if attempt == RECORD_ATTEMPTS {
          return false, Some(Moved);
        }
        attempt := attempt + 1;
      }
    }
  }

  lemma CommitAnswer(was: Store, now: Store, st: Step, r: Option<Error>)
    requires Inv(was) && Reads(st) && st.id in was.bills && Answers(was, now, Apply(was, was.bills[st.id], st), r)
    ensures Inv(now) && Later(was, now)
  {
    if Apply(was, was.bills[st.id], st).Committed? {
      assert BillOk(was, st.id);
      ApplyKeeps(was, was.bills[st.id], st);
      ApplyLater(was, was.bills[st.id], st);
    }
  }

  lemma InvoiceRow(was: Store, id: string, draft: Bill, paid: Date)
    ensures var o := Bills.RecordInvoice(was, id, draft, paid);
            && (o.Committed? ==> Later(was, o.store) && id !in was.bills && id in o.store.bills)
            && (o.Committed? ==> o.store.bills[id].origin == BillingInvoice && o.store.bills[id].status == Paid)
            && (o == Refused(Exists) ==> id in was.bills)
  {
    var o := Bills.RecordInvoice(was, id, draft, paid);
    if o.Committed? {
      LaterFrom(was, o.store, id);
    }
  }

  /** A valid invoice is refused only because its bill is there already. */
  lemma InvoiceGoesIn(was: Store, now: Store, id: string, draft: Bill, paid: Date, r: Option<Error>)
    requires Answers(was, now, Bills.RecordInvoice(was, id, draft, paid), r)
    ensures r == Some(Exists) ==> id in was.bills
    ensures ValidBill(draft) ==> r == if id in was.bills then Some(Exists) else None
    ensures if r.None? then Committed(now) == Bills.RecordInvoice(was, id, draft, paid) else now == was
  {
    BillMoves.InvoiceMakes(was, id, draft, paid, draft.account);
  }

  lemma InvoiceAnswer(was: Store, now: Store, id: string, draft: Bill, paid: Date, r: Option<Error>)
    requires Inv(was) && Answers(was, now, Bills.RecordInvoice(was, id, draft, paid), r)
    ensures Inv(now) && Later(was, now)
    ensures r.None? ==> id !in was.bills && id in now.bills && now.bills[id].origin == BillingInvoice && now.bills[id].status == Paid
    ensures r == Some(Exists) ==> id in now.bills
  {
    var o := Bills.RecordInvoice(was, id, draft, paid);
    InvoiceRow(was, id, draft, paid);
    if o.Committed? {
      RecordInvoiceKeeps(was, id, draft, paid);
    }
  }

  lemma NoteRow(was: Store, read: Bill, id: string, note: string, amount: Cents, date: Date)
    ensures var o := Credit(was, read, id, note, amount, date);
            && (o.Committed? ==> note !in was.notes && note in o.store.notes && o.store.notes[note] == Note(id, amount))
            && (o == Refused(AlreadyPosted) ==> note in was.notes)
  {
  }

  /** With nothing in between the answer is that of one attempt on the bill as it stands, a repeat acknowledged. */
  ghost predicate AnswersCalm(was: Store, now: Store, id: string, note: string, amount: Cents, date: Date, posted: bool, r: Option<Error>) {
    if id !in was.bills then !posted && r == Some(NotFound) && now == was
    else
      var o := Credit(was, was.bills[id], id, note, amount, date);
      && posted == o.Committed? && now == (if o.Committed? then o.store else was)
      && (r.None? <==> o.Committed? || o == Refused(AlreadyPosted)) && (r.Some? ==> o == Refused(r.value))
  }

  lemma NoteAnswer(was: Store, now: Store, read: Bill, id: string, note: string, amount: Cents, date: Date, r: Option<Error>)
    requires Inv(was) && ValidBill(read) && Answers(was, now, Credit(was, read, id, note, amount, date), r)
    ensures Inv(now) && Later(was, now)
  {
    if Credit(was, read, id, note, amount, date).Committed? {
      CreditKeeps(was, read, id, note, amount, date);
      CreditLater(was, read, id, note, amount, date);
    }
  }
}
