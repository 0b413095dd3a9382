/**
 Every interleaving of the bill operations: a run is the sequence of stores the commits produced, and each commit was
 planned on a row read anywhere earlier in the run.
 */
module BillRuns {
  import opened Calendar
  import opened Installments
  import opened Ledger
  import opened Sums
  import opened Bills
  import opened BillInvariant
  import opened BillSteps

  /** A committed operation; at is the position in the run where it read its bill. Elsewhere is any other posting of the space. */
  datatype Step =
    | Creating(id: string, draft: Bill)
    | Invoicing(id: string, draft: Bill, date: Date)
    | Editing(at: nat, id: string, change: Change)
    | Settling(at: nat, id: string, paid: Cents, difference: Option<Account>, date: Date, into: Option<Account>)
    | Canceling(at: nat, id: string, date: Date)
    | Unsettling(at: nat, id: string, date: Date)
    | Restoring(at: nat, id: string, date: Date)
    | Crediting(at: nat, id: string, note: string, amount: Cents, date: Date)
    | Elsewhere(tx: Tx)

  predicate Reads(st: Step) { !(st.Creating? || st.Invoicing? || st.Elsewhere?) }

  predicate InTime(st: Step, k: nat) { Reads(st) ==> st.at <= k }

  /** st committed on s, planned on the bill read. */
  function Apply(s: Store, read: Bill, st: Step): Outcome
    requires Reads(st)
  {
    match st
    case Editing(_, id, change) => Edit(s, read, id, change)
    case Settling(_, id, paid, difference, date, into) => Settle(s, read, id, paid, difference, date, into)
    case Canceling(_, id, date) => Cancel(s, read, id, date)
    case Unsettling(_, id, date) => Unsettle(s, read, id, date)
    case Restoring(_, id, date) => Restore(s, read, id, date)
    case Crediting(_, id, note, amount, date) => Credit(s, read, id, note, amount, date)
  }

  function Exec(tr: seq<Store>, st: Step): Outcome
    requires |tr| > 0 && InTime(st, |tr| - 1)
  {
    var s := tr[|tr| - 1];
    match st
    case Creating(id, draft) => Create(s, id, draft)
    case Invoicing(id, draft, date) => RecordInvoice(s, id, draft, date)
    case Elsewhere(tx) =>
      if Net(tx, Payables) == 0 && Net(tx, Receivables) == 0 then Committed(s.(log := s.log + [tx])) else Refused(Invalid)
    case _ => if st.id in tr[st.at].bills then Apply(s, tr[st.at].bills[st.id], st) else Refused(NotFound)
  }

  ghost predicate Follows(tr: seq<Store>, steps: seq<Step>, k: nat)
    requires |tr| == |steps| + 1 && k < |steps|
  {
    InTime(steps[k], k) && Exec(tr[..k + 1], steps[k]) == Committed(tr[k + 1])
  }

  const Empty: Store := Store(map[], map[], [], {})

  ghost predicate Run(tr: seq<Store>, steps: seq<Step>) {
    && |tr| == |steps| + 1
    && tr[0] == Empty
    && forall k {:trigger Follows(tr, steps, k)} :: 0 <= k < |steps| ==> Follows(tr, steps, k)
  }

  // ---- what a bill's transaction list tells about its past ----

  /** b is a after any number of commits: the list only grows, and while it has not, neither has the money changed. */
  ghost predicate BillLater(a: Bill, b: Bill) {
    && a.txs <= b.txs && a.direction == b.direction && a.credited <= b.credited
    && (|a.txs| == |b.txs| ==> a.status == b.status && a.amount == b.amount && a.category == b.category)
    && (|a.txs| == |b.txs| && a.status != Forecast ==> a.(credited := b.credited) == b)
  }

  ghost predicate Later(s: Store, t: Store) {
    && s.log <= t.log
    && (forall n :: n in s.notes ==> n in t.notes && s.notes[n] == t.notes[n])
    && forall x :: x in s.bills ==> x in t.bills && BillLater(s.bills[x], t.bills[x])
  }

  lemma LaterTrans(r: Store, s: Store, t: Store)
    requires Later(r, s) && Later(s, t)
    ensures Later(r, t)
  {
    forall x | x in r.bills ensures x in t.bills && BillLater(r.bills[x], t.bills[x]) {
      assert BillLater(r.bills[x], s.bills[x]) && BillLater(s.bills[x], t.bills[x]);
    }
  }

  lemma LaterFrom(s: Store, t: Store, id: string)
    requires s.log <= t.log && t.notes == s.notes && id in t.bills
    requires forall x :: x != id ==> (x in s.bills ==> x in t.bills && t.bills[x] == s.bills[x])
    requires id in s.bills ==> BillLater(s.bills[id], t.bills[id])
    ensures Later(s, t)
  {
  }

  lemma CreditLater(s: Store, read: Bill, id: string, note: string, amount: Cents, date: Date)
    requires Credit(s, read, id, note, amount, date).Committed?
    ensures Later(s, Credit(s, read, id, note, amount, date).store)
  {
    CreditWrites(s, read, id, note, amount, date);
  }

  lemma ApplyLater(s: Store, read: Bill, st: Step)
    requires Reads(st) && Apply(s, read, st).Committed?
    ensures Later(s, Apply(s, read, st).store)
  {
    var t := Apply(s, read, st).store;
    if st.Crediting? {
      CreditLater(s, read, st.id, st.note, st.amount, st.date);
    } else if t != s {
      assert t.bills[st.id].txs == s.bills[st.id].txs || |t.bills[st.id].txs| == |s.bills[st.id].txs| + 1;
      LaterFrom(s, t, st.id);
    }
  }

  lemma ExecLater(tr: seq<Store>, st: Step)
    requires |tr| > 0 && InTime(st, |tr| - 1) && Exec(tr, st).Committed?
    ensures Later(tr[|tr| - 1], Exec(tr, st).store)
  {
    var s, t := tr[|tr| - 1], Exec(tr, st).store;
    if Reads(st) {
      ApplyLater(s, tr[st.at].bills[st.id], st);
    } else if !st.Elsewhere? {
      LaterFrom(s, t, st.id);
    }
  }

  lemma {:induction false} RunLater(tr: seq<Store>, steps: seq<Step>, i: nat, j: nat)
    requires Run(tr, steps) && i <= j < |tr|
    ensures Later(tr[i], tr[j])
    decreases j
  {
    if i < j {
      RunLater(tr, steps, i, j - 1);
      assert Follows(tr, steps, j - 1);
      ExecLater(tr[..j], steps[j - 1]);
      LaterTrans(tr[i], tr[j - 1], tr[j]);
    }
  }

  lemma RunFresh(tr: seq<Store>, steps: seq<Step>, i: nat, j: nat, id: string)
    requires Run(tr, steps) && i <= j < |tr| && id in tr[i].bills
    ensures id in tr[j].bills && BillLater(tr[i].bills[id], tr[j].bills[id]) && FreshBill(tr[j], id, tr[i].bills[id])
  {
    RunLater(tr, steps, i, j);
  }

  // ---- the invariant at every point ----

  lemma EmptyInv()
    ensures Inv(Empty)
  {
    SumNone(Forecasts(Empty, Payable), AnyId());
    SumNone(Forecasts(Empty, Receivable), AnyId());
  }

  lemma ElsewhereKeeps(s: Store, tx: Tx)
    requires Inv(s) && Net(tx, Payables) == 0 && Net(tx, Receivables) == 0
    ensures Inv(s.(log := s.log + [tx]))
  {
    var t := s.(log := s.log + [tx]);
    forall x | x in t.bills ensures BillOk(t, x) {
      assert BillOk(s, x);
      CreditedAlone(s, t, x);
    }
    Append(s.log, tx, Payables);
    Append(s.log, tx, Receivables);
    SameForecasts(s, t, Payable);
    SameForecasts(s, t, Receivable);
  }

  lemma ApplyKeeps(s: Store, read: Bill, st: Step)
    requires Inv(s) && Reads(st) && FreshBill(s, st.id, read) && ValidBill(read)
    requires Apply(s, read, st).Committed?
    ensures Inv(Apply(s, read, st).store)
  {
    match st
    case Editing(_, id, change) => EditKeeps(s, read, id, change);
    case Settling(_, id, paid, difference, date, into) => SettleKeeps(s, read, id, paid, difference, date, into);
    case Canceling(_, id, date) => CancelKeeps(s, read, id, date);
    case Unsettling(_, id, date) => UndoKeeps(s, read, id, Paid, date);
    case Restoring(_, id, date) => UndoKeeps(s, read, id, Canceled, date);
    case Crediting(_, id, note, amount, date) => CreditKeeps(s, read, id, note, amount, date);
  }

  lemma ExecKeeps(tr: seq<Store>, st: Step)
    requires |tr| > 0 && InTime(st, |tr| - 1) && Inv(tr[|tr| - 1])
    requires Reads(st) && st.id in tr[st.at].bills ==>
             ValidBill(tr[st.at].bills[st.id]) && FreshBill(tr[|tr| - 1], st.id, tr[st.at].bills[st.id])
    requires Exec(tr, st).Committed?
    ensures Inv(Exec(tr, st).store)
  {
    var s := tr[|tr| - 1];
    match st
    case Creating(id, draft) => CreateKeeps(s, id, draft);
    case Invoicing(id, draft, date) => RecordInvoiceKeeps(s, id, draft, date);
    case Elsewhere(tx) => ElsewhereKeeps(s, tx);
    case _ => ApplyKeeps(s, tr[st.at].bills[st.id], st);
  }

  lemma ReadFresh(tr: seq<Store>, steps: seq<Step>, i: nat, j: nat, id: string)
    requires Run(tr, steps) && i <= j < |tr| && id in tr[i].bills && Inv(tr[i])
    ensures ValidBill(tr[i].bills[id]) && id in tr[j].bills && FreshBill(tr[j], id, tr[i].bills[id])
  {
    InvValid(tr[i], id);
    RunFresh(tr, steps, i, j, id);
  }

  lemma StepKeeps(tr: seq<Store>, steps: seq<Step>, k: nat)
    requires Run(tr, steps) && k < |steps| && Inv(tr[k])
    requires Reads(steps[k]) ==> steps[k].at <= k && Inv(tr[steps[k].at])
    ensures Inv(tr[k + 1])
  {
    assert Follows(tr, steps, k);
    var st := steps[k];
    if Reads(st) && st.id in tr[st.at].bills {
      ReadFresh(tr, steps, st.at, k, st.id);
    }
    assert tr[..k + 1][k] == tr[k];
    ExecKeeps(tr[..k + 1], st);
  }

  lemma ReadsEarlier(tr: seq<Store>, steps: seq<Step>, k: nat)
    requires Run(tr, steps) && k < |steps|
    ensures Reads(steps[k]) ==> steps[k].at <= k
  {
    assert Follows(tr, steps, k);
  }

  lemma StartInv(tr: seq<Store>, steps: seq<Step>)
    requires Run(tr, steps)
    ensures Inv(tr[0])
  {
    EmptyInv();
  }

  /** At every point of every interleaving the books are right. */
  lemma {:induction false} RunKeepsInv(tr: seq<Store>, steps: seq<Step>, k: nat)
    requires Run(tr, steps) && k < |tr|
    ensures Inv(tr[k])
    decreases k
  {
    if k == 0 {
      StartInv(tr, steps);
    } else {
      var j := k - 1;
      ReadsEarlier(tr, steps, j);
      RunKeepsInv(tr, steps, j);
      if Reads(steps[j]) {
        RunKeepsInv(tr, steps, steps[j].at);
      }
      StepKeeps(tr, steps, j);
    }
  }
}
