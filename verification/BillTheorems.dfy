/** What the bill operations promise over whole runs, and exactly where they stop keeping what is said of them. */
module BillTheorems {
  import opened Calendar
  import opened Installments
  import opened Ledger
  import opened Sums
  import opened Bills
  import opened BillInvariant
  import opened BillSteps
  import opened BillRuns

  // ---- the books ----

  /** At every point of every run each control account holds exactly the forecast bills' current amounts. */
  lemma ControlAccountsAgree(tr: seq<Store>, steps: seq<Step>, k: nat)
    requires Run(tr, steps) && k < |tr|
    ensures Balance(tr[k].log, Payables) == -SumWhere(Forecasts(tr[k], Payable), AnyId())
    ensures Balance(tr[k].log, Receivables) == SumWhere(Forecasts(tr[k], Receivable), AnyId())
  {
    RunKeepsInv(tr, steps, k);
  }

  /**
   A forecast's transactions amount to its recognition at its current amount and category, a canceled bill's to nothing on
   any account, a paid bill's control account is clear; and the open list names exactly the forecasts, by due date.
   */
  lemma BillsExplained(tr: seq<Store>, steps: seq<Step>, k: nat, id: string, a: Account)
    requires Run(tr, steps) && k < |tr| && id in tr[k].bills
    ensures TxsKnown(tr[k].log, tr[k].bills[id].txs)
    ensures var b := tr[k].bills[id];
            && (b.status == Forecast ==> TxsNet(tr[k].log, b.txs, a) == Recognized(b, a))
            && (b.status == Canceled ==> TxsNet(tr[k].log, b.txs, a) == 0)
            && (b.status == Paid ==> TxsNet(tr[k].log, b.txs, Control(b.direction)) == 0)
            && b.listed == (if b.status == Forecast then Some(b.due) else None)
  {
    RunKeepsInv(tr, steps, k);
    assert BillOk(tr[k], id);
    var b := tr[k].bills[id];
    RecognizedControl(b, b.direction);
    if b.status != Forecast {
      assert TxsNet(tr[k].log, Init(b), a) == Recognized(b, a);
      assert TxsNet(tr[k].log, Init(b), Control(b.direction)) == Recognized(b, Control(b.direction));
    }
  }

  /** Undoing a paid or canceled bill as it stands always commits: it reverses the settlement (cancellation) and nothing else. */
  lemma UndoReversesTheRightFact(tr: seq<Store>, steps: seq<Step>, k: nat, id: string, date: Date)
    requires Run(tr, steps) && k < |tr| && id in tr[k].bills && tr[k].bills[id].status != Forecast
    ensures var s, b := tr[k], tr[k].bills[id];
            && b.txs != [] && Last(b) < |s.log|
            && s.log[Last(b)].kind == (if b.status == Paid then Settlement else Adjustment)
            && Undo(s, b, id, b.status, date).Committed?
            && var t := Undo(s, b, id, b.status, date).store;
               && Posts(s.log, t.log, Reversal, date)
               && t.log[|s.log|].adjusts == Some(Last(b))
               && t.bills[id] == b.(status := Forecast, autoSettle := false, listed := Some(b.due), txs := b.txs + [|s.log|])
               && forall a :: Balance(t.log, a) == Balance(s.log, a) - Net(s.log[Last(b)], a)
  {
    RunKeepsInv(tr, steps, k);
    var s, b := tr[k], tr[k].bills[id];
    assert BillOk(s, id);
    ReverseUndoes(s.log[Last(b)], Last(b), date);
    forall a ensures Balance(Undo(s, b, id, b.status, date).store.log, a) == Balance(s.log, a) - Net(s.log[Last(b)], a) {
      Append(s.log, Reverse(s.log[Last(b)], Last(b), date).value, a);
    }
  }

  // ---- stale plans ----

  /** The row a guarded step read. */
  ghost function ReadRow(tr: seq<Store>, st: Step): Bill
    requires Reads(st) && st.at < |tr| && st.id in tr[st.at].bills
  {
    tr[st.at].bills[st.id]
  }

  /** A step that acts on a forecast as read: a settlement, a cancellation, or an edit that changes something. */
  ghost predicate ActsOnForecast(tr: seq<Store>, st: Step)
    requires Reads(st) && st.at < |tr| && st.id in tr[st.at].bills
  {
    st.Settling? || st.Canceling? || (st.Editing? && Edited(ReadRow(tr, st), st.change) != ReadRow(tr, st))
  }

  /** However old the read: what the write depends on is still as it was read. */
  lemma StalePlansNeverCommit(tr: seq<Store>, steps: seq<Step>, k: nat)
    requires Run(tr, steps) && k < |steps| && Reads(steps[k])
    ensures steps[k].at <= k && steps[k].id in tr[steps[k].at].bills
    ensures ActsOnForecast(tr, steps[k]) ==>
            steps[k].id in tr[k].bills &&
            var read, cur := ReadRow(tr, steps[k]), tr[k].bills[steps[k].id];
            && read.status == Forecast == cur.status && read.txs == cur.txs && read.direction == cur.direction
            && read.amount == cur.amount && read.category == cur.category && read.account == cur.account && read.due == cur.due
  {
    assert Follows(tr, steps, k);
    RunFresh(tr, steps, steps[k].at, k, steps[k].id);
  }

  /** Steps that append to the transaction list of the bill they act on. */
  ghost predicate Appends(tr: seq<Store>, st: Step)
    requires Reads(st) && st.at < |tr| && st.id in tr[st.at].bills
  {
    st.Settling? || st.Canceling? || st.Unsettling? || st.Restoring? || (st.Editing? && ChangesMoney(ReadRow(tr, st), st.change))
  }

  lemma AppendsOnce(tr: seq<Store>, steps: seq<Step>, k: nat)
    requires Run(tr, steps) && k < |steps| && Reads(steps[k])
    ensures steps[k].at <= k && steps[k].id in tr[steps[k].at].bills
    ensures Appends(tr, steps[k]) ==>
            var id := steps[k].id;
            && id in tr[k].bills && |tr[k].bills[id].txs| == |ReadRow(tr, steps[k]).txs|
            && id in tr[k + 1].bills && |tr[k + 1].bills[id].txs| == |tr[k].bills[id].txs| + 1
  {
    assert Follows(tr, steps, k);
  }

  /** Of any number of such steps planned on one state of a bill at most one commits: two that committed had read different lists. */
  lemma OnePlanWins(tr: seq<Store>, steps: seq<Step>, j: nat, k: nat)
    requires Run(tr, steps) && j < k < |steps| && Reads(steps[j]) && Reads(steps[k]) && steps[j].id == steps[k].id
    ensures steps[j].at <= j && steps[j].id in tr[steps[j].at].bills && steps[k].at <= k && steps[k].id in tr[steps[k].at].bills
    ensures Appends(tr, steps[j]) && Appends(tr, steps[k]) ==> |ReadRow(tr, steps[j]).txs| < |ReadRow(tr, steps[k]).txs|
  {
    AppendsOnce(tr, steps, j);
    AppendsOnce(tr, steps, k);
    if Appends(tr, steps[j]) && Appends(tr, steps[k]) {
      RunFresh(tr, steps, j + 1, k, steps[k].id);
    }
  }

  // ---- racing edits ----

  /** An edit changes something the guard looks at. */
  predicate MovesGuard(read: Bill, e: Change) {
    ChangesMoney(read, e) || Edited(read, e).account != read.account || Edited(read, e).due != read.due
  }

  /**
   Two edits planned on the same row can both commit: the second is refused if and only if the first changed the amount,
   category, account or due date. Descriptions and auto-settle are not guarded.
   */
  lemma SecondEditRefusedIff(s: Store, id: string, first: Change, second: Change)
    requires id in s.bills && Edit(s, s.bills[id], id, first).Committed? && Edit(s, s.bills[id], id, second).Committed?
    requires Edited(s.bills[id], second) != s.bills[id]
    ensures Edit(Edit(s, s.bills[id], id, first).store, s.bills[id], id, second).Refused? <==> MovesGuard(s.bills[id], first)
  {
  }

  /**
   Two such edits of different attributes both survive, in either order: each sets only what it changed, and what it left
   alone keeps the stored value though its own read was stale.
   */
  lemma RacingEditsCommute(s: Store, id: string, a: Change, b: Change)
    requires id in s.bills && Edit(s, s.bills[id], id, a).Committed? && Edit(s, s.bills[id], id, b).Committed?
    requires !MovesGuard(s.bills[id], a) && !MovesGuard(s.bills[id], b)
    requires var read := s.bills[id];
             && (Edited(read, a).description == read.description || Edited(read, b).description == read.description)
             && (Edited(read, a).autoSettle == read.autoSettle || Edited(read, b).autoSettle == read.autoSettle)
    ensures var read := s.bills[id];
            var ab, ba := Edit(Edit(s, read, id, a).store, read, id, b), Edit(Edit(s, read, id, b).store, read, id, a);
            && ab == ba && ab.Committed? && id in ab.store.bills
            && (Edited(read, a).description != read.description ==> ab.store.bills[id].description == Edited(read, a).description)
            && (Edited(read, b).description != read.description ==> ab.store.bills[id].description == Edited(read, b).description)
            && (Edited(read, a).autoSettle != read.autoSettle ==> ab.store.bills[id].autoSettle == Edited(read, a).autoSettle)
            && (Edited(read, b).autoSettle != read.autoSettle ==> ab.store.bills[id].autoSettle == Edited(read, b).autoSettle)
  {
    var read := s.bills[id];
    SecondRow(s, id, a, b);
    SecondRow(s, id, b, a);
    assert EditRow(EditRow(read, read, a, read.txs), read, b, read.txs) == EditRow(EditRow(read, read, b, read.txs), read, a, read.txs);
  }

  lemma SecondRow(s: Store, id: string, a: Change, b: Change)
    requires id in s.bills && Edit(s, s.bills[id], id, a).Committed? && Edit(s, s.bills[id], id, b).Committed?
    requires !MovesGuard(s.bills[id], a) && !MovesGuard(s.bills[id], b)
    ensures var read := s.bills[id];
            Edit(Edit(s, read, id, a).store, read, id, b) == Committed(s.(bills := s.bills[id := EditRow(EditRow(read, read, a, read.txs), read, b, read.txs)]))
  {
  }

  // ---- the auto-settle work list ----

  /** The work list names the bill exactly while it is to be settled by itself, under its due date. */
  predicate Scheduled(b: Bill) { b.scheduled == (if b.status == Forecast && b.autoSettle then Some(b.due) else None) }

  /** An edit keeps the work list right if and only if auto-settle is as it was read, or the edit sets it, or leaves the date. */
  lemma EditKeepsScheduleIff(s: Store, read: Bill, id: string, e: Change)
    requires id in s.bills && Scheduled(s.bills[id]) && Edited(read, e) != read && Edit(s, read, id, e).Committed?
    ensures Scheduled(Edit(s, read, id, e).store.bills[id]) <==>
            (read.autoSettle == s.bills[id].autoSettle || Edited(read, e).autoSettle != read.autoSettle || Edited(read, e).due == read.due)
  {
  }

  const Nothing: Change := Change(None, None, None, None, None, None)

  /** Auto-settle turned off while a change of date was in flight: the bill is off and still on the work list. */
  lemma ScheduleDrifts(s: Store, id: string, due: Date)
    requires Inv(s) && id in s.bills && s.bills[id].status == Forecast && s.bills[id].autoSettle && Scheduled(s.bills[id]) && due != s.bills[id].due
    ensures var read := s.bills[id];
            var off := Edit(s, read, id, Nothing.(autoSettle := Some(false)));
            && off.Committed? && Scheduled(off.store.bills[id])
            && var moved := Edit(off.store, read, id, Nothing.(due := Some(due)));
               && moved.Committed? && !moved.store.bills[id].autoSettle && moved.store.bills[id].scheduled == Some(due)
  {
    assert BillOk(s, id);
  }

  /** Every edit of the run either set auto-settle, left the date alone, or read auto-settle as it still was. */
  ghost predicate SchedulesFollowed(tr: seq<Store>, steps: seq<Step>)
    requires Run(tr, steps)
  {
    forall k {:trigger Follows(tr, steps, k)} :: 0 <= k < |steps| && Follows(tr, steps, k) ==> EditFollowed(tr, steps[k], k)
  }

  ghost predicate EditFollowed(tr: seq<Store>, st: Step, k: nat)
    requires k < |tr| && InTime(st, k)
  {
    st.Editing? && st.id in tr[st.at].bills && st.id in tr[k].bills ==>
      var read := tr[st.at].bills[st.id];
      read.autoSettle == tr[k].bills[st.id].autoSettle || Edited(read, st.change).autoSettle != read.autoSettle || Edited(read, st.change).due == read.due
  }

  lemma ExecSchedules(tr: seq<Store>, st: Step, x: string)
    requires |tr| > 0 && InTime(st, |tr| - 1) && Exec(tr, st).Committed? && x in Exec(tr, st).store.bills
    requires x in tr[|tr| - 1].bills ==> Scheduled(tr[|tr| - 1].bills[x])
    requires EditFollowed(tr, st, |tr| - 1)
    ensures Scheduled(Exec(tr, st).store.bills[x])
  {
  }

  /** In such runs the work list is right for every bill at every point. */
  lemma {:induction false} WorkListRight(tr: seq<Store>, steps: seq<Step>, k: nat, id: string)
    requires Run(tr, steps) && SchedulesFollowed(tr, steps) && k < |tr| && id in tr[k].bills
    ensures Scheduled(tr[k].bills[id])
    decreases k
  {
    if k > 0 {
      assert Follows(tr, steps, k - 1);
      if id in tr[k - 1].bills {
        WorkListRight(tr, steps, k - 1, id);
      }
      assert EditFollowed(tr, steps[k - 1], k - 1);
      assert EditFollowed(tr[..k], steps[k - 1], k - 1);
      ExecSchedules(tr[..k], steps[k - 1], id);
    }
  }
}
