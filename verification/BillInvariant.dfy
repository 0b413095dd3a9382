/** What every committed bill transaction keeps: each bill explained by its transactions, and control accounts that agree. */
module BillInvariant {
  import opened Calendar
  import opened Installments
  import opened Ledger
  import opened Sums
  import opened Bills

  // ---- the invariant ----

  /** What the listed transactions move on an account in all. */
  ghost function TxsNet(log: seq<Tx>, txs: seq<TxId>, a: Account): Cents
    requires forall i :: 0 <= i < |txs| ==> txs[i] < |log|
  {
    if txs == [] then 0 else TxsNet(log, txs[..|txs| - 1], a) + Net(log[txs[|txs| - 1]], a)
  }

  function Recognized(b: Bill, a: Account): Cents { NetLegs(RecognizeLegs(FactsOf(b)), a) }

  predicate TxsKnown(log: seq<Tx>, txs: seq<TxId>) { forall i :: 0 <= i < |txs| ==> txs[i] < |log| }

  function Last(b: Bill): TxId
    requires b.txs != []
  {
    b.txs[|b.txs| - 1]
  }

  function Init(b: Bill): seq<TxId>
    requires b.txs != []
  {
    b.txs[..|b.txs| - 1]
  }

  /** The account a direction's unpaid amounts sit on, and the sign they sit there with. */
  function Control(d: Direction): Account { if d == Payable then Payables else Receivables }

  /** What an unpaid bill keeps on a control account. */
  function ControlAmount(b: Bill, d: Direction): Cents {
    if b.direction != d then 0 else if d == Payable then -b.amount else b.amount
  }

  /** The transaction takes the bill off its own control account and leaves the other alone. */
  predicate Clears(tx: Tx, b: Bill) {
    Net(tx, Payables) == -ControlAmount(b, Payable) && Net(tx, Receivables) == -ControlAmount(b, Receivable)
  }

  /** A list of transactions that amounts to the bill's current recognition and nothing else. */
  ghost predicate Explains(log: seq<Tx>, txs: seq<TxId>, b: Bill)
    requires TxsKnown(log, txs)
  {
    forall a :: TxsNet(log, txs, a) == Recognized(b, a)
  }

  /** The last transaction can be reversed: valid, not a reversal, not reversed. */
  ghost predicate Undoable(s: Store, t: TxId) {
    t < |s.log| && ValidLegs(s.log[t].legs) && s.log[t].kind != Reversal && t !in s.reversed
  }

  ghost predicate BillOk(s: Store, id: string)
    requires id in s.bills
  {
    var b := s.bills[id];
    && ValidBill(b)
    && b.txs != [] && TxsKnown(s.log, b.txs)
    && b.listed == (if b.status == Forecast then Some(b.due) else None)
    && b.credited == SumWhere(NotesOf(s.notes, id), AnyNote())
    && match b.status
       case Forecast => Explains(s.log, b.txs, b)
       case Paid =>
         && Undoable(s, Last(b)) && s.log[Last(b)].kind == Settlement
         && Explains(s.log, Init(b), b)
         && Clears(s.log[Last(b)], b)
       case Canceled =>
         && |b.txs| >= 2 && Undoable(s, Last(b)) && s.log[Last(b)].kind == Adjustment
         && Explains(s.log, Init(b), b)
         && forall a :: Net(s.log[Last(b)], a) == -Recognized(b, a)
  }

  function AnyNote(): string -> bool { (n: string) => true }

  ghost function NotesOf(notes: map<string, Note>, id: string): map<string, Cents> {
    map n | n in notes && notes[n].bill == id :: notes[n].amount
  }

  ghost predicate BillsOk(s: Store) { forall id :: id in s.bills ==> BillOk(s, id) }

  ghost predicate Apart(s: Store) {
    && (forall i :: i in s.reversed ==> i < |s.log|)
    && (forall n :: n in s.notes ==> s.notes[n].bill in s.bills)
    && forall x, y :: x in s.bills && y in s.bills && x != y && s.bills[x].txs != [] && s.bills[y].txs != [] ==> Last(s.bills[x]) != Last(s.bills[y])
  }

  function AnyId(): string -> bool { (x: string) => true }

  ghost function Forecasts(s: Store, d: Direction): map<string, Cents> {
    map x | x in s.bills && s.bills[x].status == Forecast && s.bills[x].direction == d :: s.bills[x].amount
  }

  /** The control account holds exactly the forecast bills' current amounts: owed to others as a credit, owed to us as a debit. */
  ghost predicate Controls(s: Store, d: Direction) {
    Balance(s.log, Control(d)) == (if d == Payable then -1 else 1) * SumWhere(Forecasts(s, d), AnyId())
  }

  ghost predicate Inv(s: Store) { BillsOk(s) && Apart(s) && Controls(s, Payable) && Controls(s, Receivable) }

  // ---- helpers ----

  lemma {:induction false} TxsNetExtends(log: seq<Tx>, more: seq<Tx>, txs: seq<TxId>, a: Account)
    requires TxsKnown(log, txs) && log <= more
    ensures TxsKnown(more, txs) && TxsNet(more, txs, a) == TxsNet(log, txs, a)
  {
    if txs != [] {
      TxsNetExtends(log, more, txs[..|txs| - 1], a);
    }
  }

  lemma TxsNetAppend(log: seq<Tx>, tx: Tx, txs: seq<TxId>, a: Account)
    requires TxsKnown(log, txs)
    ensures TxsNet(log + [tx], txs + [|log|], a) == TxsNet(log, txs, a) + Net(tx, a)
  {
    TxsNetExtends(log, log + [tx], txs, a);
    assert (txs + [|log|])[..|txs|] == txs;
  }

  lemma ExplainsExtends(log: seq<Tx>, more: seq<Tx>, txs: seq<TxId>, b: Bill)
    requires TxsKnown(log, txs) && log <= more && Explains(log, txs, b)
    ensures TxsKnown(more, txs) && Explains(more, txs, b)
  {
    forall a ensures TxsNet(more, txs, a) == Recognized(b, a) {
      TxsNetExtends(log, more, txs, a);
    }
  }

  /** Only bill id changed, with the ledger; what was marked reversed is its own last transaction. */
  ghost predicate BillStep(s: Store, t: Store, id: string) {
    && id in t.bills && s.log <= t.log && t.notes == s.notes
    && (forall x :: x != id ==> (x in t.bills <==> x in s.bills) && (x in s.bills ==> t.bills[x] == s.bills[x]))
    && (forall i :: i in t.reversed ==> i < |t.log|)
    && (forall i :: i in t.reversed && i !in s.reversed ==> id in s.bills && s.bills[id].txs != [] && i == Last(s.bills[id]))
    && t.bills[id].txs != []
    && (Last(t.bills[id]) >= |s.log| || (id in s.bills && t.bills[id].txs == s.bills[id].txs))
    && (id !in s.bills ==> t.bills[id].credited == 0)
    && (id in s.bills ==> t.bills[id].credited == s.bills[id].credited)
  }

  lemma OtherBill(s: Store, t: Store, id: string, x: string)
    requires BillStep(s, t, id) && x in s.bills && x != id && BillOk(s, x)
    requires id in s.bills && s.bills[id].txs != [] ==> Last(s.bills[id]) != Last(s.bills[x])
    ensures BillOk(t, x)
  {
    var b := s.bills[x];
    match b.status
    case Forecast => ExplainsExtends(s.log, t.log, b.txs, b);
    case _ => ExplainsExtends(s.log, t.log, Init(b), b);
  }

  lemma StepApart(s: Store, t: Store, id: string)
    requires Apart(s) && BillsOk(s) && BillStep(s, t, id)
    ensures Apart(t)
  {
    forall x, y | x in t.bills && y in t.bills && x != y && t.bills[x].txs != [] && t.bills[y].txs != []
      ensures Last(t.bills[x]) != Last(t.bills[y])
    {
      assert x in s.bills ==> BillOk(s, x);
      assert y in s.bills ==> BillOk(s, y);
    }
  }

  lemma StepBills(s: Store, t: Store, id: string)
    requires Apart(s) && BillsOk(s) && BillStep(s, t, id) && BillOk(t, id)
    ensures BillsOk(t) && Apart(t)
  {
    forall x | x in t.bills ensures BillOk(t, x) {
      if x != id {
        assert BillOk(s, x);
        if id in s.bills {
          assert BillOk(s, id);
        }
        OtherBill(s, t, id, x);
      }
    }
    StepApart(s, t, id);
  }

  function ForecastAmount(s: Store, id: string, d: Direction): Cents {
    if id in s.bills && s.bills[id].status == Forecast && s.bills[id].direction == d then s.bills[id].amount else 0
  }

  lemma ForecastsBut(s: Store, t: Store, id: string, d: Direction)
    requires BillStep(s, t, id)
    ensures Forecasts(t, d) - {id} == Forecasts(s, d) - {id}
  {
    forall x | x != id ensures x in Forecasts(t, d) <==> x in Forecasts(s, d) {
    }
  }

  lemma ForecastsMove(s: Store, t: Store, id: string, d: Direction)
    requires BillStep(s, t, id)
    ensures SumWhere(Forecasts(t, d), AnyId()) - SumWhere(Forecasts(s, d), AnyId()) == ForecastAmount(t, id, d) - ForecastAmount(s, id, d)
  {
    ForecastsBut(s, t, id, d);
    SumAside(Forecasts(s, d), AnyId(), id);
    SumAside(Forecasts(t, d), AnyId(), id);
  }

  /** What the bill itself keeps on the control account while it is a forecast. */
  function Held(s: Store, id: string, d: Direction): Cents {
    if id in s.bills && s.bills[id].status == Forecast then ControlAmount(s.bills[id], d) else 0
  }

  /** The control account moved by what the bill's forecast amount moved. */
  lemma StepControls(s: Store, t: Store, id: string, d: Direction)
    requires Controls(s, d) && BillStep(s, t, id)
    requires Balance(t.log, Control(d)) - Balance(s.log, Control(d)) == Held(t, id, d) - Held(s, id, d)
    ensures Controls(t, d)
  {
    ForecastsMove(s, t, id, d);
  }

  /** What recognising a bill puts on a control account. */
  lemma RecognizedControl(b: Bill, d: Direction)
    requires ValidBill(b)
    ensures ValidLegs(RecognizeLegs(FactsOf(b)))
    ensures Recognized(b, Control(d)) == ControlAmount(b, d)
  {
    var legs := RecognizeLegs(FactsOf(b));
    NetTwo(legs[0], legs[1], Control(d));
    assert legs == [legs[0], legs[1]];
  }
}
