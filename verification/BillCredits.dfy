/** Paid invoices and their credit notes in the ledger: recorded once, credited by what was noted, and how far. */
module BillCredits {
  import opened Calendar
  import opened Installments
  import opened Ledger
  import opened Sums
  import opened Bills
  import opened BillInvariant
  import opened BillSteps
  import opened BillRuns

  /** However often an invoice is replayed it makes one bill and one pair of postings. */
  lemma InvoiceRecordedOnce(tr: seq<Store>, steps: seq<Step>, j: nat, k: nat)
    requires Run(tr, steps) && j < k < |steps| && steps[j].Invoicing? && steps[k].Invoicing?
    ensures steps[j].id != steps[k].id
    ensures |tr[j + 1].log| == |tr[j].log| + 2
    ensures steps[j].id in tr[j + 1].bills && tr[j + 1].bills[steps[j].id].txs == [|tr[j].log|, |tr[j].log| + 1]
  {
    InvoicedAt(tr, steps, j);
    InvoicedAt(tr, steps, k);
    RunLater(tr, steps, j + 1, k);
  }

  lemma InvoicedAt(tr: seq<Store>, steps: seq<Step>, j: nat)
    requires Run(tr, steps) && j < |steps| && steps[j].Invoicing?
    ensures steps[j].id !in tr[j].bills && |tr[j + 1].log| == |tr[j].log| + 2
    ensures steps[j].id in tr[j + 1].bills && tr[j + 1].bills[steps[j].id].txs == [|tr[j].log|, |tr[j].log| + 1]
  {
    assert Follows(tr, steps, j);
    InvoiceWrites(tr[j], steps[j].id, steps[j].draft, steps[j].date);
  }

  lemma InvoiceWrites(s: Store, id: string, draft: Bill, date: Date)
    requires RecordInvoice(s, id, draft, date).Committed?
    ensures var t := RecordInvoice(s, id, draft, date).store;
            id !in s.bills && id in t.bills && t.bills[id].txs == [|s.log|, |s.log| + 1] && |t.log| == |s.log| + 2
  {
  }

  /** A note is posted at most once, whatever bill a replay names. */
  lemma NotePostedOnce(tr: seq<Store>, steps: seq<Step>, j: nat, k: nat)
    requires Run(tr, steps) && j < k < |steps| && steps[j].Crediting? && steps[k].Crediting?
    ensures steps[j].note != steps[k].note
  {
    assert Follows(tr, steps, j) && Follows(tr, steps, k);
    RunLater(tr, steps, j + 1, k);
  }

  /** What a bill says was credited is the sum of the distinct notes posted against it. */
  lemma CreditedIsTheNotes(tr: seq<Store>, steps: seq<Step>, k: nat, id: string)
    requires Run(tr, steps) && k < |tr| && id in tr[k].bills
    ensures tr[k].bills[id].credited == SumWhere(NotesOf(tr[k].notes, id), AnyNote())
  {
    RunKeepsInv(tr, steps, k);
    assert BillOk(tr[k], id);
  }

  /**
   A note just posted and replayed at once is acknowledged if and only if what is left of the bill covers it a second time;
   otherwise the replay is refused as invalid. Neither writes.
   */
  lemma ReplayAcknowledgedIff(s: Store, read: Bill, id: string, note: string, amount: Cents, date: Date, again: Date)
    requires Inv(s) && ValidBill(read) && Credit(s, read, id, note, amount, date).Committed?
    requires s.bills[id].amount == read.amount
    ensures var t := Credit(s, read, id, note, amount, date).store;
            Credit(t, t.bills[id], id, note, amount, again)
            == Refused(if read.credited + 2 * amount <= read.amount then AlreadyPosted else Invalid)
  {
    var t := Credit(s, read, id, note, amount, date).store;
    CreditWrites(s, read, id, note, amount, date);
    CreditPosts(t.bills[id], amount, again);
    assert BillOk(s, id);
  }

  lemma CreditPosts(b: Bill, amount: Cents, date: Date)
    requires ValidBill(b) && 0 < amount <= b.amount
    ensures CreditBill(FactsOf(b), amount, date).Some?
  {
    NetTwo(Leg(b.account, amount), Leg(b.category, -amount), Payables);
    NetTwo(Leg(b.category, amount), Leg(b.account, -amount), Payables);
  }

  // ---- how far a bill can be credited ----

  predicate Within(b: Bill) { b.credited <= b.amount }

  /** A committed credit stays within the bill while its transaction list is the one read. */
  lemma UnmovedCreditWithin(tr: seq<Store>, steps: seq<Step>, k: nat)
    requires Run(tr, steps) && k < |steps| && steps[k].Crediting?
    ensures var st := steps[k];
            && st.at <= k && st.id in tr[st.at].bills && st.id in tr[k].bills && st.id in tr[k + 1].bills
            && (|tr[k].bills[st.id].txs| == |tr[st.at].bills[st.id].txs| ==> Within(tr[k + 1].bills[st.id]))
  {
    assert Follows(tr, steps, k);
    var st := steps[k];
    RunFresh(tr, steps, st.at, k, st.id);
    CreditWrites(tr[k], tr[st.at].bills[st.id], st.id, st.note, st.amount, st.date);
  }

  const Nothing: Change := Change(None, None, None, None, None, None)

  /** A lower amount on a row whose guard holds. */
  lemma LowerCommits(s: Store, id: string, less: Cents)
    requires Inv(s) && id in s.bills && s.bills[id].status == Forecast && 0 < less < s.bills[id].amount
    ensures var read, e := s.bills[id], Nothing.(amount := Some(less));
            && Edit(s, read, id, e).Committed?
            && var t := Edit(s, read, id, e).store;
               && id in t.bills && t.notes == s.notes
               && t.bills[id] == read.(amount := less, txs := read.txs + [|s.log|])
  {
    assert BillOk(s, id);
    LowerPosts(s.bills[id], less, s.bills[id].competence);
  }

  /** The adjustment to a lower amount is a valid two-leg transaction. */
  lemma LowerPosts(b: Bill, less: Cents, date: Date)
    requires ValidBill(b) && 0 < less < b.amount
    ensures AdjustBill(FactsOf(b), FactsOf(b.(amount := less)), date).Some?
  {
    var was, next := FactsOf(b), FactsOf(b.(amount := less));
    RecognizedControl(b, Payable);
    RecognizedControl(b.(amount := less), Payable);
    var legs := AdjustmentLegs(was, next);
    var x, y := RecognizeLegs(was)[0].account, RecognizeLegs(was)[1].account;
    FourLegs(legs, x, y);
    LowerNets(b, less, x);
    LowerNets(b, less, y);
    NetOutTwo(x, y, legs);
    NetTwo(Leg(x, NetLegs(legs, x)), Leg(y, NetLegs(legs, y)), x);
  }

  lemma LowerNets(b: Bill, less: Cents, a: Account)
    requires ValidBill(b) && 0 < less < b.amount
    ensures var w := RecognizeLegs(FactsOf(b));
            NetLegs(AdjustmentLegs(FactsOf(b), FactsOf(b.(amount := less))), a)
            == (if a == w[0].account then less - b.amount else 0) + (if a == w[1].account then b.amount - less else 0)
  {
    var w, n := RecognizeLegs(FactsOf(b)), RecognizeLegs(FactsOf(b.(amount := less)));
    NetConcat(NegateLegs(w), n, a);
    NegateNets(w, a);
    NetTwo(w[0], w[1], a);
    NetTwo(n[0], n[1], a);
    assert w == [w[0], w[1]] && n == [n[0], n[1]];
  }

  lemma FourLegs(legs: seq<Leg>, x: Account, y: Account)
    requires |legs| == 4 && legs[0].account == x && legs[1].account == y && legs[2].account == x && legs[3].account == y && x != y
    ensures Accounts(legs) == [x, y]
  {
    assert legs[..3][..2] == legs[..2] && legs[..2][..1] == legs[..1] && legs[..1][..0] == [];
    assert Accounts(legs[..1]) == [x];
    assert Accounts(legs[..2]) == [x, y];
    assert Accounts(legs[..3]) == [x, y];
  }

  lemma NetOutTwo(x: Account, y: Account, legs: seq<Leg>)
    requires NetLegs(legs, x) != 0 && NetLegs(legs, y) != 0
    ensures NetOut([x, y], legs) == [Leg(x, NetLegs(legs, x)), Leg(y, NetLegs(legs, y))]
  {
    assert [x, y][..1] == [x] && [x][..0] == [];
    assert NetOut([x], legs) == [Leg(x, NetLegs(legs, x))];
  }

  lemma SettlePosts(b: Bill, date: Date)
    requires ValidBill(b)
    ensures SettleBill(FactsOf(b), b.amount, None, date).Some?
  {
    var legs := SettleLegs(FactsOf(b), b.amount, None);
    assert legs == [legs[0], legs[1]];
    NetTwo(legs[0], legs[1], Payables);
  }

  /** Settling a forecast as it stands, for its own amount. */
  lemma SettleCommits(s: Store, id: string, date: Date)
    requires id in s.bills && s.bills[id].status == Forecast && ValidBill(s.bills[id])
    ensures var b := s.bills[id];
            var r := Settle(s, b, id, b.amount, None, date, None);
            && r.Committed? && id in r.store.bills && r.store.notes == s.notes
            && r.store.bills[id].status == Paid && r.store.bills[id].amount == b.amount && r.store.bills[id].credited == b.credited
  {
    assert Into(s.bills[id], None) == s.bills[id];
    SettlePosts(s.bills[id], date);
  }

  lemma UnsettleCommits(s: Store, id: string, date: Date)
    requires Inv(s) && id in s.bills && s.bills[id].status == Paid
    ensures var r := Unsettle(s, s.bills[id], id, date);
            && r.Committed? && id in r.store.bills && r.store.notes == s.notes && r.store.bills[id].status == Forecast
            && r.store.bills[id].amount == s.bills[id].amount && r.store.bills[id].credited == s.bills[id].credited
  {
    assert BillOk(s, id);
    ReverseUndoes(s.log[Last(s.bills[id])], Last(s.bills[id]), date);
  }

  /** The bill reopened, lowered to less and paid again, each by a commit planned on the current row. */
  ghost predicate PaidLower(s: Store, s1: Store, s2: Store, s3: Store, id: string, less: Cents, date: Date) {
    && id in s.bills && Unsettle(s, s.bills[id], id, date) == Committed(s1)
    && id in s1.bills && Edit(s1, s1.bills[id], id, Nothing.(amount := Some(less))) == Committed(s2)
    && id in s2.bills && Settle(s2, s2.bills[id], id, s2.bills[id].amount, None, date, None) == Committed(s3)
  }

  /** A paid bill can be reopened, lowered to less and paid again. */
  lemma LoweredCommits(s: Store, id: string, less: Cents, date: Date) returns (s1: Store, s2: Store, s3: Store)
    requires Inv(s) && id in s.bills && s.bills[id].status == Paid && 0 < less < s.bills[id].amount
    ensures PaidLower(s, s1, s2, s3, id, less, date)
    ensures id in s3.bills && s3.notes == s.notes
    ensures s3.bills[id].status == Paid && s3.bills[id].amount == less && s3.bills[id].credited == s.bills[id].credited
  {
    UnsettleCommits(s, id, date);
    UndoKeeps(s, s.bills[id], id, Paid, date);
    s1 := Unsettle(s, s.bills[id], id, date).store;
    s2 := LoweredOpen(s1, id, less);
    SettleCommits(s2, id, date);
    s3 := Settle(s2, s2.bills[id], id, s2.bills[id].amount, None, date, None).store;
  }

  lemma LoweredOpen(s: Store, id: string, less: Cents) returns (t: Store)
    requires Inv(s) && id in s.bills && s.bills[id].status == Forecast && 0 < less < s.bills[id].amount
    ensures Edit(s, s.bills[id], id, Nothing.(amount := Some(less))) == Committed(t) && id in t.bills && t.notes == s.notes
    ensures t.bills[id] == s.bills[id].(amount := less, txs := s.bills[id].txs + [|s.log|]) && ValidBill(t.bills[id])
  {
    assert BillOk(s, id);
    LowerCommits(s, id, less);
    t := Edit(s, s.bills[id], id, Nothing.(amount := Some(less))).store;
  }

  /**
   The compare-and-set on credited does not see the amount: a credit planned before a bill is reopened, lowered and paid
   again still commits, and credits more than the bill.
   */
  lemma CreditPassesAmount(s: Store, id: string, less: Cents, note: string, date: Date) returns (s1: Store, s2: Store, s3: Store, s4: Store)
    requires Inv(s) && id in s.bills && s.bills[id].status == Paid && note !in s.notes
    requires 0 < less < s.bills[id].amount && 0 <= s.bills[id].credited < s.bills[id].amount
    ensures PaidLower(s, s1, s2, s3, id, less, date)
    ensures CreditsTheRest(s3, s.bills[id], id, note, date, s4)
    ensures id in s4.bills && s4.bills[id].amount == less < s4.bills[id].credited
  {
    s1, s2, s3 := LoweredCommits(s, id, less, date);
    InvValid(s, id);
    s4 := LateCredit(s3, s.bills[id], id, note, date);
  }

  predicate CreditsTheRest(s: Store, read: Bill, id: string, note: string, date: Date, t: Store) {
    Credit(s, read, id, note, read.amount - read.credited, date) == Committed(t)
  }

  lemma LateCredit(s: Store, read: Bill, id: string, note: string, date: Date) returns (t: Store)
    requires id in s.bills && s.bills[id].status == Paid && s.bills[id].credited == read.credited && note !in s.notes
    requires ValidBill(read) && read.status == Paid && 0 <= read.credited < read.amount
    ensures CreditsTheRest(s, read, id, note, date, t)
    ensures id in t.bills && t.bills[id].amount == s.bills[id].amount && t.bills[id].credited == read.amount
  {
    CreditPosts(read, read.amount - read.credited, date);
    t := Credit(s, read, id, note, read.amount - read.credited, date).store;
  }

  // ---- exactly when no bill is ever credited past its amount ----

  /** Step j is an edit that set the amount or category of bill id. */
  ghost predicate SetsMoney(tr: seq<Store>, steps: seq<Step>, j: nat, id: string)
    requires j < |steps| <= |tr|
  {
    && steps[j].Editing? && steps[j].id == id && steps[j].at <= j && id in tr[steps[j].at].bills
    && ChangesMoney(tr[steps[j].at].bills[id], steps[j].change)
  }

  /** The amount it set. */
  ghost function SetTo(tr: seq<Store>, steps: seq<Step>, j: nat): Cents
    requires j < |steps| <= |tr| && steps[j].Editing? && SetsMoney(tr, steps, j, steps[j].id)
  {
    Edited(tr[steps[j].at].bills[steps[j].id], steps[j].change).amount
  }

  /** Step j lowers a bill under what was credited on it by then. */
  ghost predicate LowersUnder(tr: seq<Store>, steps: seq<Step>, j: nat)
    requires j < |steps| <= |tr|
  {
    steps[j].Editing? && SetsMoney(tr, steps, j, steps[j].id) && steps[j].id in tr[j].bills && SetTo(tr, steps, j) < tr[j].bills[steps[j].id].credited
  }

  /** Edit j came after credit i read its bill, is the last one before i commits, and leaves less than i credits in all. */
  ghost predicate Overtakes(tr: seq<Store>, steps: seq<Step>, j: nat, i: nat)
    requires j < i < |steps| <= |tr|
  {
    && steps[i].Crediting? && steps[i].at <= j && steps[i].id in tr[steps[i].at].bills && SetsMoney(tr, steps, j, steps[i].id)
    && (forall x :: j < x < i ==> !SetsMoney(tr, steps, x, steps[i].id))
    && SetTo(tr, steps, j) < tr[steps[i].at].bills[steps[i].id].credited + steps[i].amount
  }

  ghost predicate NothingUndercut(tr: seq<Store>, steps: seq<Step>, n: nat)
    requires n <= |steps| <= |tr|
  {
    && (forall j :: 0 <= j < n ==> !LowersUnder(tr, steps, j))
    && (forall j, i :: 0 <= j < i < n ==> !Overtakes(tr, steps, j, i))
  }

  ghost predicate AllWithin(s: Store) { forall id :: id in s.bills ==> Within(s.bills[id]) }

  /** What a step makes of one bill's amount and credited. */
  lemma ExecFigures(p: seq<Store>, st: Step, x: string)
    requires |p| > 0 && InTime(st, |p| - 1) && Exec(p, st).Committed?
    requires Reads(st) && st.id in p[st.at].bills ==> FreshBill(p[|p| - 1], st.id, p[st.at].bills[st.id])
    ensures x in Exec(p, st).store.bills && x !in p[|p| - 1].bills ==> Within(Exec(p, st).store.bills[x])
    ensures x in p[|p| - 1].bills ==> x in Exec(p, st).store.bills
    ensures x in p[|p| - 1].bills && st.Editing? && st.id == x ==> x in p[st.at].bills && EditedFigures(p[|p| - 1].bills[x], Exec(p, st).store.bills[x], p[st.at].bills[x], st.change)
    ensures x in p[|p| - 1].bills && st.Crediting? && st.id == x ==> x in p[st.at].bills && CreditedFigures(p[|p| - 1].bills[x], Exec(p, st).store.bills[x], p[st.at].bills[x], st.amount)
    ensures x in p[|p| - 1].bills && !((st.Editing? || st.Crediting?) && st.id == x) ==> SameFigures(p[|p| - 1].bills[x], Exec(p, st).store.bills[x])
  {
  }

  predicate SameFigures(a: Bill, b: Bill) { b.amount == a.amount && b.credited == a.credited }

  predicate EditedFigures(a: Bill, b: Bill, read: Bill, e: Change) {
    b.credited == a.credited && b.amount == if ChangesMoney(read, e) then Edited(read, e).amount else a.amount
  }

  predicate CreditedFigures(a: Bill, b: Bill, read: Bill, amount: Cents) {
    b.amount == a.amount && a.credited == read.credited && b.credited == read.credited + amount <= read.amount
  }

  lemma StepFigures(tr: seq<Store>, steps: seq<Step>, k: nat, x: string)
    requires Run(tr, steps) && k < |steps|
    ensures InTime(steps[k], k)
    ensures x in tr[k + 1].bills && x !in tr[k].bills ==> Within(tr[k + 1].bills[x])
    ensures x in tr[k].bills ==> x in tr[k + 1].bills
    ensures x in tr[k].bills && steps[k].Editing? && steps[k].id == x ==>
            x in tr[steps[k].at].bills && EditedFigures(tr[k].bills[x], tr[k + 1].bills[x], tr[steps[k].at].bills[x], steps[k].change)
    ensures x in tr[k].bills && steps[k].Crediting? && steps[k].id == x ==>
            x in tr[steps[k].at].bills && CreditedFigures(tr[k].bills[x], tr[k + 1].bills[x], tr[steps[k].at].bills[x], steps[k].amount)
    ensures x in tr[k].bills && !((steps[k].Editing? || steps[k].Crediting?) && steps[k].id == x) ==> SameFigures(tr[k].bills[x], tr[k + 1].bills[x])
  {
    assert Follows(tr, steps, k);
    var st := steps[k];
    if Reads(st) && st.id in tr[st.at].bills {
      RunFresh(tr, steps, st.at, k, st.id);
    }
    ExecFigures(tr[..k + 1], st, x);
  }

  /** A bill's amount is what the last edit that set it says. */
  lemma {:induction false} AmountStays(tr: seq<Store>, steps: seq<Step>, a: nat, i: nat, id: string)
    requires Run(tr, steps) && a <= i <= |steps| && id in tr[a].bills
    requires forall x :: a <= x < i ==> !SetsMoney(tr, steps, x, id)
    ensures id in tr[i].bills && tr[i].bills[id].amount == tr[a].bills[id].amount
    decreases i
  {
    if a < i {
      AmountStays(tr, steps, a, i - 1, id);
      StepFigures(tr, steps, i - 1, id);
      assert !SetsMoney(tr, steps, i - 1, id);
    }
  }

  lemma EditSets(tr: seq<Store>, steps: seq<Step>, j: nat)
    requires Run(tr, steps) && j < |steps| && steps[j].Editing? && SetsMoney(tr, steps, j, steps[j].id)
    ensures steps[j].id in tr[j].bills && steps[j].id in tr[j + 1].bills
    ensures tr[j + 1].bills[steps[j].id].amount == SetTo(tr, steps, j) && tr[j + 1].bills[steps[j].id].credited == tr[j].bills[steps[j].id].credited
  {
    RunLater(tr, steps, steps[j].at, j);
    StepFigures(tr, steps, j, steps[j].id);
  }

  lemma CreditSets(tr: seq<Store>, steps: seq<Step>, i: nat)
    requires Run(tr, steps) && i < |steps| && steps[i].Crediting?
    ensures var id := steps[i].id;
            && steps[i].at <= i && id in tr[steps[i].at].bills && id in tr[i].bills && id in tr[i + 1].bills
            && CreditedFigures(tr[i].bills[id], tr[i + 1].bills[id], tr[steps[i].at].bills[id], steps[i].amount)
  {
    assert Follows(tr, steps, i);
    RunLater(tr, steps, steps[i].at, i);
    StepFigures(tr, steps, i, steps[i].id);
  }

  lemma LoweredBreaks(tr: seq<Store>, steps: seq<Step>, j: nat)
    requires Run(tr, steps) && j < |steps| && LowersUnder(tr, steps, j)
    ensures !AllWithin(tr[j + 1])
  {
    EditSets(tr, steps, j);
    assert !Within(tr[j + 1].bills[steps[j].id]);
  }

  lemma OvertakenBreaks(tr: seq<Store>, steps: seq<Step>, j: nat, i: nat)
    requires Run(tr, steps) && j < i < |steps| && Overtakes(tr, steps, j, i)
    ensures !AllWithin(tr[i + 1])
  {
    var id := steps[i].id;
    EditSets(tr, steps, j);
    AmountStays(tr, steps, j + 1, i, id);
    CreditSets(tr, steps, i);
    assert !Within(tr[i + 1].bills[id]);
  }

  /** The last edit of the bill's money from a on, before i. */
  lemma {:induction false} LastSet(tr: seq<Store>, steps: seq<Step>, a: nat, i: nat, id: string) returns (j: nat)
    requires a <= i <= |steps| <= |tr| && exists x :: a <= x < i && SetsMoney(tr, steps, x, id)
    ensures a <= j < i && SetsMoney(tr, steps, j, id) && forall x :: j < x < i ==> !SetsMoney(tr, steps, x, id)
  {
    if SetsMoney(tr, steps, i - 1, id) {
      j := i - 1;
    } else {
      j := LastSet(tr, steps, a, i - 1, id);
    }
  }

  lemma CreditFits(tr: seq<Store>, steps: seq<Step>, k: nat)
    requires Run(tr, steps) && k < |steps| && steps[k].Crediting? && forall j :: 0 <= j < k ==> !Overtakes(tr, steps, j, k)
    ensures steps[k].id in tr[k + 1].bills && Within(tr[k + 1].bills[steps[k].id])
  {
    var id, at := steps[k].id, steps[k].at;
    CreditSets(tr, steps, k);
    if exists x :: at <= x < k && SetsMoney(tr, steps, x, id) {
      var j := LastSet(tr, steps, at, k, id);
      EditSets(tr, steps, j);
      AmountStays(tr, steps, j + 1, k, id);
      assert !Overtakes(tr, steps, j, k);
    } else {
      AmountStays(tr, steps, at, k, id);
    }
  }

  lemma StepWithin(tr: seq<Store>, steps: seq<Step>, k: nat)
    requires Run(tr, steps) && k < |steps| && AllWithin(tr[k]) && !LowersUnder(tr, steps, k)
    requires forall j :: 0 <= j < k ==> !Overtakes(tr, steps, j, k)
    ensures AllWithin(tr[k + 1])
  {
    if steps[k].Crediting? {
      CreditFits(tr, steps, k);
    }
    var t := tr[k + 1];
    forall x | x in t.bills ensures Within(t.bills[x]) {
      StepFigures(tr, steps, k, x);
      assert x in tr[k].bills ==> Within(tr[k].bills[x]);
    }
  }

  lemma {:induction false} WithinTo(tr: seq<Store>, steps: seq<Step>, n: nat)
    requires Run(tr, steps) && n <= |steps| && NothingUndercut(tr, steps, n)
    ensures forall k :: 0 <= k <= n ==> AllWithin(tr[k])
  {
    if n > 0 {
      WithinTo(tr, steps, n - 1);
      StepWithin(tr, steps, n - 1);
    }
  }

  /**
   No bill is credited past its amount up to point n if and only if no edit before n set a bill under what it was credited,
   and none overtook a credit in flight leaving less than that credit makes in all.
   */
  lemma WithinIff(tr: seq<Store>, steps: seq<Step>, n: nat)
    requires Run(tr, steps) && n <= |steps|
    ensures (forall k :: 0 <= k <= n ==> AllWithin(tr[k])) <==> NothingUndercut(tr, steps, n)
  {
    if NothingUndercut(tr, steps, n) {
      WithinTo(tr, steps, n);
    } else if j :| 0 <= j < n && LowersUnder(tr, steps, j) {
      LoweredBreaks(tr, steps, j);
    } else {
      var j, i :| 0 <= j < i < n && Overtakes(tr, steps, j, i);
      OvertakenBreaks(tr, steps, j, i);
    }
  }

  // ---- runs that lower no amount ----

  /** No edit sets a bill below the amount it read. */
  ghost predicate LowersNone(tr: seq<Store>, steps: seq<Step>)
    requires Run(tr, steps)
  {
    forall j :: 0 <= j < |steps| && steps[j].Editing? && SetsMoney(tr, steps, j, steps[j].id) ==>
      tr[steps[j].at].bills[steps[j].id].amount <= SetTo(tr, steps, j)
  }

  lemma {:induction false} AmountsGrow(tr: seq<Store>, steps: seq<Step>, a: nat, i: nat, id: string)
    requires Run(tr, steps) && LowersNone(tr, steps) && a <= i <= |steps| && id in tr[a].bills
    ensures id in tr[i].bills && tr[a].bills[id].amount <= tr[i].bills[id].amount
    decreases i
  {
    if a < i {
      AmountsGrow(tr, steps, a, i - 1, id);
      StepFigures(tr, steps, i - 1, id);
      if SetsMoney(tr, steps, i - 1, id) {
        SetsFromStored(tr, steps, i - 1);
      }
    }
  }

  /** The amount an edit of money read is the amount stored when it commits. */
  lemma SetsFromStored(tr: seq<Store>, steps: seq<Step>, j: nat)
    requires Run(tr, steps) && j < |steps| && steps[j].Editing? && SetsMoney(tr, steps, j, steps[j].id)
    ensures steps[j].id in tr[j].bills && tr[j].bills[steps[j].id].amount == tr[steps[j].at].bills[steps[j].id].amount
  {
    assert Follows(tr, steps, j);
    RunFresh(tr, steps, steps[j].at, j, steps[j].id);
  }

  lemma {:induction false} RaisesUndercutNone(tr: seq<Store>, steps: seq<Step>, n: nat)
    requires Run(tr, steps) && LowersNone(tr, steps) && n <= |steps|
    ensures NothingUndercut(tr, steps, n)
  {
    if n > 0 {
      var m := n - 1;
      RaisesUndercutNone(tr, steps, m);
      WithinTo(tr, steps, m);
      RaiseKeepsOver(tr, steps, m);
      forall j | 0 <= j < m ensures !Overtakes(tr, steps, j, m) {
        RaiseNotOvertakes(tr, steps, j, m);
      }
    }
  }

  lemma RaiseKeepsOver(tr: seq<Store>, steps: seq<Step>, k: nat)
    requires Run(tr, steps) && LowersNone(tr, steps) && k < |steps| && AllWithin(tr[k])
    ensures !LowersUnder(tr, steps, k)
  {
    if steps[k].Editing? && SetsMoney(tr, steps, k, steps[k].id) {
      SetsFromStored(tr, steps, k);
      assert Within(tr[k].bills[steps[k].id]);
    }
  }

  lemma RaiseNotOvertakes(tr: seq<Store>, steps: seq<Step>, j: nat, i: nat)
    requires Run(tr, steps) && LowersNone(tr, steps) && j < i < |steps|
    ensures !Overtakes(tr, steps, j, i)
  {
    if Overtakes(tr, steps, j, i) {
      CreditSets(tr, steps, i);
      EditSets(tr, steps, j);
      AmountsGrow(tr, steps, steps[i].at, j + 1, steps[i].id);
    }
  }

  /** When no edit lowers a bill's amount no credit ever passes it, in any interleaving. */
  lemma CreditsNeverPass(tr: seq<Store>, steps: seq<Step>, k: nat, id: string)
    requires Run(tr, steps) && LowersNone(tr, steps) && k <= |steps| && id in tr[k].bills
    ensures Within(tr[k].bills[id])
  {
    RaisesUndercutNone(tr, steps, k);
    WithinTo(tr, steps, k);
  }
}
