/** What each bill operation does to the ledger's balances, account by account, and to the row it commits. */
module BillMoves {
  import opened Calendar
  import opened Installments
  import opened Ledger
  import opened Sums
  import opened Bills
  import opened BillInvariant
  import opened BillSteps
  import opened BillRuns
  import BillCredits

  /** What account a gained from s to t. */
  function Moved(s: Store, t: Store, a: Account): Cents { Balance(t.log, a) - Balance(s.log, a) }

  lemma PostedMoves(s: Store, id: string, b: Bill, tx: Tx, a: Account)
    ensures Moved(s, Posted(s, id, b, tx), a) == Net(tx, a)
  {
    Append(s.log, tx, a);
  }

  // ---- settling ----

  /**
   A settlement takes from (gives to) the paying account exactly what was paid, clears the bill's amount from its control
   account, puts the gap on the difference category, and touches no other account.
   */
  lemma SettlementMoves(s: Store, read: Bill, id: string, paid: Cents, difference: Option<Account>, date: Date, into: Option<Account>, a: Account)
    requires Settle(s, read, id, paid, difference, date, into).Committed?
    ensures var t := Settle(s, read, id, paid, difference, date, into).store;
            && Posts(s.log, t.log, Settlement, date)
            && Moved(s, t, a) == AtAccount(a, Control(read.direction), Sign(read.direction) * read.amount)
                                 - AtAccount(a, if into.Some? then into.value else read.account, Sign(read.direction) * paid)
                                 + (if paid != read.amount && difference.Some? then AtAccount(a, difference.value, Sign(read.direction) * (paid - read.amount)) else 0)
  {
    var f := FactsOf(Into(read, into));
    SettleNetsEach(f, paid, difference, date, a);
    PostedMoves(s, id, Into(s.bills[id], into).(status := Paid, listed := None, scheduled := None), SettleBill(f, paid, difference, date).value, a);
  }

  /** The row a settlement leaves: paid from that account, off the lists, and otherwise as stored. */
  lemma SettledRow(s: Store, read: Bill, id: string, paid: Cents, difference: Option<Account>, date: Date, into: Option<Account>)
    requires Settle(s, read, id, paid, difference, date, into).Committed?
    ensures var t := Settle(s, read, id, paid, difference, date, into).store;
            && id in s.bills && id in t.bills && t.notes == s.notes
            && t.bills[id] == s.bills[id].(status := Paid, listed := None, scheduled := None, txs := s.bills[id].txs + [|s.log|],
                                           account := if into.Some? then into.value else read.account)
  {
  }

  predicate Settles(read: Bill, paid: Cents, difference: Option<Account>, into: Option<Account>) {
    && 0 < paid <= MAX_LEG_AMOUNT && (paid == read.amount || difference.Some?)
    && (difference.Some? ==> difference.value.Category?) && (into.Some? ==> into.value.Cash?)
  }

  /** A settlement commits if and only if the guard holds, something is paid, a gap has its category, and the bank pays. */
  lemma SettleCommitsIff(s: Store, read: Bill, id: string, paid: Cents, difference: Option<Account>, date: Date, into: Option<Account>)
    requires ValidBill(read)
    ensures Settle(s, read, id, paid, difference, date, into).Committed? <==>
            read.status == Forecast && ForecastGuard(s, id, read) && Settles(read, paid, difference, into)
  {
    if Settles(read, paid, difference, into) {
      SettlePosts(Into(read, into), paid, difference, date);
    } else if difference.None? || difference.value.Category? {
      if into.None? || into.value.Cash? {
        SettleRefuses(Into(read, into), paid, difference, date);
      }
    }
  }

  lemma SettlePosts(b: Bill, paid: Cents, difference: Option<Account>, date: Date)
    requires ValidBill(b) && Settles(b, paid, difference, None)
    ensures SettleBill(FactsOf(b), paid, difference, date).Some?
  {
    var legs := SettleLegs(FactsOf(b), paid, difference);
    NetTwo(legs[0], legs[1], Payables);
    if |legs| == 3 {
      NetThree(legs[0], legs[1], legs[2], Payables);
      assert legs == [legs[0], legs[1], legs[2]];
    } else {
      assert legs == [legs[0], legs[1]];
    }
  }

  lemma SettleRefuses(b: Bill, paid: Cents, difference: Option<Account>, date: Date)
    requires paid <= 0 || paid > MAX_LEG_AMOUNT || (paid != b.amount && difference.None?)
    ensures SettleBill(FactsOf(b), paid, difference, date).None?
  {
    var legs := SettleLegs(FactsOf(b), paid, difference);
    assert legs[if b.direction == Payable then 1 else 0].amount == if b.direction == Payable then -paid else paid;
  }

  // ---- credit notes ----

  /** A note moves the bill's paying account and its category by its amount, one against the other, and no other account. */
  lemma CreditMoves(s: Store, read: Bill, id: string, note: string, amount: Cents, date: Date, a: Account)
    requires Credit(s, read, id, note, amount, date).Committed?
    ensures var t := Credit(s, read, id, note, amount, date).store;
            && Posts(s.log, t.log, Adjustment, date)
            && Moved(s, t, a) == Net(t.log[|s.log|], a)
            && Net(t.log[|s.log|], a) == AtAccount(a, read.account, Sign(read.direction) * amount) - AtAccount(a, read.category, Sign(read.direction) * amount)
  {
    CreditWrites(s, read, id, note, amount, date);
    var tx := CreditBill(FactsOf(read), amount, date).value;
    CreditNetsEach(FactsOf(read), amount, date, a);
    Append(s.log, tx, a);
  }

  /** A note is posted if and only if it is new, the bill is paid with credited as read, and what is left covers the amount. */
  lemma CreditCommitsIff(s: Store, read: Bill, id: string, note: string, amount: Cents, date: Date)
    requires ValidBill(read) && read.credited >= 0
    ensures Credit(s, read, id, note, amount, date).Committed? <==>
            && read.status == Paid && 0 < amount <= read.amount - read.credited && note !in s.notes
            && id in s.bills && s.bills[id].status == Paid && s.bills[id].credited == read.credited
  {
    if 0 < amount <= read.amount {
      NetTwo(Leg(read.account, amount), Leg(read.category, -amount), Payables);
      NetTwo(Leg(read.category, amount), Leg(read.account, -amount), Payables);
    }
  }

  /** What the notes posted on a bill before n took off the category each was posted to. */
  ghost function CreditPostings(tr: seq<Store>, steps: seq<Step>, n: nat, id: string): Cents
    requires Run(tr, steps) && n <= |steps|
  {
    if n == 0 then 0
    else CreditPostings(tr, steps, n - 1, id) + (if CreditsBill(tr, steps, n - 1, id) then Net(tr[n].log[|tr[n - 1].log|], tr[steps[n - 1].at].bills[id].category) else 0)
  }

  ghost predicate CreditsBill(tr: seq<Store>, steps: seq<Step>, k: nat, id: string)
    requires Run(tr, steps) && k < |steps|
  {
    steps[k].Crediting? && steps[k].id == id && steps[k].at <= k && id in tr[steps[k].at].bills && |tr[k].log| < |tr[k + 1].log|
  }

  /** Over any run a bill's credit postings net, on its category, to the opposite of what it recognised there, by what it says was credited. */
  lemma {:induction false} CreditsPosted(tr: seq<Store>, steps: seq<Step>, n: nat, id: string)
    requires Run(tr, steps) && n <= |steps|
    ensures CreditPostings(tr, steps, n, id) == if id in tr[n].bills then -Sign(tr[n].bills[id].direction) * tr[n].bills[id].credited else 0
  {
    if n > 0 {
      CreditsPosted(tr, steps, n - 1, id);
      if steps[n - 1].Crediting? && steps[n - 1].id == id {
        CreditStepPosts(tr, steps, n - 1);
      } else {
        OtherStepPosts(tr, steps, n - 1, id);
      }
    }
  }

  lemma CreditStepPosts(tr: seq<Store>, steps: seq<Step>, k: nat)
    requires Run(tr, steps) && k < |steps| && steps[k].Crediting?
    ensures var id := steps[k].id;
            && CreditsBill(tr, steps, k, id) && id in tr[k].bills && id in tr[k + 1].bills && tr[k].bills[id].direction == tr[k + 1].bills[id].direction
            && Net(tr[k + 1].log[|tr[k].log|], tr[steps[k].at].bills[id].category) == -Sign(tr[k].bills[id].direction) * steps[k].amount
            && tr[k + 1].bills[id].credited == tr[k].bills[id].credited + steps[k].amount
  {
    assert Follows(tr, steps, k);
    var st := steps[k];
    var read := tr[st.at].bills[st.id];
    RunFresh(tr, steps, st.at, k, st.id);
    CreditMoves(tr[k], read, st.id, st.note, st.amount, st.date, read.category);
    CreditWrites(tr[k], read, st.id, st.note, st.amount, st.date);
    CreditApart(read, st.amount, st.date);
  }

  lemma CreditApart(b: Bill, amount: Cents, date: Date)
    requires CreditBill(FactsOf(b), amount, date).Some?
    ensures b.account != b.category
  {
    var legs := CreditBill(FactsOf(b), amount, date).value.legs;
    assert legs[0].account != legs[1].account;
  }

  lemma OtherStepPosts(tr: seq<Store>, steps: seq<Step>, k: nat, id: string)
    requires Run(tr, steps) && k < |steps| && !(steps[k].Crediting? && steps[k].id == id)
    ensures !CreditsBill(tr, steps, k, id)
    ensures id in tr[k].bills ==> id in tr[k + 1].bills && tr[k].bills[id].direction == tr[k + 1].bills[id].direction
    ensures var t := tr[k + 1];
            id in t.bills ==> t.bills[id].credited == if id in tr[k].bills then tr[k].bills[id].credited else 0
  {
    RunLater(tr, steps, k, k + 1);
    assert Follows(tr, steps, k);
    OtherStepCredits(tr[..k + 1], steps[k], id);
  }

  lemma OtherStepCredits(p: seq<Store>, st: Step, id: string)
    requires |p| > 0 && InTime(st, |p| - 1) && Exec(p, st).Committed? && !(st.Crediting? && st.id == id)
    ensures var s, t := p[|p| - 1], Exec(p, st).store;
            id in t.bills ==> t.bills[id].credited == if id in s.bills then s.bills[id].credited else 0
  {
  }

  // ---- creating and canceling ----

  /** What recognising a bill puts on an account: its amount on the category, against its control account. */
  function Due(b: Bill, a: Account): Cents {
    AtAccount(a, b.category, Sign(b.direction) * b.amount) - AtAccount(a, Control(b.direction), Sign(b.direction) * b.amount)
  }

  lemma RecognizedIsDue(b: Bill, a: Account)
    requires ValidBill(b)
    ensures Recognized(b, a) == Due(b, a) && RecognizeBill(FactsOf(b), b.competence).Some?
  {
    RecognizedControl(b, b.direction);
    RecognizeNets(FactsOf(b), a);
  }

  /** A valid bill with an unused id is always created: as drafted, a forecast on the open list, on the work list if it settles itself. */
  lemma CreateMakes(s: Store, id: string, draft: Bill, a: Account)
    ensures Create(s, id, draft).Committed? <==> ValidBill(draft) && id !in s.bills
    ensures Create(s, id, draft).Committed? ==>
            var t := Create(s, id, draft).store;
            && Posts(s.log, t.log, Recognition, draft.competence) && Moved(s, t, a) == Due(draft, a)
            && t.bills == s.bills[id := draft.(status := Forecast, txs := [|s.log|], credited := 0, listed := Some(draft.due),
                                               scheduled := if draft.autoSettle then Some(draft.due) else None)]
  {
    if ValidBill(draft) {
      RecognizedIsDue(draft, a);
      Append(s.log, RecognizeBill(FactsOf(draft), draft.competence).value, a);
      assert [] + [|s.log|] == [|s.log|];
    }
  }

  /** A paid invoice: recognised and settled for its own amount, so cash stands against the category and the control account is clear. */
  lemma InvoiceMakes(s: Store, id: string, draft: Bill, paid: Date, a: Account)
    ensures RecordInvoice(s, id, draft, paid).Committed? <==> ValidBill(draft) && id !in s.bills
    ensures ValidBill(draft) && id in s.bills ==> RecordInvoice(s, id, draft, paid) == Refused(Exists)
    ensures RecordInvoice(s, id, draft, paid).Committed? ==>
            var t := RecordInvoice(s, id, draft, paid).store;
            && Moved(s, t, a) == AtAccount(a, draft.category, Sign(draft.direction) * draft.amount) - AtAccount(a, draft.account, Sign(draft.direction) * draft.amount)
            && id in t.bills && t.bills[id].status == Paid && t.bills[id].amount == draft.amount && t.bills[id].listed == None
            && |t.log| == |s.log| + 2 && Posts(s.log, t.log[..|s.log| + 1], Recognition, draft.competence) && Posts(t.log[..|s.log| + 1], t.log, Settlement, paid)
  {
    if ValidBill(draft) {
      var rec := RecognizeBill(FactsOf(draft), draft.competence);
      RecognizedIsDue(draft, a);
      SettlePosts(draft, draft.amount, None, paid);
      var settle := SettleBill(FactsOf(draft), draft.amount, None, paid);
      SettleNetsEach(FactsOf(draft), draft.amount, None, paid, a);
      Append(s.log, rec.value, a);
      Append(s.log + [rec.value], settle.value, a);
    }
  }

  /** A cancellation takes back exactly what the bill recognised, and commits whenever the guard holds. */
  lemma CancelMoves(s: Store, read: Bill, id: string, date: Date, a: Account)
    requires ValidBill(read)
    ensures Cancel(s, read, id, date).Committed? <==> read.status == Forecast && ForecastGuard(s, id, read)
    ensures Cancel(s, read, id, date).Committed? ==>
            var t := Cancel(s, read, id, date).store;
            Posts(s.log, t.log, Adjustment, date) && Moved(s, t, a) == -Due(read, a)
  {
    RecognizedIsDue(read, a);
    ReverseUndoes(RecognizeBill(FactsOf(read), read.competence).value, 0, date);
    NegateNets(RecognizeLegs(FactsOf(read)), a);
    if CancelBill(FactsOf(read), date).Some? {
      Append(s.log, CancelBill(FactsOf(read), date).value, a);
    }
  }

  // ---- editing ----

  /** The attribute after an edit: what it asks for where that differs from what was read, else what is stored. */
  predicate Takes<T(==)>(asked: Option<T>, read: T, stored: T, after: T) {
    after == if asked.Some? && asked.value != read then asked.value else stored
  }

  /** Each attribute the edit asks to change becomes what it asks for, and the others stay as stored. */
  predicate Applied(read: Bill, cur: Bill, e: Change, after: Bill) {
    && Takes(e.amount, read.amount, cur.amount, after.amount)
    && Takes(e.category, read.category, cur.category, after.category)
    && Takes(e.account, read.account, cur.account, after.account)
    && Takes(e.due, read.due, cur.due, after.due)
    && Takes(e.description, read.description, cur.description, after.description)
    && Takes(e.autoSettle, read.autoSettle, cur.autoSettle, after.autoSettle)
    && after.direction == cur.direction && after.status == cur.status && after.competence == cur.competence
    && after.credited == cur.credited && after.origin == cur.origin
  }

  lemma RowApplies(read: Bill, cur: Bill, e: Change, txs: seq<TxId>)
    requires cur.amount == read.amount && cur.category == read.category
    ensures Applied(read, cur, e, EditRow(cur, read, e, txs))
  {
  }

  /** What an edit asks for is what the bill becomes, attribute by attribute; no other bill changes. */
  lemma EditApplies(s: Store, read: Bill, id: string, e: Change)
    requires id in s.bills && FreshBill(s, id, read) && Edit(s, read, id, e).Committed?
    ensures var t := Edit(s, read, id, e).store;
            id in t.bills && Applied(read, s.bills[id], e, t.bills[id]) && t.bills - {id} == s.bills - {id} && t.notes == s.notes
  {
    if Edited(read, e) != read {
      RowApplies(read, s.bills[id], e, s.bills[id].txs);
      RowApplies(read, s.bills[id], e, s.bills[id].txs + [|s.log|]);
    }
  }

  /** The ledger moves by the new recognition less the old, and not at all when neither amount nor category changes. */
  lemma EditMoves(s: Store, read: Bill, id: string, e: Change, a: Account)
    requires ValidBill(read) && Edit(s, read, id, e).Committed?
    ensures var t := Edit(s, read, id, e).store;
            && Moved(s, t, a) == Due(Edited(read, e), a) - Due(read, a)
            && (if ChangesMoney(read, e) then Posts(s.log, t.log, Adjustment, read.competence) else t.log == s.log)
  {
    var next := Edited(read, e);
    RecognizedIsDue(read, a);
    RecognizedIsDue(next, a);
    if ChangesMoney(read, e) {
      AdjustNets(FactsOf(read), FactsOf(next), read.competence, a);
      Append(s.log, AdjustBill(FactsOf(read), FactsOf(next), read.competence).value, a);
    }
  }

  /** An edit to a valid bill commits if and only if the bill read is a forecast and the guard holds, or it changes nothing. */
  lemma EditCommitsIff(s: Store, read: Bill, id: string, e: Change)
    requires ValidBill(read)
    ensures Edit(s, read, id, e).Committed? <==>
            read.status == Forecast && ValidBill(Edited(read, e)) && (Edited(read, e) == read || ForecastGuard(s, id, read))
  {
    if ValidBill(Edited(read, e)) && ChangesMoney(read, e) {
      AdjustPosts(read, Edited(read, e), read.competence);
    }
  }

  /** A change of amount or category always has its balanced net transaction. */
  lemma AdjustPosts(b: Bill, next: Bill, date: Date)
    requires ValidBill(b) && ValidBill(next) && b.direction == next.direction && (b.amount != next.amount || b.category != next.category)
    ensures AdjustBill(FactsOf(b), FactsOf(next), date).Some?
  {
    RecognizedControl(b, Payable);
    RecognizedControl(next, Payable);
    var k, x, y := Control(b.direction), b.category, next.category;
    AdjustmentNets(b, next, k);
    AdjustmentNets(b, next, x);
    AdjustmentNets(b, next, y);
    var legs := AdjustmentLegs(FactsOf(b), FactsOf(next));
    var p, q := if b.direction == Payable then x else k, if b.direction == Payable then k else x;
    if x == y {
      NetsTwo(legs, p, q);
    } else {
      NetsThree(legs, p, q, y);
    }
  }

  lemma NetsTwo(legs: seq<Leg>, p: Account, q: Account)
    requires |legs| == 4 && legs[0].account == p && legs[1].account == q && legs[2].account == p && legs[3].account == q && p != q
    requires NetLegs(legs, p) == -NetLegs(legs, q) && 0 != NetLegs(legs, p) && -MAX_LEG_AMOUNT <= NetLegs(legs, p) <= MAX_LEG_AMOUNT
    ensures ValidLegs(NetOut(Accounts(legs), legs))
  {
    BillCredits.FourLegs(legs, p, q);
    BillCredits.NetOutTwo(p, q, legs);
    NetTwo(Leg(p, NetLegs(legs, p)), Leg(q, NetLegs(legs, q)), p);
  }

  lemma NetsThree(legs: seq<Leg>, p: Account, q: Account, r: Account)
    requires |legs| == 4 && legs[0].account == p && legs[1].account == q && p != q && q != r && p != r
    requires (legs[2].account == r && legs[3].account == q) || (legs[2].account == p && legs[3].account == r)
    requires NetLegs(legs, p) + NetLegs(legs, q) + NetLegs(legs, r) == 0 && NetLegs(legs, r) != 0
    requires -MAX_LEG_AMOUNT <= NetLegs(legs, p) <= MAX_LEG_AMOUNT && -MAX_LEG_AMOUNT <= NetLegs(legs, q) <= MAX_LEG_AMOUNT
    requires -MAX_LEG_AMOUNT <= NetLegs(legs, r) <= MAX_LEG_AMOUNT
    ensures ValidLegs(NetOut(Accounts(legs), legs))
  {
    OrderThree(legs, p, q, r);
    NetOutThree(p, q, r, legs);
    var x, y, z := Leg(p, NetLegs(legs, p)), Leg(q, NetLegs(legs, q)), Leg(r, NetLegs(legs, r));
    if x.amount == 0 {
      TwoBalance(y, z);
    } else if y.amount == 0 {
      TwoBalance(x, z);
    } else {
      ThreeBalance(x, y, z);
    }
  }

  predicate GoodLeg(l: Leg) { l.amount != 0 && -MAX_LEG_AMOUNT <= l.amount <= MAX_LEG_AMOUNT }

  lemma TwoBalance(x: Leg, y: Leg)
    requires GoodLeg(x) && GoodLeg(y) && x.account != y.account && x.amount + y.amount == 0
    ensures ValidLegs([x, y])
  {
    NetTwo(x, y, Payables);
  }

  lemma ThreeBalance(x: Leg, y: Leg, z: Leg)
    requires GoodLeg(x) && GoodLeg(y) && GoodLeg(z) && x.account != y.account && x.account != z.account && y.account != z.account
    requires x.amount + y.amount + z.amount == 0
    ensures ValidLegs([x, y, z])
  {
    NetThree(x, y, z, Payables);
  }

  lemma OrderThree(legs: seq<Leg>, p: Account, q: Account, r: Account)
    requires |legs| == 4 && legs[0].account == p && legs[1].account == q && p != q && q != r && p != r
    requires (legs[2].account == r && legs[3].account == q) || (legs[2].account == p && legs[3].account == r)
    ensures Accounts(legs) == [p, q, r]
  {
    assert legs[..3][..2] == legs[..2] && legs[..2][..1] == legs[..1] && legs[..1][..0] == [];
    assert Accounts(legs[..1]) == [p];
    assert Accounts(legs[..2]) == [p, q];
    assert Accounts(legs[..3]) == if legs[2].account == r then [p, q, r] else [p, q];
  }

  lemma NetOutThree(p: Account, q: Account, r: Account, legs: seq<Leg>)
    requires NetLegs(legs, r) != 0 && (NetLegs(legs, p) != 0 || NetLegs(legs, q) != 0)
    ensures var x, y, z := Leg(p, NetLegs(legs, p)), Leg(q, NetLegs(legs, q)), Leg(r, NetLegs(legs, r));
            NetOut([p, q, r], legs) == if x.amount == 0 then [y, z] else if y.amount == 0 then [x, z] else [x, y, z]
  {
    assert [p, q, r][..2] == [p, q] && [p, q][..1] == [p] && [p][..0] == [];
    assert NetOut([p], legs) == if NetLegs(legs, p) == 0 then [] else [Leg(p, NetLegs(legs, p))];
  }

  lemma AdjustmentNets(b: Bill, next: Bill, a: Account)
    requires ValidBill(b) && ValidBill(next)
    ensures NetLegs(AdjustmentLegs(FactsOf(b), FactsOf(next)), a) == Due(next, a) - Due(b, a)
  {
    RecognizedIsDue(b, a);
    RecognizedIsDue(next, a);
    NetConcat(NegateLegs(RecognizeLegs(FactsOf(b))), RecognizeLegs(FactsOf(next)), a);
    NegateNets(RecognizeLegs(FactsOf(b)), a);
  }
}
