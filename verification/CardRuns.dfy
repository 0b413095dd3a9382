/**
 Every interleaving of the card operations. A run is the sequence of stores the committed transactions produced; each
 transaction was planned on rows read at earlier points of the run, so any number of operations may be in flight. Reads may
 be stale, each on its own; the one order assumed is that of a close, whose consistent query sums items no older than the
 card row it read.
 */
module CardRuns {
  import opened Calendar
  import opened Installments
  import opened Ledger
  import opened Sums
  import opened CardModel
  import opened CardPlans
  import opened CardInvariant
  import opened CardBills

  /** A committed operation, with the positions in the run where it read what it acted on. */
  datatype Step =
    | Buying(cardAt: nat, id: string, total: Cents, n: int, date: Date, category: Account)
    | Crediting(cardAt: nat, id: string, amount: Cents, date: Date, category: Account)
    | Advancing(cardAt: nat, rowAt: nat, id: string)
    | Refunding(cardAt: nat, rowAt: nat, id: string, date: Date)
    | Editing(rowAt: nat, id: string, category: Account)
    | Closing(cardAt: nat, itemsAt: nat)
    | Reopening(cardAt: nat, rowAt: nat, billAt: nat, month: Month)
    | Settling(billAt: nat, key: BillKey, paid: Cents, difference: Option<Account>, date: Date, into: Option<Account>)
    | Unsettling(billAt: nat, key: BillKey, date: Date)
    | Restoring(billAt: nat, key: BillKey, date: Date)
    | Canceling(cardAt: nat, billAt: nat, key: BillKey)
    | EditingBill(billAt: nat, key: BillKey, account: Account, due: Date)
    | Updating(closingDay: int, dueDay: int, paying: Account)
    | Archiving

  /** The step's reads happened by position k, in the program's order. */
  predicate InTime(st: Step, k: nat) {
    match st
    case Buying(c, _, _, _, _, _) => c <= k
    case Crediting(c, _, _, _, _) => c <= k
    case Advancing(c, r, _) => c <= k && r <= k
    case Refunding(c, r, _, _) => c <= k && r <= k
    case Editing(r, _, _) => r <= k
    case Closing(c, i) => c <= i <= k
    case Reopening(c, r, b, _) => c <= k && r <= k && b <= k
    case Settling(b, _, _, _, _, _) => b <= k
    case Unsettling(b, _, _) => b <= k
    case Restoring(b, _, _) => b <= k
    case Canceling(c, b, _) => c <= k && b <= k
    case EditingBill(b, _, _, _) => b <= k
    case Updating(_, _, _) => true
    case Archiving => true
  }

  function Lookup<K, V>(m: map<K, V>, k: K): Option<V> { if k in m then Some(m[k]) else None }

  /** Commits st on the run's last store with what it read earlier in the run. */
  ghost function Exec(tr: seq<Store>, st: Step): Outcome
    requires |tr| > 0 && InTime(st, |tr| - 1)
  {
    var s := tr[|tr| - 1];
    match st
    case Buying(c, id, total, n, date, category) => Buy(s, tr[c].card, id, total, n, date, category)
    case Crediting(c, id, amount, date, category) => Credit(s, tr[c].card, id, amount, date, category)
    case Advancing(c, r, id) =>
      if id in tr[r].purchases then Advance(s, tr[c].card, tr[r].purchases[id], id) else Refused(NotFound)
    case Refunding(c, r, id, date) =>
      if id in tr[r].purchases then Refund(s, tr[c].card, tr[r].purchases[id], id, date) else Refused(NotFound)
    case Editing(r, id, category) =>
      if id in tr[r].purchases then EditPurchase(s, tr[r].purchases[id], id, category) else Refused(NotFound)
    case Closing(c, i) => Close(s, tr[c].card, StatementTotal(tr[i], tr[c].card.open))
    case Reopening(c, r, b, m) =>
      var row := Lookup(tr[r].frozen, m);
      var bill := if row.Some? && row.value.bill.Some? then Lookup(tr[b].bills, row.value.bill.value) else None;
      Reopen(s, tr[c].card, row, bill, m)
    case Settling(b, k, paid, difference, date, into) =>
      if k in tr[b].bills then Settle(s, tr[b].bills[k], k, paid, difference, date, into) else Refused(NotFound)
    case Unsettling(b, k, date) => if k in tr[b].bills then Unsettle(s, tr[b].bills[k], k, date) else Refused(NotFound)
    case Restoring(b, k, date) => if k in tr[b].bills then Restore(s, tr[b].bills[k], k, date) else Refused(NotFound)
    case Canceling(c, b, k) =>
      if k in tr[b].bills then CardModel.CancelBill(s, tr[c].card.archived, tr[b].bills[k], k) else Refused(NotFound)
    case EditingBill(b, k, account, due) => if k in tr[b].bills then EditBill(s, tr[b].bills[k], k, account, due) else Refused(NotFound)
    case Updating(c, d, p) => UpdateCard(s, c, d, p)
    case Archiving => Archive(s)
  }

  ghost predicate Follows(tr: seq<Store>, steps: seq<Step>, k: nat)
    requires |tr| == |steps| + 1 && k < |steps|
  {
    InTime(steps[k], k) && Exec(tr[..k + 1], steps[k]) == Committed(tr[k + 1])
  }

  ghost predicate Created(s: Store) {
    exists id, month, c, d, paying :: s == NewCard(id, month, c, d, paying) && 1 <= c <= 31 && 1 <= d <= 31
  }

  /** A run of a card from its creation. */
  ghost predicate Run(tr: seq<Store>, steps: seq<Step>) {
    && |tr| == |steps| + 1
    && Created(tr[0])
    && forall k {:trigger Follows(tr, steps, k)} :: 0 <= k < |steps| ==> Follows(tr, steps, k)
  }

  /** The plan an advance read has nothing past the open month it read that was advanced before. */
  ghost predicate AdvancesOnce(p: seq<Store>, st: Step)
    requires |p| > 0 && InTime(st, |p| - 1)
  {
    st.Advancing? && st.id in p[st.rowAt].purchases ==>
      NeverAdvancedPast(p[st.rowAt].purchases[st.id].parts, p[st.cardAt].card.open)
  }

  // ---- what guards can tell about the past ----

  ghost predicate RowLater(a: Purchase, b: Purchase) {
    && a.rev <= b.rev && (a.refunded ==> b.refunded)
    && (a.rev == b.rev && !b.refunded ==> a == b)
  }

  ghost predicate BillLater(a: StatementBill, b: StatementBill) { a.amount == b.amount && a.txs <= b.txs }

  /** b comes after a: versions, revisions and transaction lists only grow, and unchanged ones mean unchanged rows. */
  ghost predicate Later(a: Store, b: Store) {
    && a.card.version <= b.card.version && a.card.first == b.card.first
    && (a.card.version == b.card.version ==> a.card.open <= b.card.open)
    && (a.card.version == b.card.version && a.card.open == b.card.open ==> a.items == b.items && a.frozen == b.frozen)
    && (forall id :: id in a.purchases ==> id in b.purchases && RowLater(a.purchases[id], b.purchases[id]))
    && (forall k :: k in a.bills ==> k in b.bills && BillLater(a.bills[k], b.bills[k]))
  }

  lemma LaterTrans(a: Store, b: Store, c: Store)
    requires Later(a, b) && Later(b, c)
    ensures Later(a, c)
  {
    forall id | id in a.purchases ensures id in c.purchases && RowLater(a.purchases[id], c.purchases[id]) {
      assert RowLater(a.purchases[id], b.purchases[id]) && RowLater(b.purchases[id], c.purchases[id]);
    }
    forall k | k in a.bills ensures k in c.bills && BillLater(a.bills[k], c.bills[k]) {
      assert BillLater(a.bills[k], b.bills[k]) && BillLater(b.bills[k], c.bills[k]);
    }
  }

  lemma BuyingLater(s: Store, read: CardRow, id: string, total: Cents, n: int, date: Date, category: Account)
    requires Buy(s, read, id, total, n, date, category).Committed?
    ensures Later(s, Buy(s, read, id, total, n, date, category).store)
  {
  }

  lemma CreditingLater(s: Store, read: CardRow, id: string, amount: Cents, date: Date, category: Account)
    requires Credit(s, read, id, amount, date, category).Committed?
    ensures Later(s, Credit(s, read, id, amount, date, category).store)
  {
  }

  lemma AdvancingLater(s: Store, read: CardRow, row: Purchase, id: string)
    requires Advance(s, read, row, id).Committed?
    ensures Later(s, Advance(s, read, row, id).store)
  {
  }

  lemma RefundingLater(s: Store, read: CardRow, row: Purchase, id: string, date: Date)
    requires Refund(s, read, row, id, date).Committed?
    ensures Later(s, Refund(s, read, row, id, date).store)
  {
  }

  lemma EditingLater(s: Store, row: Purchase, id: string, category: Account)
    requires EditPurchase(s, row, id, category).Committed?
    ensures Later(s, EditPurchase(s, row, id, category).store)
  {
  }

  lemma ClosingLater(s: Store, read: CardRow, total: Cents)
    requires Close(s, read, total).Committed?
    ensures Later(s, Close(s, read, total).store)
  {
  }

  lemma ReopeningLater(s: Store, read: CardRow, row: Option<Frozen>, bill: Option<StatementBill>, m: Month)
    requires Reopen(s, read, row, bill, m).Committed?
    ensures Later(s, Reopen(s, read, row, bill, m).store)
  {
  }

  lemma SettlingLater(s: Store, read: StatementBill, k: BillKey, paid: Cents, difference: Option<Account>, date: Date, into: Option<Account>)
    requires Settle(s, read, k, paid, difference, date, into).Committed?
    ensures Later(s, Settle(s, read, k, paid, difference, date, into).store)
  {
  }

  lemma UndoingLater(s: Store, read: StatementBill, k: BillKey, from: Status, date: Date)
    requires Undone(s, read, k, from, date).Committed?
    ensures Later(s, Undone(s, read, k, from, date).store)
  {
  }

  /** Every committed transaction moves the store forward. */
  lemma ExecLater(tr: seq<Store>, st: Step)
    requires |tr| > 0 && InTime(st, |tr| - 1) && Exec(tr, st).Committed?
    ensures Later(tr[|tr| - 1], Exec(tr, st).store)
  {
    var s := tr[|tr| - 1];
    match st
    case Buying(c, id, total, n, date, category) => BuyingLater(s, tr[c].card, id, total, n, date, category);
    case Crediting(c, id, amount, date, category) => CreditingLater(s, tr[c].card, id, amount, date, category);
    case Advancing(c, r, id) => AdvancingLater(s, tr[c].card, tr[r].purchases[id], id);
    case Refunding(c, r, id, date) => RefundingLater(s, tr[c].card, tr[r].purchases[id], id, date);
    case Editing(r, id, category) => EditingLater(s, tr[r].purchases[id], id, category);
    case Closing(c, i) => ClosingLater(s, tr[c].card, StatementTotal(tr[i], tr[c].card.open));
    case Reopening(c, r, b, m) =>
      var row := Lookup(tr[r].frozen, m);
      var bill := if row.Some? && row.value.bill.Some? then Lookup(tr[b].bills, row.value.bill.value) else None;
      ReopeningLater(s, tr[c].card, row, bill, m);
    case Settling(b, k, paid, difference, date, into) => SettlingLater(s, tr[b].bills[k], k, paid, difference, date, into);
    case Unsettling(b, k, date) => UndoingLater(s, tr[b].bills[k], k, Paid, date);
    case Restoring(b, k, date) => UndoingLater(s, tr[b].bills[k], k, Canceled, date);
    case Canceling(c, b, k) =>
    case EditingBill(b, k, account, due) =>
    case Updating(c, d, p) =>
    case Archiving =>
  }

  lemma StepLater(tr: seq<Store>, steps: seq<Step>, k: nat)
    requires Run(tr, steps) && k < |steps|
    ensures Later(tr[k], tr[k + 1])
  {
    assert Follows(tr, steps, k);
    assert tr[..k + 1][|tr[..k + 1]| - 1] == tr[k];
    ExecLater(tr[..k + 1], steps[k]);
  }

  lemma {:induction false} RunLater(tr: seq<Store>, steps: seq<Step>, i: nat, j: nat)
    requires Run(tr, steps) && i <= j < |tr|
    ensures Later(tr[i], tr[j])
    decreases j - i
  {
    if i < j {
      RunLater(tr, steps, i, j - 1);
      StepLater(tr, steps, j - 1);
      LaterTrans(tr[i], tr[j - 1], tr[j]);
    }
  }

  // ---- what was read is what is stored, as far as the guards can tell ----

  lemma RowFresh(a: Store, s: Store, id: string)
    requires Later(a, s) && id in a.purchases
    ensures FreshRow(s, id, a.purchases[id])
  {
  }

  lemma BillFresh(a: Store, s: Store, k: BillKey)
    requires Later(a, s) && k in a.bills
    ensures FreshBill(s, k, a.bills[k])
  {
    assert BillLater(a.bills[k], s.bills[k]);
  }

  /** A close that commits froze the sum of the items as they are now, though it summed them earlier. */
  lemma CloseFresh(a: Store, b: Store, s: Store)
    requires Later(a, b) && Later(b, s)
    requires a.card.open == s.card.open && a.card.version == s.card.version
    ensures StatementTotal(b, a.card.open) == StatementTotal(s, a.card.open) && b.frozen == s.frozen
  {
  }

  lemma ReopenFresh(a: Store, b: Store, s: Store, m: Month)
    requires Later(a, b) && Later(b, s)
    requires a.card.open == m + 1 == s.card.open && a.card.version == s.card.version
    ensures b.frozen == s.frozen
  {
  }

  ghost predicate Ordered(tr: seq<Store>) { forall i, j :: 0 <= i <= j < |tr| ==> Later(tr[i], tr[j]) }

  /** Step k committed on store k, with the stores before it. */
  lemma Unfold(tr: seq<Store>, steps: seq<Step>, k: nat)
    requires Run(tr, steps) && 0 < k < |tr|
    ensures InTime(steps[k - 1], k - 1) && Exec(tr[..k], steps[k - 1]) == Committed(tr[k])
    ensures tr[..k - 1 + 1] == tr[..k]
  {
    assert Follows(tr, steps, k - 1);
  }

  lemma PrefixOrdered(tr: seq<Store>, steps: seq<Step>, k: nat)
    requires Run(tr, steps) && k < |tr|
    ensures Ordered(tr[..k + 1])
  {
    var p := tr[..k + 1];
    forall i, j | 0 <= i <= j < |p| ensures Later(p[i], p[j]) {
      RunLater(tr, steps, i, j);
    }
  }

  /** One more committed step extends a run. */
  lemma RunExtend(tr: seq<Store>, steps: seq<Step>, st: Step, t: Store)
    requires Run(tr, steps) && InTime(st, |tr| - 1) && Exec(tr, st) == Committed(t)
    ensures Run(tr + [t], steps + [st])
  {
    var tr', steps' := tr + [t], steps + [st];
    forall k | 0 <= k < |steps'| ensures Follows(tr', steps', k) {
      assert tr'[..k + 1] == tr[..k + 1];
      if k < |steps| {
        assert Follows(tr, steps, k);
      } else {
        assert tr[..k + 1] == tr;
      }
    }
  }
}
