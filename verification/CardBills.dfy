/** Paying, unpaying, canceling and editing statement bills keeps a card's books. */
module CardBills {
  import opened Calendar
  import opened Installments
  import opened Ledger
  import opened Sums
  import opened CardModel
  import opened CardInvariant

  /** The bill read agrees with the stored one as far as the number of transactions can tell. */
  ghost predicate FreshBill(s: Store, k: BillKey, read: StatementBill) {
    k in s.bills && |s.bills[k].txs| == |read.txs| ==> s.bills[k].txs == read.txs && s.bills[k].amount == read.amount
  }

  /** Only the bill k and the ledger changed. */
  ghost predicate BillStep(s: Store, t: Store, k: BillKey) {
    && t.card == s.card && t.items == s.items && t.purchases == s.purchases && t.frozen == s.frozen
    && s.log <= t.log && Markers(s) && Markers(t)
    && k in s.bills && k in t.bills && t.bills == s.bills[k := t.bills[k]]
    && t.bills[k].amount == s.bills[k].amount
    && (forall i :: i in t.reversed && i !in s.reversed ==>
          s.bills[k].txs != [] && i == s.bills[k].txs[|s.bills[k].txs| - 1] && i < |s.log| && s.log[i].kind == Settlement)
    && (t.bills[k].txs == s.bills[k].txs || (t.bills[k].txs != [] && t.bills[k].txs[|t.bills[k].txs| - 1] >= |s.log|))
  }

  lemma BillStepPurchases(s: Store, t: Store, k: BillKey)
    requires Purchases(s) && BillStep(s, t, k)
    ensures Purchases(t)
  {
    forall id | id in t.purchases ensures PurchaseOk(t, id) {
      assert PurchaseOk(s, id);
    }
  }

  lemma BillStepOther(s: Store, t: Store, k: BillKey, j: BillKey)
    requires BillStep(s, t, k) && j in s.bills && j != k && BillOk(s, j) && Apart(s)
    ensures BillOk(t, j)
  {
  }

  lemma BillStepTwo(s: Store, t: Store, k: BillKey, i: BillKey, j: BillKey)
    requires BillStep(s, t, k) && i in s.bills && j in s.bills && i != j && BillOk(s, i) && BillOk(s, j)
    requires s.bills[i].txs != [] && s.bills[j].txs != [] ==>
               s.bills[i].txs[|s.bills[i].txs| - 1] != s.bills[j].txs[|s.bills[j].txs| - 1]
    requires t.bills[i].txs != [] && t.bills[j].txs != []
    ensures t.bills[i].txs[|t.bills[i].txs| - 1] != t.bills[j].txs[|t.bills[j].txs| - 1]
  {
  }

  lemma BillStepApart(s: Store, t: Store, k: BillKey)
    requires BillStep(s, t, k) && Bills(s) && Apart(s)
    ensures Apart(t)
  {
    forall i, j | i in t.bills && j in t.bills && i != j && t.bills[i].txs != [] && t.bills[j].txs != []
      ensures t.bills[i].txs[|t.bills[i].txs| - 1] != t.bills[j].txs[|t.bills[j].txs| - 1]
    {
      assert BillOk(s, i) && BillOk(s, j);
      BillStepTwo(s, t, k, i, j);
    }
  }

  lemma BillStepBooks(s: Store, t: Store, k: BillKey)
    requires Books(s) && BillStep(s, t, k) && BillOk(t, k)
    ensures Books(t) && FrozenKept(s, t)
  {
    BillStepPurchases(s, t, k);
    BillStepBills(s, t, k);
    BillStepApart(s, t, k);
    BillStepFrozen(s, t, k);
  }

  lemma BillStepFrozen(s: Store, t: Store, k: BillKey)
    requires FrozenTotals(s) && BillStep(s, t, k)
    ensures FrozenTotals(t)
  {
    forall m | m in t.frozen ensures FrozenOk(t, m) {
      assert FrozenOk(s, m);
    }
  }

  lemma BillStepBills(s: Store, t: Store, k: BillKey)
    requires Books(s) && BillStep(s, t, k) && BillOk(t, k)
    ensures forall j :: j in t.bills ==> BillOk(t, j)
  {
    forall j | j in t.bills ensures BillOk(t, j) {
      if j != k {
        assert BillOk(s, j);
        BillStepOther(s, t, k, j);
      }
    }
  }

  predicate Owed(s: Store, k: BillKey)
    requires k in s.bills
  {
    s.bills[k].status == Forecast || (s.bills[k].status == Canceled && Names(s, k))
  }

  function OwedAmount(s: Store, k: BillKey): Cents
    requires k in s.bills
  {
    if Owed(s, k) then s.bills[k].amount else 0
  }

  lemma OutstandingBut(s: Store, t: Store, k: BillKey)
    requires BillStep(s, t, k)
    ensures Outstanding(t) - {k} == Outstanding(s) - {k}
  {
    forall j | j != k ensures j in Outstanding(t) <==> j in Outstanding(s) {
    }
  }

  lemma OutstandingMoves(s: Store, t: Store, k: BillKey)
    requires BillStep(s, t, k)
    ensures SumWhere(Outstanding(t), AnyBill()) - SumWhere(Outstanding(s), AnyBill()) == OwedAmount(t, k) - OwedAmount(s, k)
  {
    OutstandingBut(s, t, k);
    SumAside(Outstanding(s), AnyBill(), k);
    SumAside(Outstanding(t), AnyBill(), k);
  }

  lemma BillStepConserves(s: Store, t: Store, k: BillKey)
    requires Conserved(s) && BillStep(s, t, k)
    requires Debt(t) - Debt(s) == OwedAmount(t, k) - OwedAmount(s, k)
    ensures Conserved(t)
  {
    OutstandingMoves(s, t, k);
  }

  lemma SettledStep(s: Store, k: BillKey, tx: Tx, into: Option<Account>)
    requires Markers(s) && k in s.bills && BillOk(s, k) && s.bills[k].status == Forecast
    requires tx.kind == Settlement && ValidLegs(tx.legs) && Net(tx, CardOf(s)) == s.bills[k].amount
    ensures var t := Settled(s, k, tx, into);
            BillStep(s, t, k) && BillOk(t, k) && Debt(t) == Debt(s) - s.bills[k].amount
  {
    Append(s.log, tx, CardOf(s));
  }

  lemma SettleKeeps(s: Store, read: StatementBill, k: BillKey, paid: Cents, difference: Option<Account>, date: Date, into: Option<Account>)
    requires Inv(s) && FreshBill(s, k, read)
    requires Settle(s, read, k, paid, difference, date, into).Committed?
    ensures Inv(Settle(s, read, k, paid, difference, date, into).store) && FrozenKept(s, Settle(s, read, k, paid, difference, date, into).store)
  {
    var t := Settle(s, read, k, paid, difference, date, into).store;
    assert BillOk(s, k);
    SettleNets(FactsOf(s, read, into), paid, difference, date, CardOf(s));
    SettledStep(s, k, SettleBill(FactsOf(s, read, into), paid, difference, date).value, into);
    BillStepBooks(s, t, k);
    BillStepConserves(s, t, k);
  }

  lemma UnsettleStep(s: Store, read: StatementBill, k: BillKey, date: Date)
    requires Markers(s) && k in s.bills && BillOk(s, k) && FreshBill(s, k, read)
    requires Unsettle(s, read, k, date).Committed?
    ensures var t := Unsettle(s, read, k, date).store;
            BillStep(s, t, k) && BillOk(t, k) && Debt(t) == Debt(s) + s.bills[k].amount
  {
    var last := read.txs[|read.txs| - 1];
    ReverseUndoes(s.log[last], last, date);
    Append(s.log, UndoLast(s, read, date).value, CardOf(s));
  }

  lemma UnsettleKeeps(s: Store, read: StatementBill, k: BillKey, date: Date)
    requires Inv(s) && FreshBill(s, k, read)
    requires Unsettle(s, read, k, date).Committed?
    ensures Inv(Unsettle(s, read, k, date).store) && FrozenKept(s, Unsettle(s, read, k, date).store)
  {
    var t := Unsettle(s, read, k, date).store;
    assert BillOk(s, k);
    UnsettleStep(s, read, k, date);
    BillStepBooks(s, t, k);
    BillStepConserves(s, t, k);
  }

  /** The last transaction of a bill that is not paid, if it has one, is a reversal. */
  ghost predicate LastReversed(s: Store, k: BillKey)
    requires k in s.bills
  {
    var b := s.bills[k];
    b.status != Paid && b.txs != [] ==> b.txs[|b.txs| - 1] < |s.log| && s.log[b.txs[|b.txs| - 1]].kind == Reversal
  }

  /** Restoring never commits on a statement bill: its cancel appends nothing, so its last transaction is a reversal. */
  lemma RestoreNeverCommits(s: Store, read: StatementBill, k: BillKey, date: Date)
    requires (k in s.bills ==> LastReversed(s, k)) && FreshBill(s, k, read)
    ensures Restore(s, read, k, date).Refused?
  {
  }

  lemma CancelKeeps(s: Store, archived: bool, read: StatementBill, k: BillKey)
    requires Inv(s)
    requires CardModel.CancelBill(s, archived, read, k).Committed?
    ensures Inv(CardModel.CancelBill(s, archived, read, k).store) && FrozenKept(s, CardModel.CancelBill(s, archived, read, k).store)
  {
    var t := CardModel.CancelBill(s, archived, read, k).store;
    assert BillOk(s, k);
    BillStepBooks(s, t, k);
    BillStepConserves(s, t, k);
  }

  lemma EditBillKeeps(s: Store, read: StatementBill, k: BillKey, account: Account, due: Date)
    requires Inv(s)
    requires EditBill(s, read, k, account, due).Committed?
    ensures Inv(EditBill(s, read, k, account, due).store) && FrozenKept(s, EditBill(s, read, k, account, due).store)
  {
    var t := EditBill(s, read, k, account, due).store;
    assert BillOk(s, k);
    BillStepBooks(s, t, k);
    BillStepConserves(s, t, k);
  }

  /** Changing a card's settings or archiving it moves no money. */
  lemma SettingsKeep(s: Store, c: CardRow)
    requires Inv(s)
    requires c == s.card.(closingDay := c.closingDay, dueDay := c.dueDay, paying := c.paying, archived := c.archived) && ValidSettings(c)
    ensures Inv(s.(card := c)) && FrozenKept(s, s.(card := c))
  {
    SettingsStep(s, c);
    StepBooks(s, s.(card := c), CreditOwner(""));
    StepConserves(s, s.(card := c), CreditOwner(""));
  }

  lemma SettingsStep(s: Store, c: CardRow)
    requires Markers(s) && Owners(s) && ValidSettings(c)
    requires c == s.card.(closingDay := c.closingDay, dueDay := c.dueDay, paying := c.paying, archived := c.archived)
    ensures ItemStep(s, s.(card := c), CreditOwner(""))
  {
  }
}
