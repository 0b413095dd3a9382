/**
 The double-entry ledger: validated transactions, the posting rules that build them, and the append-only log whose
 balances are the sums of its legs (domain/finance/ledger.go, domain/finance/posting.go).
 A transaction's id is its position in the log: fresh for every post, never reused.
 */
module Ledger {
  import opened Calendar
  import opened Installments

  const MAX_LEGS := 8
  const MAX_LEG_AMOUNT: Cents := 1_000_000_000_000

  type TxId = nat

  /** The class of an account is part of its name, as the chart fixes it when the account is created. */
  datatype Account =
    | Payables
    | Receivables
    | OpeningBalance
    | Category(id: string, expense: bool)
    | Cash(id: string)
    | CardAccount(id: string)

  datatype Kind = Recognition | Settlement | CardBuy | Adjustment | Reversal | BankLine

  datatype Leg = Leg(account: Account, amount: Cents)

  datatype Tx = Tx(kind: Kind, date: Date, legs: seq<Leg>, adjusts: Option<TxId>)

  datatype Direction = Payable | Receivable

  /** A bill's life: owed, settled, or withdrawn. */
  datatype Status = Forecast | Paid | Canceled

  /** clears is the card a statement bill settles instead of the system payables. */
  datatype Facts = Facts(direction: Direction, amount: Cents, category: Account, account: Account, clears: Option<Account>)

  function SumLegs(legs: seq<Leg>): Cents {
    if legs == [] then 0 else SumLegs(legs[..|legs| - 1]) + legs[|legs| - 1].amount
  }

  /** What a transaction moves on one account. */
  function NetLegs(legs: seq<Leg>, a: Account): Cents {
    if legs == [] then 0
    else NetLegs(legs[..|legs| - 1], a) + (if legs[|legs| - 1].account == a then legs[|legs| - 1].amount else 0)
  }

  function Net(tx: Tx, a: Account): Cents { NetLegs(tx.legs, a) }

  function Balance(log: seq<Tx>, a: Account): Cents {
    if log == [] then 0 else Balance(log[..|log| - 1], a) + Net(log[|log| - 1], a)
  }

  predicate ValidLegs(legs: seq<Leg>) {
    && 2 <= |legs| <= MAX_LEGS
    && (forall i :: 0 <= i < |legs| ==> legs[i].amount != 0 && -MAX_LEG_AMOUNT <= legs[i].amount <= MAX_LEG_AMOUNT)
    && (forall i, j :: 0 <= i < j < |legs| ==> legs[i].account != legs[j].account)
    && SumLegs(legs) == 0
  }

  /** A transaction that does not balance is never returned. */
  method NewTransaction(kind: Kind, date: Date, legs: seq<Leg>) returns (r: Option<Tx>)
    ensures r == MakeTx(kind, date, legs)
    ensures r.Some? <==> ValidLegs(legs)
  {
    if |legs| < 2 || |legs| > MAX_LEGS {
      return None;
    }
    var sum, seen := 0, {};
    for i := 0 to |legs|
      invariant sum == SumLegs(legs[..i])
      invariant seen == set j | 0 <= j < i :: legs[j].account
      invariant forall j :: 0 <= j < i ==> legs[j].amount != 0 && -MAX_LEG_AMOUNT <= legs[j].amount <= MAX_LEG_AMOUNT
      invariant forall j, k :: 0 <= j < k < i ==> legs[j].account != legs[k].account
    {
      var l := legs[i];
      if l.amount == 0 || l.amount > MAX_LEG_AMOUNT || l.amount < -MAX_LEG_AMOUNT || l.account in seen {
        return None;
      }
      seen := seen + {l.account};
      sum := sum + l.amount;
      assert legs[..i + 1][..i] == legs[..i];
    }
    assert legs[..|legs|] == legs;
    if sum != 0 {
      return None;
    }
    return Some(Tx(kind, date, legs, None));
  }

  function MakeTx(kind: Kind, date: Date, legs: seq<Leg>): Option<Tx> {
    if ValidLegs(legs) then Some(Tx(kind, date, legs, None)) else None
  }

  function NegateLegs(legs: seq<Leg>): seq<Leg> {
    seq(|legs|, i requires 0 <= i < |legs| => Leg(legs[i].account, -legs[i].amount))
  }

  /** A reversal negates every leg and names what it reverses; a reversal is never reversed. */
  function Reverse(original: Tx, id: TxId, date: Date): Option<Tx> {
    if original.kind == Reversal || !ValidLegs(NegateLegs(original.legs)) then None
    else Some(Tx(Reversal, date, NegateLegs(original.legs), Some(id)))
  }

  lemma {:induction false} NegateNets(legs: seq<Leg>, a: Account)
    ensures NetLegs(NegateLegs(legs), a) == -NetLegs(legs, a)
    ensures SumLegs(NegateLegs(legs)) == -SumLegs(legs)
  {
    if legs != [] {
      var m := |legs| - 1;
      NegateNets(legs[..m], a);
      assert NegateLegs(legs)[..m] == NegateLegs(legs[..m]);
    }
  }

  /** A valid transaction that is not itself a reversal can always be reversed, and its reversal undoes it everywhere. */
  lemma ReverseUndoes(original: Tx, id: TxId, date: Date)
    requires ValidLegs(original.legs) && original.kind != Reversal
    ensures Reverse(original, id, date).Some?
    ensures forall a :: Net(Reverse(original, id, date).value, a) == -Net(original, a)
  {
    forall a ensures NetLegs(NegateLegs(original.legs), a) == -NetLegs(original.legs, a) {
      NegateNets(original.legs, a);
    }
    NegateNets(original.legs, Payables);
    var legs := NegateLegs(original.legs);
    assert forall i :: 0 <= i < |legs| ==> legs[i].account == original.legs[i].account;
  }

  lemma Append(log: seq<Tx>, tx: Tx, a: Account)
    ensures Balance(log + [tx], a) == Balance(log, a) + Net(tx, a)
  {
    assert (log + [tx])[..|log|] == log;
  }

  lemma NetTwo(l0: Leg, l1: Leg, a: Account)
    ensures NetLegs([l0, l1], a) == (if l0.account == a then l0.amount else 0) + (if l1.account == a then l1.amount else 0)
    ensures SumLegs([l0, l1]) == l0.amount + l1.amount
  {
    assert [l0, l1][..1] == [l0];
    assert [l0][..0] == [];
    assert NetLegs([l0], a) == (if l0.account == a then l0.amount else 0) && SumLegs([l0]) == l0.amount;
  }

  lemma NetThree(l0: Leg, l1: Leg, l2: Leg, a: Account)
    ensures NetLegs([l0, l1, l2], a) == NetLegs([l0, l1], a) + (if l2.account == a then l2.amount else 0)
    ensures SumLegs([l0, l1, l2]) == l0.amount + l1.amount + l2.amount
  {
    assert [l0, l1, l2][..2] == [l0, l1];
    NetTwo(l0, l1, a);
  }

  predicate ValidFacts(f: Facts) { f.amount > 0 }

  /** Recognition puts a bill in the accrual report: payables (receivables) up against its category. */
  function RecognizeLegs(f: Facts): seq<Leg> {
    match f.direction
    case Payable => [Leg(f.category, f.amount), Leg(Payables, -f.amount)]
    case Receivable => [Leg(Receivables, f.amount), Leg(f.category, -f.amount)]
  }

  function RecognizeBill(f: Facts, date: Date): Option<Tx> {
    if ValidFacts(f) then MakeTx(Recognition, date, RecognizeLegs(f)) else None
  }

  /** The account a settlement of f clears. */
  function Cleared(f: Facts): Account {
    match f.direction
    case Payable => (match f.clears case Some(card) => card case None => Payables)
    case Receivable => Receivables
  }

  /** The signed amount a settlement of f puts on the account it clears. */
  function ClearedAmount(f: Facts): Cents { if f.direction == Payable then f.amount else -f.amount }

  function SettleLegs(f: Facts, paid: Cents, difference: Option<Account>): seq<Leg> {
    var legs :=
      match f.direction
      case Payable => [Leg(Cleared(f), f.amount), Leg(f.account, -paid)]
      case Receivable => [Leg(f.account, paid), Leg(Receivables, -f.amount)];
    if paid == f.amount || difference.None? then legs
    else legs + [Leg(difference.value, if f.direction == Payable then paid - f.amount else f.amount - paid)]
  }

  /** The cash side. paid may differ from the bill; the gap needs a category, and the bill's own amount is what clears. */
  function SettleBill(f: Facts, paid: Cents, difference: Option<Account>, date: Date): Option<Tx> {
    if !ValidFacts(f) || paid <= 0 || (paid != f.amount && difference.None?) then None
    else MakeTx(Settlement, date, SettleLegs(f, paid, difference))
  }

  function CancelBill(f: Facts, date: Date): Option<Tx> {
    if ValidFacts(f) then MakeTx(Adjustment, date, NegateLegs(RecognizeLegs(f))) else None
  }

  function CardPurchase(card: Account, category: Account, total: Cents, date: Date): Option<Tx> {
    if total <= 0 then None else MakeTx(CardBuy, date, [Leg(category, total), Leg(card, -total)])
  }

  function CardCredit(card: Account, category: Account, amount: Cents, date: Date): Option<Tx> {
    if amount <= 0 then None else MakeTx(Adjustment, date, [Leg(category, -amount), Leg(card, amount)])
  }

  lemma SettleNets(f: Facts, paid: Cents, difference: Option<Account>, date: Date, a: Account)
    requires SettleBill(f, paid, difference, date).Some?
    requires a == Cleared(f)
    ensures Net(SettleBill(f, paid, difference, date).value, a) == ClearedAmount(f)
    ensures SettleBill(f, paid, difference, date).value.kind == Settlement && ValidLegs(SettleBill(f, paid, difference, date).value.legs)
  {
    var legs := SettleLegs(f, paid, difference);
    NetTwo(legs[0], legs[1], a);
    assert legs[..2] == [legs[0], legs[1]];
    if |legs| == 3 {
      NetThree(legs[0], legs[1], legs[2], a);
      assert legs == [legs[0], legs[1], legs[2]];
    } else {
      assert legs == [legs[0], legs[1]];
    }
  }

  /** A settlement clears the bill, moves the paying account by exactly what was paid, and puts any gap on the difference. */
  lemma SettleMoves(f: Facts, paid: Cents, difference: Option<Account>, date: Date)
    requires SettleBill(f, paid, difference, date).Some?
    ensures var tx, sign := SettleBill(f, paid, difference, date).value, if f.direction == Payable then 1 else -1;
            && Net(tx, Cleared(f)) == sign * f.amount
            && Net(tx, f.account) == -sign * paid
            && (paid != f.amount ==> difference.Some? && Net(tx, difference.value) == sign * (paid - f.amount))
  {
    var legs := SettleLegs(f, paid, difference);
    assert legs[0].account != legs[1].account;
    SettleNets(f, paid, difference, date, Cleared(f));
    if |legs| == 3 {
      assert legs == [legs[0], legs[1], legs[2]] && legs[0].account != legs[2].account && legs[1].account != legs[2].account;
      NetThree(legs[0], legs[1], legs[2], f.account);
      NetThree(legs[0], legs[1], legs[2], legs[2].account);
      NetTwo(legs[0], legs[1], f.account);
      NetTwo(legs[0], legs[1], legs[2].account);
    } else {
      assert legs == [legs[0], legs[1]];
      NetTwo(legs[0], legs[1], f.account);
    }
  }

  /** A credit of amount is, on every account, the opposite of recognising and settling a bill of that amount. */
  lemma CreditIsTheOpposite(f: Facts, amount: Cents, date: Date, a: Account)
    requires f.clears.None? && CreditBill(f, amount, date).Some?
    ensures var part := f.(amount := amount);
            Net(CreditBill(f, amount, date).value, a) == -NetLegs(RecognizeLegs(part), a) - NetLegs(SettleLegs(part, amount, None), a)
  {
    var part := f.(amount := amount);
    var rec, settle, credit := RecognizeLegs(part), SettleLegs(part, amount, None), CreditBill(f, amount, date).value.legs;
    assert rec == [rec[0], rec[1]] && settle == [settle[0], settle[1]] && credit == [credit[0], credit[1]];
    NetTwo(rec[0], rec[1], a);
    NetTwo(settle[0], settle[1], a);
    NetTwo(credit[0], credit[1], a);
  }

  /** x on account b, seen from account a. */
  function AtAccount(a: Account, b: Account, x: Cents): Cents { if a == b then x else 0 }

  function Sign(d: Direction): int { if d == Payable then 1 else -1 }

  /** All a settlement moves: the account it clears, the paying account, and the difference if there is one. */
  lemma SettleNetsEach(f: Facts, paid: Cents, difference: Option<Account>, date: Date, a: Account)
    requires SettleBill(f, paid, difference, date).Some?
    ensures Net(SettleBill(f, paid, difference, date).value, a)
         == AtAccount(a, Cleared(f), Sign(f.direction) * f.amount) - AtAccount(a, f.account, Sign(f.direction) * paid)
            + (if paid != f.amount && difference.Some? then AtAccount(a, difference.value, Sign(f.direction) * (paid - f.amount)) else 0)
  {
    var legs := SettleLegs(f, paid, difference);
    NetTwo(legs[0], legs[1], a);
    if |legs| == 3 {
      NetThree(legs[0], legs[1], legs[2], a);
      assert legs == [legs[0], legs[1], legs[2]];
    } else {
      assert legs == [legs[0], legs[1]];
    }
  }

  /** All a credit note moves: the paying account and the category, one against the other. */
  lemma CreditNetsEach(f: Facts, amount: Cents, date: Date, a: Account)
    requires CreditBill(f, amount, date).Some?
    ensures Net(CreditBill(f, amount, date).value, a)
         == AtAccount(a, f.account, Sign(f.direction) * amount) - AtAccount(a, f.category, Sign(f.direction) * amount)
  {
    var legs := CreditBill(f, amount, date).value.legs;
    assert legs == [legs[0], legs[1]];
    NetTwo(legs[0], legs[1], a);
  }

  /** All a card purchase or credit moves: the category and the card, one against the other. */
  lemma CardNetsEach(card: Account, category: Account, amount: Cents, date: Date, a: Account)
    ensures var tx := CardPurchase(card, category, amount, date);
            tx.Some? ==> Net(tx.value, a) == AtAccount(a, category, amount) - AtAccount(a, card, amount)
    ensures var tx := CardCredit(card, category, amount, date);
            tx.Some? ==> Net(tx.value, a) == AtAccount(a, card, amount) - AtAccount(a, category, amount)
  {
    NetTwo(Leg(category, amount), Leg(card, -amount), a);
    NetTwo(Leg(category, -amount), Leg(card, amount), a);
  }

  lemma RecognizeNets(f: Facts, a: Account)
    requires ValidLegs(RecognizeLegs(f))
    ensures NetLegs(RecognizeLegs(f), a) ==
            (if a == f.category then ClearedAmount(f) else 0) - (if a == (if f.direction == Payable then Payables else Receivables) then ClearedAmount(f) else 0)
  {
    var legs := RecognizeLegs(f);
    NetTwo(legs[0], legs[1], a);
    assert legs == [legs[0], legs[1]];
    assert legs[0].account != legs[1].account;
  }

  /** One transaction was posted, of this kind and on this date. */
  predicate Posts(before: seq<Tx>, after: seq<Tx>, kind: Kind, date: Date) {
    |after| == |before| + 1 && before <= after && after[|before|].kind == kind && after[|before|].date == date
  }

  /** The transaction moves no account but these two. */
  ghost predicate Between(tx: Tx, x: Account, y: Account) { forall a :: a != x && a != y ==> Net(tx, a) == 0 }

  lemma CardNets(card: Account, category: Account, amount: Cents, date: Date)
    ensures var tx := CardPurchase(card, category, amount, date); tx.Some? ==> Net(tx.value, card) == -amount && Net(tx.value, category) == amount
    ensures var tx := CardPurchase(card, category, amount, date); tx.Some? ==> Between(tx.value, card, category)
    ensures var tx := CardCredit(card, category, amount, date); tx.Some? ==> Net(tx.value, card) == amount && Net(tx.value, category) == -amount
  {
    NetTwo(Leg(category, amount), Leg(card, -amount), category);
    NetTwo(Leg(category, -amount), Leg(card, amount), category);
    NetTwo(Leg(category, amount), Leg(card, -amount), card);
    NetTwo(Leg(category, -amount), Leg(card, amount), card);
    if CardPurchase(card, category, amount, date).Some? {
      var legs := [Leg(category, amount), Leg(card, -amount)];
      assert legs[0].account != legs[1].account;
      forall a | a != card && a != category ensures NetLegs(legs, a) == 0 {
        NetTwo(legs[0], legs[1], a);
      }
    }
    if CardCredit(card, category, amount, date).Some? {
      var legs := [Leg(category, -amount), Leg(card, amount)];
      assert legs[0].account != legs[1].account;
    }
  }

  /** A credit note on a settled bill: the opposite of recognising and settling amount; no control account moves. */
  function CreditBill(f: Facts, amount: Cents, date: Date): Option<Tx> {
    if !ValidFacts(f) || amount <= 0 || amount > f.amount then None
    else
      match f.direction
      case Payable => MakeTx(Adjustment, date, [Leg(f.account, amount), Leg(f.category, -amount)])
      case Receivable => MakeTx(Adjustment, date, [Leg(f.category, amount), Leg(f.account, -amount)])
  }

  /** The accounts of some legs, each once, in order of first mention. */
  function Accounts(legs: seq<Leg>): seq<Account> {
    if legs == [] then []
    else
      var rest, a := Accounts(legs[..|legs| - 1]), legs[|legs| - 1].account;
      if a in rest then rest else rest + [a]
  }

  /** One leg per account with what the legs move on it in all; accounts whose net is zero drop out. */
  function NetOut(order: seq<Account>, legs: seq<Leg>): seq<Leg> {
    if order == [] then []
    else
      var rest, a := NetOut(order[..|order| - 1], legs), order[|order| - 1];
      if NetLegs(legs, a) == 0 then rest else rest + [Leg(a, NetLegs(legs, a))]
  }

  /** Negated old recognition, then the new one. */
  function AdjustmentLegs(was: Facts, next: Facts): seq<Leg> { NegateLegs(RecognizeLegs(was)) + RecognizeLegs(next) }

  /** The net effect of editing a forecast bill, as one transaction. */
  function AdjustBill(was: Facts, next: Facts, date: Date): Option<Tx> {
    if RecognizeBill(was, date).None? || RecognizeBill(next, date).None? then None
    else
      var legs := AdjustmentLegs(was, next);
      MakeTx(Adjustment, date, NetOut(Accounts(legs), legs))
  }

  lemma {:induction false} AccountsMention(legs: seq<Leg>, a: Account)
    ensures a in Accounts(legs) <==> exists i :: 0 <= i < |legs| && legs[i].account == a
    ensures a !in Accounts(legs) ==> NetLegs(legs, a) == 0
    ensures forall i, j :: 0 <= i < j < |Accounts(legs)| ==> Accounts(legs)[i] != Accounts(legs)[j]
  {
    if legs != [] {
      var m := |legs| - 1;
      AccountsMention(legs[..m], a);
      AccountsMention(legs[..m], legs[m].account);
      if exists i :: 0 <= i < |legs| && legs[i].account == a {
        var i :| 0 <= i < |legs| && legs[i].account == a;
        if i < m {
          assert legs[..m][i] == legs[i];
        }
      }
    }
  }

  lemma {:induction false} NetOutNets(order: seq<Account>, legs: seq<Leg>, a: Account)
    requires forall i, j :: 0 <= i < j < |order| ==> order[i] != order[j]
    ensures NetLegs(NetOut(order, legs), a) == (if a in order then NetLegs(legs, a) else 0)
  {
    if order != [] {
      var m := |order| - 1;
      NetOutNets(order[..m], legs, a);
      var rest := NetOut(order[..m], legs);
      var l := Leg(order[m], NetLegs(legs, order[m]));
      assert (rest + [l])[..|rest|] == rest;
      assert a in order <==> a in order[..m] || a == order[m];
    }
  }

  lemma {:induction false} NetConcat(x: seq<Leg>, y: seq<Leg>, a: Account)
    ensures NetLegs(x + y, a) == NetLegs(x, a) + NetLegs(y, a)
  {
    if y == [] {
      assert x + y == x;
    } else {
      var m := |y| - 1;
      NetConcat(x, y[..m], a);
      assert (x + y)[..|x| + m] == x + y[..m];
    }
  }

  /** An adjustment moves on every account exactly the new recognition minus the old. */
  lemma AdjustNets(was: Facts, next: Facts, date: Date, a: Account)
    requires AdjustBill(was, next, date).Some?
    ensures Net(AdjustBill(was, next, date).value, a) == NetLegs(RecognizeLegs(next), a) - NetLegs(RecognizeLegs(was), a)
  {
    var legs := AdjustmentLegs(was, next);
    AccountsMention(legs, a);
    NetOutNets(Accounts(legs), legs, a);
    NetConcat(NegateLegs(RecognizeLegs(was)), RecognizeLegs(next), a);
    NegateNets(RecognizeLegs(was), a);
  }

  /** A running net per account, and the accounts in order of first mention. */
  method NetByAccount(legs: seq<Leg>) returns (net: map<Account, Cents>, order: seq<Account>)
    ensures order == Accounts(legs) && net.Keys == set a | a in order
    ensures forall a :: a in order ==> net[a] == NetLegs(legs, a)
  {
    net, order := map[], [];
    for i := 0 to |legs|
      invariant order == Accounts(legs[..i])
      invariant forall a :: a in net <==> a in order
      invariant forall a :: a in order ==> net[a] == NetLegs(legs[..i], a)
    {
      var l := legs[i];
      assert legs[..i + 1][..i] == legs[..i];
      AccountsMention(legs[..i], l.account);
      if l.account !in net {
        order := order + [l.account];
        net := net[l.account := 0];
      }
      net := net[l.account := net[l.account] + l.amount];
    }
    assert legs[..|legs|] == legs;
  }

  /** The same transaction as the rule builds it: nets first, then the non-zero ones in order. */
  method BuildAdjustment(was: Facts, next: Facts, date: Date) returns (r: Option<Tx>)
    ensures r == AdjustBill(was, next, date)
  {
    if RecognizeBill(was, date).None? || RecognizeBill(next, date).None? {
      return None;
    }
    var legs := AdjustmentLegs(was, next);
    var net, order := NetByAccount(legs);
    var out := [];
    for i := 0 to |order|
      invariant out == NetOut(order[..i], legs)
    {
      assert order[..i + 1][..i] == order[..i];
      if net[order[i]] != 0 {
        out := out + [Leg(order[i], net[order[i]])];
      }
    }
    assert order[..|order|] == order;
    r := MakeTx(Adjustment, date, out);
  }
}
