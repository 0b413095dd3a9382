/**
 What a statement shows, said of the stored rows alone: the frozen row's figures when there is one, the sum of the month's
 items otherwise; how many statements a page holds and in what order; and that what is shown is what a close freezes
 (repositories/cards_purchases.go, repositories/cards_range.go, repositories/cards_close.go).
 */
module StatementShown {
  import opened Calendar
  import opened Installments
  import opened Sums
  import opened StatementKeys
  import opened StatementRange
  import CardModel
  import CardInvariant

  // ---- the partition as a table ----

  predicate Distinct(rows: seq<Row>) { forall i, j :: 0 <= i < j < |rows| ==> rows[i].key != rows[j].key }

  function Table(rows: seq<Row>): map<Key, Cents> {
    if rows == [] then map[] else Table(rows[..|rows| - 1])[rows[|rows| - 1].key := rows[|rows| - 1].amount]
  }

  function ItemOn(m: Month): Key -> bool { (k: Key) => k.ItemKey? && k.month == m }

  lemma {:induction false} TableKeys(rows: seq<Row>, k: Key)
    ensures k in Table(rows) <==> exists r :: r in rows && r.key == k
  {
    if rows != [] {
      var init, last := rows[..|rows| - 1], rows[|rows| - 1];
      TableKeys(init, k);
      assert forall r :: r in rows <==> r in init || r == last;
    }
  }

  lemma {:induction false} TableAt(rows: seq<Row>, i: nat)
    requires Distinct(rows) && i < |rows|
    ensures rows[i].key in Table(rows) && Table(rows)[rows[i].key] == rows[i].amount
  {
    if i < |rows| - 1 {
      TableAt(rows[..|rows| - 1], i);
    }
  }

  /** A row of the partition is the only one with its key. */
  lemma TableRow(rows: seq<Row>, r: Row)
    requires Distinct(rows) && r in rows
    ensures r.key in Table(rows) && Table(rows)[r.key] == r.amount
  {
    var i :| 0 <= i < |rows| && rows[i] == r;
    TableAt(rows, i);
  }

  /** A stored partition, whose keys rise, is one. */
  lemma StoredDistinct(rows: seq<Row>)
    requires Stored(rows)
    ensures Distinct(rows) && Keys(rows)
  {
    forall i, j | 0 <= i < j < |rows| ensures rows[i].key != rows[j].key {
      LessIrreflexive(Text(rows[i].key));
    }
  }

  // ---- one statement ----

  lemma SumSnoc(items: seq<Row>, r: Row)
    ensures SumRows(items + [r]) == SumRows(items) + r.amount
  {
    assert (items + [r])[..|items|] == items;
  }

  lemma NewKey(rows: seq<Row>, n: nat)
    requires Distinct(rows) && n < |rows|
    ensures rows[n].key !in Table(rows[..n]) && Distinct(rows[..n])
  {
    TableKeys(rows[..n], rows[n].key);
  }

  function AmountOn(m: Month, r: Row): Cents { if r.key.ItemKey? && r.key.month == m then r.amount else 0 }

  lemma ItemsStep(m: Month, rows: seq<Row>, n: nat)
    requires n < |rows|
    ensures SumRows(ItemsOf(m, rows[..n + 1])) == SumRows(ItemsOf(m, rows[..n])) + AmountOn(m, rows[n])
  {
    ItemsSnoc(m, rows, n);
    SumSnoc(ItemsOf(m, rows[..n]), rows[n]);
    assert ItemsOf(m, rows[..n]) + [] == ItemsOf(m, rows[..n]);
  }

  lemma TableStep(m: Month, rows: seq<Row>, n: nat)
    requires Distinct(rows) && n < |rows|
    ensures SumWhere(Table(rows[..n + 1]), ItemOn(m)) == SumWhere(Table(rows[..n]), ItemOn(m)) + AmountOn(m, rows[n])
  {
    NewKey(rows, n);
    assert rows[..n + 1][..n] == rows[..n];
    SumAdd(Table(rows[..n]), ItemOn(m), rows[n].key, rows[n].amount);
  }

  lemma {:induction false} ItemsSum(m: Month, rows: seq<Row>, n: nat)
    requires Distinct(rows) && n <= |rows|
    ensures SumRows(ItemsOf(m, rows[..n])) == SumWhere(Table(rows[..n]), ItemOn(m))
  {
    if n > 0 {
      ItemsSum(m, rows, n - 1);
      ItemsStep(m, rows, n - 1);
      TableStep(m, rows, n - 1);
    }
  }

  lemma {:induction false} FrozenThere(m: Month, rows: seq<Row>)
    ensures FrozenRow(m, rows).Some? ==> FrozenRow(m, rows).value in rows && FrozenRow(m, rows).value.key == StatementKey(m)
    ensures FrozenRow(m, rows).None? ==> forall r :: r in rows ==> r.key != StatementKey(m)
  {
    if rows != [] {
      FrozenThere(m, rows[..|rows| - 1]);
      assert forall r :: r in rows <==> r in rows[..|rows| - 1] || r == rows[|rows| - 1];
    }
  }

  /** No row closes the month: the total is the sum of exactly the month's item rows, and there is no bill. */
  lemma OpenShowsItems(card: Card, m: Month, rows: seq<Row>)
    requires Distinct(rows) && forall r :: r in rows ==> r.key != StatementKey(m)
    ensures StatementOf(card, m, rows).total == SumWhere(Table(rows), ItemOn(m)) && StatementOf(card, m, rows).bill == None
  {
    FrozenThere(m, rows);
    ItemsSum(m, rows, |rows|);
    assert rows[..|rows|] == rows;
  }

  /** A row closes the month: total and bill are that row's, whatever the items. */
  lemma ClosedShowsRow(card: Card, m: Month, rows: seq<Row>, r: Row)
    requires Distinct(rows) && r in rows && r.key == StatementKey(m)
    ensures StatementOf(card, m, rows).total == r.amount && StatementOf(card, m, rows).bill == r.bill
  {
    FrozenThere(m, rows);
    var f := FrozenRow(m, rows).value;
    var i :| 0 <= i < |rows| && rows[i] == r;
    var j :| 0 <= j < |rows| && rows[j] == f;
    assert i == j;
  }

  /** Closed by its row or by being past; open when it is the card's open month; future otherwise. The items are the month's. */
  lemma StatusShown(card: Card, m: Month, rows: seq<Row>)
    ensures var s, closed := StatementOf(card, m, rows), exists r :: r in rows && r.key == StatementKey(m);
            && s.month == m
            && (s.status == Closed <==> closed || m < card.open)
            && (s.status == Open <==> !closed && m == card.open)
            && (s.status == Future <==> !closed && m > card.open)
            && forall r :: r in s.items <==> r in rows && r.key.ItemKey? && r.key.month == m
  {
    FrozenThere(m, rows);
  }

  /** The single-month read shows what the whole partition would. */
  lemma ReadAlone(card: Card, rows: seq<Row>, m: Month)
    requires Keys(rows) && Writable(m)
    ensures GetStatement(card, rows, m) == StatementOf(card, m, rows)
  {
    PrefixQuery(rows, m);
    OwnRowsOnly(card, m, rows);
  }

  // ---- a page ----

  /** How far forward statements go: at least a year past the open month and past every row, and no further than one of them. */
  lemma EndIsTheLast(card: Card, rows: seq<Row>, m: Month)
    requires Stored(rows)
    ensures EndBound(card, rows) >= m <==> m <= card.open + HORIZON || exists r :: r in rows && !r.key.PurchaseKey? && m <= r.key.month
  {
    LastMonthThere(rows);
    if exists r :: r in rows && !r.key.PurchaseKey? && m <= r.key.month {
      var r :| r in rows && !r.key.PurchaseKey? && m <= r.key.month;
      var i :| 0 <= i < |rows| && rows[i] == r;
      LastMonthIsGreatest(rows, i);
    }
  }

  lemma {:induction false} LastMonthThere(rows: seq<Row>)
    ensures LastMonth(rows).Some? ==> exists r :: r in rows && !r.key.PurchaseKey? && r.key.month == LastMonth(rows).value
  {
    if rows != [] {
      var last := rows[|rows| - 1];
      if last.key.PurchaseKey? {
        LastMonthThere(rows[..|rows| - 1]);
      } else {
        assert last in rows;
      }
    }
  }

  /** The month a page starts on, and how many months are left from there in its direction. */
  function StartOf(first: Month, last: Month, from: Month, backward: bool): Month {
    if backward then Min(from, last) else if from < first then first else from
  }

  function LeftFrom(first: Month, last: Month, start: Month, backward: bool): nat {
    var left := if backward then start - first + 1 else last - start + 1;
    if left < 0 then 0 else left
  }

  lemma WindowHolds(first: Month, last: Month, from: Month, count: int, backward: bool)
    requires count >= 1
    ensures var w, start := WindowOf(first, last, from, count, backward), StartOf(first, last, from, backward);
            var left := LeftFrom(first, last, start, backward);
            && (w.Nothing? <==> left == 0)
            && (w.Window? ==> first <= w.lo <= w.hi <= last && w.hi - w.lo + 1 == Min(count, left) && (w.more <==> left > count))
            && (w.Window? ==> start == if backward then w.hi else w.lo)
  {
  }

  /** The statements of a window as listed: from its start, one way or the other. */
  lemma ListedFrom(card: Card, rows: seq<Row>, lo: Month, hi: Month, backward: bool, i: nat)
    requires Keys(rows) && 0 <= lo <= hi < 120_000 && i < hi - lo + 1
    ensures var s := Statements(card, rows, lo, hi);
            && |s| == hi - lo + 1 && |Reversed(s)| == |s|
            && (if backward then Reversed(s) else s)[i] == StatementOf(card, if backward then hi - i else lo + i, rows)
  {
    ReadAlone(card, rows, if backward then hi - i else lo + i);
  }

  /**
   A page holds as many statements as asked for or as are left, whichever is less, month after month away from where it
   starts (newest first when going backward), and says there are more exactly when more are left than it holds.
   */
  lemma PageHolds(card: Card, rows: seq<Row>, from: Month, count: int, backward: bool)
    requires Keys(rows) && Dated(card, rows) && count >= 1
    ensures var page, last := PageOf(card, rows, from, count, backward), EndBound(card, rows);
            var start := StartOf(card.first, last, from, backward);
            var left := LeftFrom(card.first, last, start, backward);
            && |page.statements| == Min(count, left)
            && (page.more <==> left > count)
            && forall i :: 0 <= i < |page.statements| ==>
                 page.statements[i] == StatementOf(card, if backward then start - i else start + i, rows)
  {
    var page, last := PageOf(card, rows, from, count, backward), EndBound(card, rows);
    var start := StartOf(card.first, last, from, backward);
    WindowHolds(card.first, last, from, count, backward);
    var w := WindowOf(card.first, last, from, count, backward);
    if w.Window? {
      forall i | 0 <= i < |page.statements|
        ensures page.statements[i] == StatementOf(card, if backward then start - i else start + i, rows)
      {
        ListedFrom(card, rows, w.lo, w.hi, backward, i);
      }
    }
  }

  // ---- what is shown is what is kept ----

  /**
   rows are a card's partition: its items under keys that tell them apart and keep their month, its closed months with their
   totals and bills.
   */
  ghost predicate Represents(rows: seq<Row>, s: CardModel.Store, text: CardModel.ItemKey -> Key, name: CardModel.BillKey -> string) {
    && Keys(rows) && Distinct(rows)
    && (forall i, j :: i in s.items && j in s.items && text(i) == text(j) ==> i == j)
    && (forall k :: k in s.items ==> text(k).ItemKey? && text(k).month == k.month && text(k) in Table(rows) && Table(rows)[text(k)] == s.items[k])
    && (forall k :: k in Table(rows) && k.ItemKey? ==> exists i :: i in s.items && text(i) == k)
    && (forall m :: m in s.frozen <==> StatementKey(m) in Table(rows))
    && (forall r :: r in rows && r.key.StatementKey? && r.key.month in s.frozen ==>
          && r.amount == s.frozen[r.key.month].total
          && r.bill == Named(s.frozen[r.key.month].bill, name))
  }

  function Named(bill: Option<CardModel.BillKey>, name: CardModel.BillKey -> string): Option<string> {
    if bill.Some? then Some(name(bill.value)) else None
  }

  function View(s: CardModel.Store): Card { Card(s.card.first, s.card.open) }

  /** What a statement shows is the card's statement: its total, its bill, and closed exactly when its month is. */
  lemma ShownIsKept(rows: seq<Row>, s: CardModel.Store, text: CardModel.ItemKey -> Key, name: CardModel.BillKey -> string, m: Month)
    requires Represents(rows, s, text, name) && CardInvariant.History(s) && Writable(m)
    ensures var shown := GetStatement(View(s), rows, m);
            && shown.total == CardModel.StatementTotal(s, m)
            && shown.bill == (if m in s.frozen then Named(s.frozen[m].bill, name) else None)
            && (shown.status == Open <==> m == s.card.open)
            && (shown.status == Closed <==> m < s.card.open)
  {
    ReadAlone(View(s), rows, m);
    StatusShown(View(s), m, rows);
    TableKeys(rows, StatementKey(m));
    if m in s.frozen {
      var r :| r in rows && r.key == StatementKey(m);
      ClosedShowsRow(View(s), m, rows, r);
    } else {
      OpenShowsItems(View(s), m, rows);
      SumRename(s.items, Table(rows), text, CardModel.On(m), ItemOn(m));
    }
  }

  /** A close at the total shown freezes it: the month is then shown closed, at the same total, with a bill exactly if it owes. */
  lemma ShownIsFrozen(rows: seq<Row>, s: CardModel.Store, after: seq<Row>, text: CardModel.ItemKey -> Key, name: CardModel.BillKey -> string)
    requires Represents(rows, s, text, name) && CardInvariant.History(s) && Writable(s.card.open)
    requires var closing := CardModel.Close(s, s.card, GetStatement(View(s), rows, s.card.open).total);
             closing.Committed? && CardInvariant.History(closing.store) && Represents(after, closing.store, text, name)
    ensures var was := GetStatement(View(s), rows, s.card.open);
            var t := CardModel.Close(s, s.card, was.total).store;
            var shown := GetStatement(View(t), after, s.card.open);
            && was.status == Open && was.total == CardModel.StatementTotal(s, s.card.open)
            && shown.status == Closed && shown.total == was.total && (shown.bill.Some? <==> was.total > 0)
  {
    var was := GetStatement(View(s), rows, s.card.open);
    var t := CardModel.Close(s, s.card, was.total).store;
    ShownIsKept(rows, s, text, name, s.card.open);
    ShownIsKept(after, t, text, name, s.card.open);
  }
}
