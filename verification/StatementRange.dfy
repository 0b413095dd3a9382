/**
 Pages of a card's statements (repositories/cards_range.go, repositories/cards_purchases.go): one range query in place of a
 query per month, and an end bound that is looked up only when a page reaches it. A partition is its rows in key order.
 */
module StatementRange {
  import opened Calendar
  import opened Installments
  import opened StatementKeys

  const MAX_PAGE := 12
  const HORIZON := 12

  /** A frozen statement's total and bill, or an item's amount. */
  datatype Row = Row(key: Key, amount: Cents, bill: Option<string>)

  datatype Card = Card(first: Month, open: Month)

  datatype Status = Closed | Open | Future

  datatype Statement = Statement(month: Month, status: Status, total: Cents, bill: Option<string>, items: seq<Row>)

  datatype Page = Page(statements: seq<Statement>, more: bool)

  /** Rows in key order, no key twice. */
  ghost predicate Stored(rows: seq<Row>) {
    && (forall i :: 0 <= i < |rows| ==> WritableKey(rows[i].key))
    && (forall i, j :: 0 <= i < j < |rows| ==> Less(Text(rows[i].key), Text(rows[j].key)))
  }

  predicate Keys(rows: seq<Row>) { forall i :: 0 <= i < |rows| ==> WritableKey(rows[i].key) }

  // ---- queries ----

  function Filter(rows: seq<Row>, p: Row -> bool): (r: seq<Row>)
    ensures forall x :: x in r <==> x in rows && p(x)
  {
    if rows == [] then []
    else
      var rest, x := Filter(rows[..|rows| - 1], p), rows[|rows| - 1];
      if p(x) then rest + [x] else rest
  }

  lemma {:induction false} FilterSame(rows: seq<Row>, p: Row -> bool, q: Row -> bool)
    requires forall x :: x in rows ==> p(x) == q(x)
    ensures Filter(rows, p) == Filter(rows, q)
  {
    if rows != [] {
      FilterSame(rows[..|rows| - 1], p, q);
    }
  }

  lemma {:induction false} FilterTwice(rows: seq<Row>, p: Row -> bool, q: Row -> bool, both: Row -> bool)
    requires forall x :: x in rows ==> both(x) == (p(x) && q(x))
    ensures Filter(Filter(rows, p), q) == Filter(rows, both)
  {
    if rows != [] {
      var m := |rows| - 1;
      FilterTwice(rows[..m], p, q, both);
      var rest := Filter(rows[..m], p);
      if p(rows[m]) {
        assert (rest + [rows[m]])[..|rest|] == rest;
      }
    }
  }

  function OfMonth(m: Month): Row -> bool { (r: Row) => !r.key.PurchaseKey? && r.key.month == m }

  function OfMonths(lo: Month, hi: Month): Row -> bool { (r: Row) => !r.key.PurchaseKey? && lo <= r.key.month <= hi }

  function WithPrefix(p: string): Row -> bool { (r: Row) => WritableKey(r.key) && HasPrefix(Text(r.key), p) }

  function Between(lo: Month, hi: Month): Row -> bool
    requires Writable(lo) && Writable(hi)
  {
    (r: Row) => WritableKey(r.key) && InRange(Text(r.key), lo, hi)
  }

  /** The single-month read is one prefix query. */
  lemma PrefixQuery(rows: seq<Row>, m: Month)
    requires Keys(rows) && Writable(m)
    ensures Filter(rows, WithPrefix(StatementSK(m))) == Filter(rows, OfMonth(m))
  {
    forall x | x in rows ensures WithPrefix(StatementSK(m))(x) == OfMonth(m)(x) {
      PrefixIsTheMonth(x.key, m);
    }
    FilterSame(rows, WithPrefix(StatementSK(m)), OfMonth(m));
  }

  lemma RangeQuery(rows: seq<Row>, lo: Month, hi: Month)
    requires Keys(rows) && Writable(lo) && Writable(hi)
    ensures Filter(rows, Between(lo, hi)) == Filter(rows, OfMonths(lo, hi))
  {
    forall x | x in rows ensures Between(lo, hi)(x) == OfMonths(lo, hi)(x) {
      RangeIsTheMonths(x.key, lo, hi);
    }
    FilterSame(rows, Between(lo, hi), OfMonths(lo, hi));
  }

  /** A month's rows within the range are the rows of its own query, in the same order. */
  lemma RangeHoldsTheMonth(rows: seq<Row>, lo: Month, hi: Month, m: Month)
    requires Keys(rows) && Writable(lo) && Writable(hi) && lo <= m <= hi
    ensures Filter(Filter(rows, Between(lo, hi)), OfMonth(m)) == Filter(rows, WithPrefix(StatementSK(m)))
  {
    RangeQuery(rows, lo, hi);
    PrefixQuery(rows, m);
    FilterTwice(rows, OfMonths(lo, hi), OfMonth(m), OfMonth(m));
  }

  // ---- one statement ----

  function FrozenRow(m: Month, raw: seq<Row>): Option<Row> {
    if raw == [] then None
    else if raw[|raw| - 1].key == StatementKey(m) then Some(raw[|raw| - 1])
    else FrozenRow(m, raw[..|raw| - 1])
  }

  function ItemsOf(m: Month, raw: seq<Row>): seq<Row> { Filter(raw, (r: Row) => r.key.ItemKey? && r.key.month == m) }

  function SumRows(rows: seq<Row>): Cents { if rows == [] then 0 else SumRows(rows[..|rows| - 1]) + rows[|rows| - 1].amount }

  /** The frozen total when closed, the items' sum otherwise. */
  function StatementOf(card: Card, m: Month, raw: seq<Row>): Statement {
    var frozen, items := FrozenRow(m, raw), ItemsOf(m, raw);
    Statement(m, if frozen.Some? || m < card.open then Closed else if m == card.open then Open else Future,
              if frozen.Some? then frozen.value.amount else SumRows(items),
              if frozen.Some? then frozen.value.bill else None, items)
  }

  /** The text of a row tells a statement from an item, and which month's. */
  lemma TextTells(k: Key, m: Month)
    requires WritableKey(k) && Writable(m)
    ensures Text(k) == StatementSK(m) <==> k == StatementKey(m)
    ensures HasPrefix(Text(k), StatementSK(m) + ITEM) <==> k.ItemKey? && k.month == m
  {
    PrefixIsTheMonth(k, m);
    var sk, n := Text(k), |StatementSK(m)|;
    if HasPrefix(sk, StatementSK(m) + ITEM) {
      assert sk[..n] == (StatementSK(m) + ITEM)[..n] == StatementSK(m);
    }
    if Text(k) == StatementSK(m) {
      assert sk[..n] == StatementSK(m);
    }
    if !k.PurchaseKey? && k.month == m {
      assert sk[n..] == Suffix(k);
      if k.ItemKey? {
        assert sk[..n + |ITEM|] == StatementSK(m) + ITEM;
      }
    }
  }

  lemma ItemsSnoc(m: Month, raw: seq<Row>, i: nat)
    requires i < |raw|
    ensures ItemsOf(m, raw[..i + 1]) == ItemsOf(m, raw[..i]) + (if raw[i].key.ItemKey? && raw[i].key.month == m then [raw[i]] else [])
    ensures FrozenRow(m, raw[..i + 1]) == if raw[i].key == StatementKey(m) then Some(raw[i]) else FrozenRow(m, raw[..i])
  {
    assert raw[..i + 1][..i] == raw[..i];
  }

  method BuildStatement(card: Card, m: Month, raw: seq<Row>) returns (s: Statement)
    requires Keys(raw) && Writable(m)
    ensures s == StatementOf(card, m, raw)
  {
    var frozen: Option<Row>, items := None, [];
    for i := 0 to |raw|
      invariant frozen == FrozenRow(m, raw[..i]) && items == ItemsOf(m, raw[..i])
    {
      TextTells(raw[i].key, m);
      ItemsSnoc(m, raw, i);
      if Text(raw[i].key) == StatementSK(m) {
        frozen := Some(raw[i]);
      } else if HasPrefix(Text(raw[i].key), StatementSK(m) + ITEM) {
        items := items + [raw[i]];
      }
    }
    assert raw[..|raw|] == raw;
    var status := if frozen.Some? || m < card.open then Closed else if m == card.open then Open else Future;
    if frozen.Some? {
      return Statement(m, status, frozen.value.amount, frozen.value.bill, items);
    }
    var total := SumItems(items);
    return Statement(m, status, total, None, items);
  }

  method SumItems(items: seq<Row>) returns (total: Cents)
    ensures total == SumRows(items)
  {
    total := 0;
    for i := 0 to |items|
      invariant total == SumRows(items[..i])
    {
      assert items[..i + 1][..i] == items[..i];
      total := total + items[i].amount;
    }
    assert items[..|items|] == items;
  }

  /** One month, read on its own. */
  function GetStatement(card: Card, rows: seq<Row>, m: Month): Statement
    requires Writable(m)
  {
    StatementOf(card, m, Filter(rows, WithPrefix(StatementSK(m))))
  }

  // ---- the bounds of a page ----

  /** The month of the last statement row of the partition, if any. */
  function LastMonth(rows: seq<Row>): Option<Month> {
    if rows == [] then None
    else if !rows[|rows| - 1].key.PurchaseKey? then Some(rows[|rows| - 1].key.month)
    else LastMonth(rows[..|rows| - 1])
  }

  /** It is the greatest month of any of them. */
  lemma LastMonthIsGreatest(rows: seq<Row>, i: nat)
    requires Stored(rows) && i < |rows| && !rows[i].key.PurchaseKey?
    ensures LastMonth(rows).Some? && rows[i].key.month <= LastMonth(rows).value
  {
    var n := |rows| - 1;
    if i < n && !rows[n].key.PurchaseKey? {
      KeyOrder(rows[i].key.month, rows[n].key.month, Suffix(rows[i].key), Suffix(rows[n].key));
    }
  }

  /** How far forward statements go: a year past the open month, or to the last item when that is further. */
  function EndBound(card: Card, rows: seq<Row>): Month {
    var floor := card.open + HORIZON;
    if LastMonth(rows).Some? && LastMonth(rows).value > floor then LastMonth(rows).value else floor
  }

  datatype Window = Nothing | Window(lo: Month, hi: Month, more: bool)

  /** The months of a page, given where statements begin and end. */
  function WindowOf(first: Month, last: Month, from: Month, count: int, backward: bool): Window {
    if backward then
      var hi := Min(from, last);
      if hi < first then Nothing
      else
        var lo := if hi - (count - 1) < first then first else hi - (count - 1);
        Window(lo, hi, lo > first)
    else
      var lo := if from < first then first else from;
      if lo > last then Nothing
      else
        var hi := Min(lo + count - 1, last);
        Window(lo, hi, hi < last)
  }

  /** The last statement row, found from the end. */
  method LastItemMonth(rows: seq<Row>, floor: Month) returns (m: Month)
    requires Keys(rows)
    ensures m == if LastMonth(rows).Some? && LastMonth(rows).value > floor then LastMonth(rows).value else floor
  {
    var n := |rows|;
    assert rows[..n] == rows;
    while n > 0
      invariant 0 <= n <= |rows| && LastMonth(rows[..n]) == LastMonth(rows)
    {
      assert rows[..n][..n - 1] == rows[..n - 1];
      var month := StatementMonthOf(Text(rows[n - 1].key));
      MonthReadBack(rows[n - 1].key);
      if month.Some? {
        return if month.value > floor then month.value else floor;
      }
      n := n - 1;
    }
    return floor;
  }

  /** Looking the end up only once the page reaches a year past the open month gives the same page. */
  method PageWindow(card: Card, rows: seq<Row>, from: Month, count: int, backward: bool) returns (w: Window)
    requires Keys(rows) && count >= 1
    ensures w == WindowOf(card.first, EndBound(card, rows), from, count, backward)
  {
    var first, last := card.first, card.open + HORIZON;
    if backward {
      var hi := from;
      if hi >= last {
        last := LastItemMonth(rows, last);
      }
      if hi > last {
        hi := last;
      }
      if hi < first {
        return Nothing;
      }
      var lo := hi - (count - 1);
      if lo < first {
        lo := first;
      }
      return Window(lo, hi, lo > first);
    }
    var lo := if from < first then first else from;
    var hi := lo + count - 1;
    if hi >= last {
      last := LastItemMonth(rows, last);
    }
    if lo > last {
      return Nothing;
    }
    if hi > last {
      hi := last;
    }
    return Window(lo, hi, hi < last);
  }

  // ---- a page ----

  function Statements(card: Card, rows: seq<Row>, lo: Month, hi: Month): seq<Statement>
    requires 0 <= lo && hi < 120_000
  {
    if lo > hi then [] else seq(hi - lo + 1, i requires 0 <= i < hi - lo + 1 => GetStatement(card, rows, lo + i))
  }

  function Reversed<T>(s: seq<T>): seq<T> { seq(|s|, i requires 0 <= i < |s| => s[|s| - 1 - i]) }

  /** Where a card's statements begin and end, in years of four digits. */
  predicate Dated(card: Card, rows: seq<Row>) { 0 <= card.first <= card.open && EndBound(card, rows) < 120_000 }

  function PageOf(card: Card, rows: seq<Row>, from: Month, count: int, backward: bool): Page
    requires Dated(card, rows) && count >= 1
  {
    match WindowOf(card.first, EndBound(card, rows), from, count, backward)
    case Nothing => Page([], false)
    case Window(lo, hi, more) =>
      var s := Statements(card, rows, lo, hi);
      Page(if backward then Reversed(s) else s, more)
  }

  /** A statement depends on the rows of its month alone. */
  lemma {:induction false} OwnRowsOnly(card: Card, m: Month, raw: seq<Row>)
    ensures StatementOf(card, m, Filter(raw, OfMonth(m))) == StatementOf(card, m, raw)
  {
    FrozenOwn(m, raw);
    FilterTwice(raw, OfMonth(m), (r: Row) => r.key.ItemKey? && r.key.month == m, (r: Row) => r.key.ItemKey? && r.key.month == m);
  }

  lemma {:induction false} FrozenOwn(m: Month, raw: seq<Row>)
    ensures FrozenRow(m, Filter(raw, OfMonth(m))) == FrozenRow(m, raw)
  {
    if raw != [] {
      var n := |raw| - 1;
      FrozenOwn(m, raw[..n]);
      var rest := Filter(raw[..n], OfMonth(m));
      assert (rest + [raw[n]])[..|rest|] == rest;
    }
  }

  /** Every statement of a page is the single-month one; the page and its HasMore are those of the eager bound. */
  method Range(card: Card, rows: seq<Row>, from: Month, count: int, backward: bool) returns (r: Option<Page>)
    requires Keys(rows) && Dated(card, rows)
    ensures r.Some? <==> 1 <= count <= MAX_PAGE
    ensures r.Some? ==> r.value == PageOf(card, rows, from, count, backward)
  {
    if count < 1 || count > MAX_PAGE {
      return None;
    }
    var w := PageWindow(card, rows, from, count, backward);
    if w.Nothing? {
      return Some(Page([], false));
    }
    var raw := Filter(rows, Between(w.lo, w.hi));
    FilterKeys(rows, Between(w.lo, w.hi));
    var statements := ReadMonths(card, rows, raw, w.lo, w.hi);
    if backward {
      statements := Reversed(statements);
    }
    return Some(Page(statements, w.more));
  }

  lemma FilterKeys(rows: seq<Row>, p: Row -> bool)
    requires Keys(rows)
    ensures Keys(Filter(rows, p))
  {
    forall i | 0 <= i < |Filter(rows, p)| ensures WritableKey(Filter(rows, p)[i].key) {
      assert Filter(rows, p)[i] in rows;
    }
  }

  lemma StatementsSnoc(card: Card, rows: seq<Row>, lo: Month, m: Month)
    requires 0 <= lo <= m < 120_000
    ensures Statements(card, rows, lo, m) == Statements(card, rows, lo, m - 1) + [GetStatement(card, rows, m)]
  {
  }

  /** Month by month from the rows of the range. */
  method ReadMonths(card: Card, ghost rows: seq<Row>, raw: seq<Row>, lo: Month, hi: Month) returns (statements: seq<Statement>)
    requires Keys(rows) && Keys(raw) && 0 <= lo <= hi < 120_000 && raw == Filter(rows, Between(lo, hi))
    ensures statements == Statements(card, rows, lo, hi)
  {
    statements := [];
    for m := lo to hi + 1
      invariant lo <= m && statements == Statements(card, rows, lo, m - 1)
    {
      var mine := MonthRows(raw, m);
      RangeHoldsTheMonth(rows, lo, hi, m);
      var s := BuildStatement(card, m, mine);
      StatementsSnoc(card, rows, lo, m);
      statements := statements + [s];
    }
  }

  /** The rows whose key reads back as month m, in order. */
  method MonthRows(raw: seq<Row>, m: Month) returns (mine: seq<Row>)
    requires Keys(raw)
    ensures mine == Filter(raw, OfMonth(m)) && Keys(mine)
  {
    mine := [];
    for i := 0 to |raw|
      invariant mine == Filter(raw[..i], OfMonth(m)) && Keys(mine)
    {
      assert raw[..i + 1][..i] == raw[..i];
      MonthReadBack(raw[i].key);
      if StatementMonthOf(Text(raw[i].key)) == Some(m) {
        mine := mine + [raw[i]];
      }
    }
    assert raw[..|raw|] == raw;
  }

  // ---- page after page ----

  function Ascending(lo: Month, hi: Month): seq<Month> {
    if lo > hi then [] else seq(hi - lo + 1, i requires 0 <= i < hi - lo + 1 => lo + i)
  }

  /** The months of the pages from one on, each next page starting past the last month seen, while there are more. */
  function VisitedForward(first: Month, last: Month, from: Month, count: int): seq<Month>
    requires count >= 1
    decreases if from <= last then last - from + 1 else 0
  {
    match WindowOf(first, last, from, count, false)
    case Nothing => []
    case Window(lo, hi, more) => Ascending(lo, hi) + if more then VisitedForward(first, last, hi + 1, count) else []
  }

  function VisitedBackward(first: Month, last: Month, from: Month, count: int): seq<Month>
    requires count >= 1
    decreases if from >= first then from - first + 1 else 0
  {
    match WindowOf(first, last, from, count, true)
    case Nothing => []
    case Window(lo, hi, more) => Reversed(Ascending(lo, hi)) + if more then VisitedBackward(first, last, lo - 1, count) else []
  }

  lemma AscendingJoins(lo: Month, hi: Month, last: Month)
    requires lo <= hi + 1 <= last + 1
    ensures Ascending(lo, hi) + Ascending(hi + 1, last) == Ascending(lo, last)
  {
  }

  lemma {:induction false} ReversedJoins<T>(a: seq<T>, b: seq<T>)
    ensures Reversed(a + b) == Reversed(b) + Reversed(a)
  {
  }

  /** Following pages forward visits every month from the first asked to the end, once, in order. */
  lemma {:induction false} ForwardVisitsAll(first: Month, last: Month, from: Month, count: int)
    requires count >= 1
    ensures VisitedForward(first, last, from, count) == Ascending(if from < first then first else from, last)
    decreases if from <= last then last - from + 1 else 0
  {
    var w := WindowOf(first, last, from, count, false);
    if w.Window? && w.more {
      ForwardVisitsAll(first, last, w.hi + 1, count);
      AscendingJoins(w.lo, w.hi, last);
    }
  }

  /** And backward, every month from the one asked down to the first. */
  lemma {:induction false} BackwardVisitsAll(first: Month, last: Month, from: Month, count: int)
    requires count >= 1
    ensures VisitedBackward(first, last, from, count) == Reversed(Ascending(first, Min(from, last)))
    decreases if from >= first then from - first + 1 else 0
  {
    var w := WindowOf(first, last, from, count, true);
    if w.Window? && w.more {
      BackwardVisitsAll(first, last, w.lo - 1, count);
      AscendingJoins(first, w.lo - 1, w.hi);
      ReversedJoins(Ascending(first, w.lo - 1), Ascending(w.lo, w.hi));
    }
  }
}
