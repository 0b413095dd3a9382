/**
 Sort keys of a card's partition as text, compared byte by byte (repositories/finance_keys.go, repositories/cards_range.go,
 domain/finance/month.go): statements and their items sort by month, each month's items right after its statement.
 */
module StatementKeys {
  import opened Calendar
  import opened Installments

  // ---- text order ----

  predicate Less(a: string, b: string) {
    b != [] && (a == [] || a[0] < b[0] || (a[0] == b[0] && Less(a[1..], b[1..])))
  }

  predicate AtMost(a: string, b: string) { !Less(b, a) }

  /** Texts that start alike in length are told apart by their starts, then by the rest. */
  lemma {:induction false} LessAppend(x: string, y: string, s: string, t: string)
    requires |x| == |y|
    ensures Less(x + s, y + t) <==> Less(x, y) || (x == y && Less(s, t))
  {
    if x == [] {
      assert x + s == s && y + t == t;
    } else {
      LessAppend(x[1..], y[1..], s, t);
      assert (x + s)[1..] == x[1..] + s && (y + t)[1..] == y[1..] + t;
      assert x == y <==> x[0] == y[0] && x[1..] == y[1..];
    }
  }

  lemma {:induction false} LessIrreflexive(x: string)
    ensures !Less(x, x)
  {
    if x != [] {
      LessIrreflexive(x[1..]);
    }
  }

  // ---- numbers of fixed width ----

  function Pow10(w: nat): nat { if w == 0 then 1 else 10 * Pow10(w - 1) }

  function Digit(n: int): char
    requires 0 <= n < 10
  {
    '0' + n as char
  }

  predicate IsDigit(c: char) { '0' <= c <= '9' }

  predicate AllDigits(s: string) { forall i :: 0 <= i < |s| ==> IsDigit(s[i]) }

  function Digits(n: nat, w: nat): (s: string)
    ensures |s| == w && AllDigits(s)
  {
    if w == 0 then "" else Digits(n / 10, w - 1) + [Digit(n % 10)]
  }

  function Number(s: string): nat
    requires AllDigits(s)
  {
    if s == [] then 0 else 10 * Number(s[..|s| - 1]) + (s[|s| - 1] as int - '0' as int)
  }

  lemma {:induction false} NumberOfDigits(n: nat, w: nat)
    requires n < Pow10(w)
    ensures Number(Digits(n, w)) == n
  {
    if w > 0 {
      NumberOfDigits(n / 10, w - 1);
      assert Digits(n, w)[..w - 1] == Digits(n / 10, w - 1);
    }
  }

  lemma {:induction false} DigitsOfNumber(s: string)
    requires AllDigits(s)
    ensures Digits(Number(s), |s|) == s && Number(s) < Pow10(|s|)
  {
    if s != [] {
      DigitsOfNumber(s[..|s| - 1]);
      assert Number(s) / 10 == Number(s[..|s| - 1]);
      assert s == s[..|s| - 1] + [s[|s| - 1]];
    }
  }

  /** Numbers of one width sort as text as they do as numbers. */
  lemma {:induction false} DigitsOrder(a: nat, b: nat, w: nat)
    requires a < Pow10(w) && b < Pow10(w)
    ensures Less(Digits(a, w), Digits(b, w)) <==> a < b
    ensures Digits(a, w) == Digits(b, w) <==> a == b
  {
    NumberOfDigits(a, w);
    NumberOfDigits(b, w);
    if w > 0 {
      DigitsOrder(a / 10, b / 10, w - 1);
      LessAppend(Digits(a / 10, w - 1), Digits(b / 10, w - 1), [Digit(a % 10)], [Digit(b % 10)]);
    }
  }

  // ---- months ----

  /** Years of four digits. */
  predicate Writable(m: Month) { 0 <= m < 120_000 }

  /** YYYY-MM. */
  function MonthText(m: Month): (s: string)
    requires Writable(m)
    ensures |s| == 7
  {
    Digits(m / 12, 4) + "-" + Digits(m % 12 + 1, 2)
  }

  function ParseMonth(s: string): Option<Month> {
    if |s| != 7 || s[4] != '-' || !AllDigits(s[..4]) || !AllDigits(s[5..]) then None
    else
      var mm := Number(s[5..]);
      if 1 <= mm <= 12 then Some(12 * Number(s[..4]) + mm - 1) else None
  }

  lemma PowersOfTen()
    ensures Pow10(2) == 100 && Pow10(4) == 10_000
  {
    assert Pow10(1) == 10 && Pow10(3) == 1000;
  }

  lemma Dashed(xa: string, xb: string, ya: string, yb: string)
    requires |xa| == |xb| && |ya| == |yb|
    ensures Less(xa + "-" + ya, xb + "-" + yb) <==> Less(xa, xb) || (xa == xb && Less(ya, yb))
    ensures xa + "-" + ya == xb + "-" + yb <==> xa == xb && ya == yb
  {
    LessAppend(xa + "-", xb + "-", ya, yb);
    LessAppend(xa, xb, "-", "-");
    LessIrreflexive("-");
    var sa, sb, n := xa + "-" + ya, xb + "-" + yb, |xa|;
    assert sa[..n] == xa && sb[..n] == xb && sa[n + 1..] == ya && sb[n + 1..] == yb;
  }

  lemma MonthParts(a: Month, b: Month)
    ensures a < b <==> a / 12 < b / 12 || (a / 12 == b / 12 && a % 12 < b % 12)
    ensures a == b <==> a / 12 == b / 12 && a % 12 == b % 12
  {
  }

  /** Months sort as text as they do in time. */
  lemma MonthOrder(a: Month, b: Month)
    requires Writable(a) && Writable(b)
    ensures Less(MonthText(a), MonthText(b)) <==> a < b
    ensures MonthText(a) == MonthText(b) <==> a == b
  {
    PowersOfTen();
    MonthParts(a, b);
    DigitsOrder(a / 12, b / 12, 4);
    DigitsOrder(a % 12 + 1, b % 12 + 1, 2);
    Dashed(Digits(a / 12, 4), Digits(b / 12, 4), Digits(a % 12 + 1, 2), Digits(b % 12 + 1, 2));
  }

  lemma TextParts(m: Month)
    requires Writable(m)
    ensures MonthText(m)[..4] == Digits(m / 12, 4) && MonthText(m)[5..] == Digits(m % 12 + 1, 2) && MonthText(m)[4] == '-'
  {
  }

  lemma TextParses(m: Month)
    requires Writable(m)
    ensures ParseMonth(MonthText(m)) == Some(m)
  {
    PowersOfTen();
    TextParts(m);
    NumberOfDigits(m / 12, 4);
    NumberOfDigits(m % 12 + 1, 2);
  }

  lemma ParsedIsText(s: string)
    requires ParseMonth(s).Some?
    ensures Writable(ParseMonth(s).value) && MonthText(ParseMonth(s).value) == s
  {
    PowersOfTen();
    var m := ParseMonth(s).value;
    DigitsOfNumber(s[..4]);
    DigitsOfNumber(s[5..]);
    assert m / 12 == Number(s[..4]) && m % 12 + 1 == Number(s[5..]);
    assert s == s[..4] + "-" + s[5..];
  }

  /** Reading back what was written, and only that. */
  lemma ParseIffText(s: string, m: Month)
    ensures ParseMonth(s) == Some(m) <==> Writable(m) && s == MonthText(m)
  {
    if Writable(m) {
      TextParses(m);
    }
    if ParseMonth(s).Some? {
      ParsedIsText(s);
    }
  }

  // ---- keys ----

  const STATEMENT := "STATEMENT#"
  const ITEM := "#ITEM#"
  const PURCHASE := "PURCHASE#"

  /** A row of the card's partition. */
  datatype Key = PurchaseKey(id: string) | StatementKey(month: Month) | ItemKey(month: Month, purchase: string, tag: string)

  predicate WritableKey(k: Key) { k.PurchaseKey? || Writable(k.month) }

  function StatementSK(m: Month): string
    requires Writable(m)
  {
    STATEMENT + MonthText(m)
  }

  function Suffix(k: Key): string {
    match k
    case ItemKey(_, purchase, tag) => ITEM + purchase + "#" + tag
    case _ => ""
  }

  function Text(k: Key): string
    requires WritableKey(k)
  {
    match k
    case PurchaseKey(id) => PURCHASE + id
    case _ => StatementSK(k.month) + Suffix(k)
  }

  predicate HasPrefix(s: string, p: string) { |p| <= |s| && s[..|p|] == p }

  function StatementMonthOf(sk: string): Option<Month> {
    if !HasPrefix(sk, STATEMENT) || |sk| - |STATEMENT| < 7 then None else ParseMonth(sk[|STATEMENT|..|STATEMENT| + 7])
  }

  lemma PurchaseApart(id: string)
    ensures Less(PURCHASE + id, STATEMENT) && !HasPrefix(PURCHASE + id, STATEMENT)
  {
    assert (PURCHASE + id)[0] == 'P' && STATEMENT[0] == 'S';
  }

  /** The month of a key is read back from its text. */
  lemma MonthReadBack(k: Key)
    requires WritableKey(k)
    ensures StatementMonthOf(Text(k)) == (if k.PurchaseKey? then None else Some(k.month))
  {
    match k
    case PurchaseKey(id) => PurchaseApart(id);
    case _ =>
      var sk := Text(k);
      assert sk[..|STATEMENT|] == STATEMENT;
      assert sk[|STATEMENT|..|STATEMENT| + 7] == MonthText(k.month);
      ParseIffText(MonthText(k.month), k.month);
  }

  /** Two statement keys compare by month, then by what follows. */
  lemma KeyOrder(a: Month, b: Month, s: string, t: string)
    requires Writable(a) && Writable(b)
    ensures Less(StatementSK(a) + s, StatementSK(b) + t) <==> a < b || (a == b && Less(s, t))
  {
    MonthOrder(a, b);
    LessAppend(StatementSK(a), StatementSK(b), s, t);
    LessAppend(STATEMENT, STATEMENT, MonthText(a), MonthText(b));
    LessIrreflexive(STATEMENT);
    assert StatementSK(a)[|STATEMENT|..] == MonthText(a) && StatementSK(b)[|STATEMENT|..] == MonthText(b);
  }

  /** A month of a five-digit year, as the same format writes it. */
  function WideText(m: Month): string
    requires m >= 0
  {
    Digits(m / 12, 5) + "-" + Digits(m % 12 + 1, 2)
  }

  /** Four digits are where the order ends: a month of years 10000 to 19999 sorts before every one of years 2000 to 9999. */
  lemma FifthDigitBreaks(a: Month, b: Month)
    requires Writable(a) && a / 12 >= 2000 && 120_000 <= b < 240_000
    ensures a < b && Less(STATEMENT + WideText(b), StatementSK(a))
  {
    LeadingDigit(b / 12, 4, 1);
    LeadingDigit(a / 12, 3, a / 12 / 1000);
    var x, y := WideText(b), MonthText(a);
    LessAppend(STATEMENT, STATEMENT, x, y);
    assert x[0] == Digits(b / 12, 5)[0] && y[0] == Digits(a / 12, 4)[0];
  }

  /** The first of w + 1 digits. */
  lemma {:induction false} LeadingDigit(n: nat, w: nat, d: nat)
    requires d < 10 && d * Pow10(w) <= n < (d + 1) * Pow10(w)
    ensures Digits(n, w + 1)[0] == Digit(d)
  {
    if w > 0 {
      PowerTimes(d, w);
      PowerTimes(d + 1, w);
      TenTimes(n, d * Pow10(w - 1), (d + 1) * Pow10(w - 1), d * Pow10(w), (d + 1) * Pow10(w));
      LeadingDigit(n / 10, w - 1, d);
      assert Digits(n, w + 1)[..w] == Digits(n / 10, w);
    }
  }

  lemma TenTimes(n: nat, lo: nat, hi: nat, lo10: nat, hi10: nat)
    requires lo10 == 10 * lo && hi10 == 10 * hi && lo10 <= n < hi10
    ensures lo <= n / 10 < hi
  {
  }

  lemma PowerTimes(d: nat, w: nat)
    requires w > 0
    ensures d * Pow10(w) == 10 * (d * Pow10(w - 1))
  {
    var p := Pow10(w - 1);
    assert d * (10 * p) == 10 * (d * p);
  }

  predicate InRange(sk: string, lo: Month, hi: Month)
    requires Writable(lo) && Writable(hi)
  {
    AtMost(StatementSK(lo), sk) && AtMost(sk, StatementSK(hi) + "$")
  }

  /** Between STATEMENT#lo and STATEMENT#hi$ lie exactly the rows of months lo to hi: statements, items, nothing else. */
  lemma RangeIsTheMonths(k: Key, lo: Month, hi: Month)
    requires WritableKey(k) && Writable(lo) && Writable(hi)
    ensures InRange(Text(k), lo, hi) <==> !k.PurchaseKey? && lo <= k.month <= hi
  {
    if k.PurchaseKey? {
      PurchaseApart(k.id);
      LessAppend([(PURCHASE + k.id)[0]], [STATEMENT[0]], (PURCHASE + k.id)[1..], StatementSK(lo)[1..]);
      assert [(PURCHASE + k.id)[0]] + (PURCHASE + k.id)[1..] == PURCHASE + k.id;
      assert [STATEMENT[0]] + StatementSK(lo)[1..] == StatementSK(lo);
    } else {
      KeyOrder(k.month, lo, Suffix(k), "");
      KeyOrder(hi, k.month, "$", Suffix(k));
      assert StatementSK(lo) + "" == StatementSK(lo);
      SuffixBeforeDollar(k);
    }
  }

  lemma SuffixBeforeDollar(k: Key)
    ensures !Less("$", Suffix(k)) && !Less(Suffix(k), "")
  {
    if k.ItemKey? {
      assert Suffix(k)[0] == '#';
    }
  }

  /** A month's own prefix holds exactly the rows of that month. */
  lemma PrefixIsTheMonth(k: Key, m: Month)
    requires WritableKey(k) && Writable(m)
    ensures HasPrefix(Text(k), StatementSK(m)) <==> !k.PurchaseKey? && k.month == m
  {
    if k.PurchaseKey? {
      PurchaseApart(k.id);
      assert StatementSK(m)[0] == 'S' && Text(k)[0] == 'P';
    } else {
      MonthOrder(k.month, m);
      var sk := Text(k);
      assert sk[..|StatementSK(m)|] == StatementSK(k.month);
      assert StatementSK(m)[|STATEMENT|..] == MonthText(m) && StatementSK(k.month)[|STATEMENT|..] == MonthText(k.month);
    }
  }
}
