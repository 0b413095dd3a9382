/**
 Folding the ADD updates of one transaction that touch the same item into one (repositories/ledger_merge.go), with the
 meaning a transaction has for the table: all conditions on the rows before it, then every write.
 */
module LedgerMerge {
  import opened Installments

  datatype Value = Num(n: int) | Text(s: string)

  type Row = map<string, Value>

  datatype Item = Item(table: string, pk: string, sk: string)

  type Store = map<Item, Row>

  /** One "attribute :placeholder" of an expression. */
  datatype Term = Term(attr: string, value: string)

  /** An update expression: its ADD terms and SET terms, and whether its text begins with ADD. */
  datatype Expr = Expr(addFirst: bool, adds: seq<Term>, sets: seq<Term>)

  datatype Cond = Always | Exists | Absent | Equals(attr: string, value: string)

  /** One write of a transaction; names resolves the aliases an expression uses, values its placeholders. */
  datatype Op =
    | Update(item: Item, expr: Expr, cond: Cond, names: map<string, string>, values: map<string, Value>)
    | Put(item: Item, cond: Cond, row: Row)
    | Delete(item: Item, cond: Cond)
    | Check(item: Item, cond: Cond)

  // ---- what a transaction does ----

  function NumberOf(v: Option<Value>): int { if v.Some? && v.value.Num? then v.value.n else 0 }

  function Lookup<K, V>(m: map<K, V>, k: K): Option<V> { if k in m then Some(m[k]) else None }

  function Resolve(names: map<string, string>, attr: string): string { if attr in names then names[attr] else attr }

  predicate Holds(op: Op, r: Option<Row>) {
    match op.cond
    case Always => true
    case Exists => r.Some?
    case Absent => r.None?
    case Equals(attr, value) =>
      op.Update? && r.Some? && Resolve(op.names, attr) in r.value && value in op.values
      && r.value[Resolve(op.names, attr)] == op.values[value]
  }

  function Touched(terms: seq<Term>, names: map<string, string>): set<string> {
    set i | 0 <= i < |terms| :: Resolve(names, terms[i].attr)
  }

  /** What the terms add to attribute a. */
  function Added(terms: seq<Term>, names: map<string, string>, values: map<string, Value>, a: string): int {
    if terms == [] then 0
    else
      var t := terms[|terms| - 1];
      Added(terms[..|terms| - 1], names, values, a) + (if Resolve(names, t.attr) == a then NumberOf(Lookup(values, t.value)) else 0)
  }

  /** What the terms set attribute a to. */
  function SetTo(terms: seq<Term>, names: map<string, string>, values: map<string, Value>, a: string): Option<Value> {
    if terms == [] then None
    else
      var t := terms[|terms| - 1];
      if Resolve(names, t.attr) == a then Lookup(values, t.value) else SetTo(terms[..|terms| - 1], names, values, a)
  }

  function Attr(r: Option<Row>, a: string): Option<Value> { if r.Some? then Lookup(r.value, a) else None }

  function Has(r: Option<Row>): set<string> { if r.Some? then r.value.Keys else {} }

  /** ADD refuses an attribute that is not a number. */
  predicate Addable(op: Op, r: Option<Row>) {
    op.Update? ==> forall a :: a in Touched(op.expr.adds, op.names) && a in Has(r) ==> r.value[a].Num?
  }

  predicate Accepts(op: Op, s: Store) { Holds(op, Lookup(s, op.item)) && Addable(op, Lookup(s, op.item)) }

  function Updated(op: Op, r: Option<Row>): Row
    requires op.Update?
  {
    map a | a in Has(r) + Touched(op.expr.adds, op.names) + Touched(op.expr.sets, op.names) ::
      var to := SetTo(op.expr.sets, op.names, op.values, a);
      if to.Some? then to.value
      else if a in Touched(op.expr.adds, op.names) then Num(NumberOf(Attr(r, a)) + Added(op.expr.adds, op.names, op.values, a))
      else if a in Has(r) then r.value[a] else Num(0)
  }

  function RowAfter(op: Op, r: Option<Row>): Option<Row> {
    match op
    case Update(_, _, _, _, _) => Some(Updated(op, r))
    case Put(_, _, row) => Some(row)
    case Delete(_, _) => None
    case Check(_, _) => r
  }

  function Written(s: Store, x: Item, r: Option<Row>): Store { if r.Some? then s[x := r.value] else s - {x} }

  function Effects(ops: seq<Op>, s: Store): Store {
    if ops == [] then s
    else
      var before, op := Effects(ops[..|ops| - 1], s), ops[|ops| - 1];
      Written(before, op.item, RowAfter(op, Lookup(before, op.item)))
  }

  ghost predicate OneOpPerItem(ops: seq<Op>) { forall i, j :: 0 <= i < j < |ops| ==> ops[i].item != ops[j].item }

  ghost predicate AllAccept(ops: seq<Op>, s: Store) { forall i :: 0 <= i < |ops| ==> Accepts(ops[i], s) }

  /** The table's own rule: two operations on one item, or one condition that fails, and nothing is written. */
  ghost function Transact(ops: seq<Op>, s: Store): Option<Store> {
    if OneOpPerItem(ops) && AllAccept(ops, s) then Some(Effects(ops, s)) else None
  }

  // ---- the fold ----

  predicate AllNumbers(values: map<string, Value>) { forall n :: n in values ==> values[n].Num? }

  predicate Foldable(op: Op) { op.Update? && op.expr.addFirst && AllNumbers(op.values) }

  /** Same table, key, expression and condition. */
  predicate SameKey(a: Op, b: Op) {
    Foldable(a) && Foldable(b) && a.item == b.item && a.expr == b.expr && a.cond == b.cond
  }

  function FoldIn(a: Op, b: Op): Op
    requires a.Update? && b.Update?
  {
    a.(values := SumOf(a.values, b.values))
  }

  /** Name by name the sum, a missing value counting as zero. */
  function SumOf(a: map<string, Value>, b: map<string, Value>): map<string, Value> {
    map n | n in a.Keys + b.Keys :: if n in b then Num(NumberOf(Lookup(a, n)) + NumberOf(Some(b[n]))) else a[n]
  }

  /** The place of op's group in out, or its length. */
  function Find(out: seq<Op>, op: Op): (i: nat)
    ensures i <= |out|
    ensures i < |out| ==> SameKey(out[i], op)
    ensures forall j :: 0 <= j < i ==> !SameKey(out[j], op)
  {
    if out == [] then 0 else if SameKey(out[0], op) then 0 else 1 + Find(out[1..], op)
  }

  function Merge(ops: seq<Op>): seq<Op> {
    if ops == [] then []
    else
      var out, op := Merge(ops[..|ops| - 1]), ops[|ops| - 1];
      var i := Find(out, op);
      if i < |out| then out[i := FoldIn(out[i], op)] else out + [op]
  }

  function Unfolded(ops: seq<Op>): seq<Op> {
    if ops == [] then []
    else Unfolded(ops[..|ops| - 1]) + (if Foldable(ops[|ops| - 1]) then [] else [ops[|ops| - 1]])
  }

  /** The same place in the transaction: itself, or folded from its group. */
  predicate Stands(a: Op, b: Op) { a == b || SameKey(a, b) }

  /** The original a merged write was first made from. */
  function Origin(ops: seq<Op>, i: nat): (j: nat)
    requires i < |Merge(ops)|
    ensures j < |ops|
  {
    if i < |Merge(ops[..|ops| - 1])| then Origin(ops[..|ops| - 1], i) else |ops| - 1
  }

  /** Every merged write stands for its origin, with its names; origins come in the same order. */
  lemma {:induction false} MergedComes(ops: seq<Op>, i: nat)
    requires i < |Merge(ops)|
    ensures var op := ops[Origin(ops, i)];
            Stands(Merge(ops)[i], op) && (op.Update? ==> Merge(ops)[i].names == op.names)
    ensures forall h :: 0 <= h < i ==> Origin(ops, h) < Origin(ops, i)
    decreases |ops|
  {
    if i < |Merge(ops[..|ops| - 1])| {
      MergedComes(ops[..|ops| - 1], i);
    }
  }

  /** Where an original goes in the merged list. */
  function Place(ops: seq<Op>, j: nat): nat
    requires j < |ops|
  {
    Find(Merge(ops[..j]), ops[j])
  }

  /** Every original is stood for; one that is not folded has its own place, after all before it. */
  lemma {:induction false} MergedCovers(ops: seq<Op>, j: nat)
    requires j < |ops|
    ensures Place(ops, j) < |Merge(ops)| && Stands(Merge(ops)[Place(ops, j)], ops[j])
    decreases |ops|
  {
    var n := |ops| - 1;
    if j < n {
      MergedCovers(ops[..n], j);
      assert ops[..n][..j] == ops[..j];
    }
  }

  lemma PlacesApart(ops: seq<Op>, x: nat, y: nat)
    requires x < y < |ops| && !Foldable(ops[y])
    ensures Place(ops, x) < Place(ops, y)
  {
    MergedCovers(ops[..y], x);
    assert ops[..y][..x] == ops[..x];
  }

  /** The folded updates have pairwise distinct table, key, expression and condition. */
  lemma {:induction false} MergedDistinct(ops: seq<Op>)
    ensures forall i, j :: 0 <= i < j < |Merge(ops)| ==> !SameKey(Merge(ops)[i], Merge(ops)[j])
  {
    if ops != [] {
      MergedDistinct(ops[..|ops| - 1]);
    }
  }

  /** Every other write appears unchanged and in order. */
  lemma {:induction false} OthersUntouched(ops: seq<Op>)
    ensures Unfolded(Merge(ops)) == Unfolded(ops)
  {
    if ops != [] {
      var m, op := Merge(ops[..|ops| - 1]), ops[|ops| - 1];
      OthersUntouched(ops[..|ops| - 1]);
      var i := Find(m, op);
      if i < |m| {
        UnfoldedPut(m, i, FoldIn(m[i], op));
      } else {
        assert (m + [op])[..|m|] == m;
      }
    }
  }

  lemma {:induction false} UnfoldedPut(m: seq<Op>, i: nat, op: Op)
    requires i < |m| && Foldable(m[i]) && Foldable(op)
    ensures Unfolded(m[i := op]) == Unfolded(m)
  {
    var n := |m| - 1;
    if i < n {
      UnfoldedPut(m[..n], i, op);
      assert m[i := op][..n] == m[..n][i := op];
    } else {
      assert m[i := op][..n] == m[..n];
    }
  }

  /** Merging twice is merging once. */
  lemma MergeTwice(ops: seq<Op>)
    ensures Merge(Merge(ops)) == Merge(ops)
  {
    MergedDistinct(ops);
    DistinctIsMerged(Merge(ops));
  }

  lemma {:induction false} DistinctIsMerged(m: seq<Op>)
    requires forall i, j :: 0 <= i < j < |m| ==> !SameKey(m[i], m[j])
    ensures Merge(m) == m
  {
    if m != [] {
      DistinctIsMerged(m[..|m| - 1]);
    }
  }

  // ---- meaning ----

  /** The original meant: repeats allowed only within a group, every condition on the rows before, every write in order. */
  ghost predicate Compatible(ops: seq<Op>) {
    forall i, j :: 0 <= i < j < |ops| && ops[i].item == ops[j].item ==> SameKey(ops[i], ops[j])
  }

  ghost function Meaning(ops: seq<Op>, s: Store): Option<Store> {
    if Compatible(ops) && AllAccept(ops, s) then Some(Effects(ops, s)) else None
  }

  /** Updates that share a group only ADD, under the same names, and no condition looks at a value. */
  ghost predicate PlainGroups(ops: seq<Op>) {
    forall i, j :: 0 <= i < j < |ops| && SameKey(ops[i], ops[j]) ==> PlainPair(ops[i], ops[j])
  }

  predicate PlainPair(a: Op, b: Op) {
    a.Update? && b.Update? && a.names == b.names && a.expr.sets == [] && !a.cond.Equals?
  }

  lemma CompatibleOne(ops: seq<Op>)
    requires Compatible(ops)
    ensures OneOpPerItem(Merge(ops))
  {
    var m := Merge(ops);
    MergedDistinct(ops);
    forall i, k | 0 <= i < k < |m| ensures m[i].item != m[k].item {
      MergedComes(ops, i);
      MergedComes(ops, k);
    }
  }

  lemma OneCompatible(ops: seq<Op>)
    requires OneOpPerItem(Merge(ops))
    ensures Compatible(ops)
  {
    forall x, y | 0 <= x < y < |ops| && ops[x].item == ops[y].item ensures SameKey(ops[x], ops[y]) {
      MergedCovers(ops, x);
      MergedCovers(ops, y);
      if !Foldable(ops[y]) {
        PlacesApart(ops, x, y);
      }
    }
  }

  lemma {:induction false} AddedFolds(terms: seq<Term>, a: Op, b: Op, x: string)
    requires Foldable(a) && Foldable(b)
    ensures Added(terms, a.names, FoldIn(a, b).values, x) == Added(terms, a.names, a.values, x) + Added(terms, a.names, b.values, x)
  {
    if terms != [] {
      AddedFolds(terms[..|terms| - 1], a, b, x);
    }
  }

  /** An update that only adds, one attribute at a time. */
  lemma AddsAt(op: Op, r: Option<Row>, x: string)
    requires op.Update? && op.expr.sets == []
    ensures x in Updated(op, r) <==> x in Has(r) || x in Touched(op.expr.adds, op.names)
    ensures x in Touched(op.expr.adds, op.names) ==>
            Updated(op, r)[x] == Num(NumberOf(Attr(r, x)) + Added(op.expr.adds, op.names, op.values, x))
    ensures x in Has(r) && x !in Touched(op.expr.adds, op.names) ==> Updated(op, r)[x] == r.value[x]
  {
  }

  /** One folded update is the two in a row. */
  lemma FoldedRow(a: Op, b: Op, r: Option<Row>)
    requires SameKey(a, b) && a.names == b.names && a.expr.sets == []
    ensures RowAfter(FoldIn(a, b), r) == RowAfter(b, RowAfter(a, r))
  {
    var one, mid := Updated(FoldIn(a, b), r), Updated(a, r);
    var two := Updated(b, Some(mid));
    forall x ensures (x in one <==> x in two) && (x in one ==> one[x] == two[x]) {
      AddedFolds(a.expr.adds, a, b, x);
      AddsAt(FoldIn(a, b), r, x);
      AddsAt(a, r, x);
      AddsAt(b, Some(mid), x);
    }
    assert one == two;
  }

  /** With one operation per item each row depends on its own operation alone. */
  lemma {:induction false} EffectAt(m: seq<Op>, s: Store, i: nat)
    requires OneOpPerItem(m) && i < |m|
    ensures Lookup(Effects(m, s), m[i].item) == RowAfter(m[i], Lookup(s, m[i].item))
    decreases |m|
  {
    var n := |m| - 1;
    if i < n {
      EffectAt(m[..n], s, i);
    } else {
      EffectElsewhere(m[..n], s, m[i].item);
    }
  }

  lemma {:induction false} EffectElsewhere(m: seq<Op>, s: Store, x: Item)
    requires forall i :: 0 <= i < |m| ==> m[i].item != x
    ensures Lookup(Effects(m, s), x) == Lookup(s, x)
  {
    if m != [] {
      EffectElsewhere(m[..|m| - 1], s, x);
    }
  }

  lemma SameMap<K, V>(a: map<K, V>, b: map<K, V>)
    requires forall x :: Lookup(a, x) == Lookup(b, x)
    ensures a == b
  {
    forall x ensures x in a <==> x in b {
      assert Lookup(a, x) == Lookup(b, x);
    }
    forall x | x in a ensures a[x] == b[x] {
      assert Lookup(a, x) == Lookup(b, x);
    }
  }

  lemma {:induction false} EffectsAgree(ops: seq<Op>, s: Store)
    requires Compatible(ops) && PlainGroups(ops)
    ensures Effects(Merge(ops), s) == Effects(ops, s)
  {
    if ops != [] {
      var n := |ops| - 1;
      var m, op := Merge(ops[..n]), ops[n];
      assert Compatible(ops[..n]) && PlainGroups(ops[..n]);
      EffectsAgree(ops[..n], s);
      var i := Find(m, op);
      if i < |m| {
        MergedComes(ops[..n], i);
        assert PlainPair(ops[Origin(ops[..n], i)], op);
        CompatibleOne(ops[..n]);
        FoldedEffects(m, i, op, s);
      } else {
        assert (m + [op])[..|m|] == m;
      }
    }
  }

  lemma FoldedEffects(m: seq<Op>, i: nat, op: Op, s: Store)
    requires OneOpPerItem(m) && i < |m| && SameKey(m[i], op) && m[i].names == op.names && op.expr.sets == []
    ensures Effects(m[i := FoldIn(m[i], op)], s) == Written(Effects(m, s), op.item, RowAfter(op, Lookup(Effects(m, s), op.item)))
  {
    var one, two := Effects(m[i := FoldIn(m[i], op)], s), Written(Effects(m, s), op.item, RowAfter(op, Lookup(Effects(m, s), op.item)));
    forall x ensures Lookup(one, x) == Lookup(two, x) {
      FoldedAt(m, i, op, s, x);
    }
    SameMap(one, two);
  }

  lemma FoldedAt(m: seq<Op>, i: nat, op: Op, s: Store, x: Item)
    requires OneOpPerItem(m) && i < |m| && SameKey(m[i], op) && m[i].names == op.names && op.expr.sets == []
    ensures Lookup(Effects(m[i := FoldIn(m[i], op)], s), x) ==
            if x == op.item then RowAfter(op, Lookup(Effects(m, s), x)) else Lookup(Effects(m, s), x)
  {
    var f := m[i := FoldIn(m[i], op)];
    assert forall k :: 0 <= k < |m| ==> f[k].item == m[k].item;
    assert OneOpPerItem(f);
    if x == op.item {
      EffectAt(m, s, i);
      EffectAt(f, s, i);
      FoldedRow(m[i], op, Lookup(s, x));
    } else if k :| 0 <= k < |m| && m[k].item == x {
      EffectAt(m, s, k);
      EffectAt(f, s, k);
    } else {
      EffectElsewhere(m, s, x);
      EffectElsewhere(f, s, x);
    }
  }

  lemma StandsAccepts(a: Op, b: Op, s: Store)
    requires a == b || (SameKey(a, b) && PlainPair(a, b))
    ensures Accepts(a, s) <==> Accepts(b, s)
  {
  }

  /** Merged writes keep their group's condition, names and terms. */
  lemma PlainPlaces(ops: seq<Op>, j: nat)
    requires PlainGroups(ops) && j < |ops|
    ensures Place(ops, j) < |Merge(ops)|
    ensures var m := Merge(ops)[Place(ops, j)]; m == ops[j] || (SameKey(m, ops[j]) && PlainPair(m, ops[j]))
  {
    MergedCovers(ops, j);
    var i := Place(ops, j);
    MergedComes(ops, i);
    var o := Origin(ops, i);
    if SameKey(Merge(ops)[i], ops[j]) {
      if o == j {
        LoneOrPlain(ops, i);
      } else {
        assert SameKey(ops[o], ops[j]) && SameKey(ops[j], ops[o]);
      }
    }
  }

  /** A merged write is its origin unchanged unless something was folded into it. */
  lemma {:induction false} LoneOrPlain(ops: seq<Op>, i: nat)
    requires PlainGroups(ops) && i < |Merge(ops)|
    ensures var m, op := Merge(ops)[i], ops[Origin(ops, i)]; m == op || (SameKey(m, op) && PlainPair(m, op))
    decreases |ops|
  {
    var n := |ops| - 1;
    var m := Merge(ops[..n]);
    if i < |m| {
      assert PlainGroups(ops[..n]);
      LoneOrPlain(ops[..n], i);
      if i == Find(m, ops[n]) {
        MergedComes(ops[..n], i);
        assert SameKey(ops[Origin(ops[..n], i)], ops[n]);
      }
    }
  }

  lemma AcceptsAgree(ops: seq<Op>, s: Store)
    requires PlainGroups(ops)
    ensures AllAccept(Merge(ops), s) <==> AllAccept(ops, s)
  {
    if AllAccept(Merge(ops), s) {
      forall j | 0 <= j < |ops| ensures Accepts(ops[j], s) {
        PlainPlaces(ops, j);
        StandsAccepts(Merge(ops)[Place(ops, j)], ops[j], s);
      }
    }
    if AllAccept(ops, s) {
      forall i | 0 <= i < |Merge(ops)| ensures Accepts(Merge(ops)[i], s) {
        LoneOrPlain(ops, i);
        StandsAccepts(Merge(ops)[i], ops[Origin(ops, i)], s);
      }
    }
  }

  /** The merged list does to every store what the original means, refusals included. */
  lemma MergePreservesMeaning(ops: seq<Op>, s: Store)
    requires PlainGroups(ops)
    ensures Transact(Merge(ops), s) == Meaning(ops, s)
  {
    AcceptsAgree(ops, s);
    if Compatible(ops) {
      CompatibleOne(ops);
      EffectsAgree(ops, s);
    } else if OneOpPerItem(Merge(ops)) {
      OneCompatible(ops);
    }
  }

  // ---- where the fold changes what was meant ----

  ghost predicate FoldsRight(a: Op, b: Op)
    requires a.Update? && b.Update?
  {
    forall r: Option<Row> :: RowAfter(FoldIn(a, b), r) == RowAfter(b, RowAfter(a, r))
  }

  /** The group is told by the expression's text, not by what its aliases name: one term folds right iff both names agree. */
  lemma NamesFoldIff(a: Op, b: Op, t: Term)
    requires SameKey(a, b) && a.expr.sets == [] && a.expr.adds == [t]
    ensures FoldsRight(a, b) <==> Resolve(a.names, t.attr) == Resolve(b.names, t.attr)
  {
    var none: Option<Row> := None;
    var x, y := Resolve(a.names, t.attr), Resolve(b.names, t.attr);
    if x == y {
      forall r ensures RowAfter(FoldIn(a, b), r) == RowAfter(b, RowAfter(a, r)) {
        OneTerm(b, t);
        var c := b.(names := a.names);
        OneTerm(c, t);
        SameUpdate(b, c, Some(Updated(a, r)));
        FoldedRow(a, c, r);
      }
    } else {
      OneTerm(a, t);
      OneTerm(b, t);
      OneTerm(FoldIn(a, b), t);
      assert y in Updated(b, Some(Updated(a, none))) && y !in Updated(FoldIn(a, b), none);
      assert RowAfter(FoldIn(a, b), none) != RowAfter(b, RowAfter(a, none));
    }
  }

  lemma OneTerm(op: Op, t: Term)
    requires op.Update? && op.expr.adds == [t]
    ensures Touched(op.expr.adds, op.names) == {Resolve(op.names, t.attr)}
    ensures forall x :: Added(op.expr.adds, op.names, op.values, x) == if Resolve(op.names, t.attr) == x then NumberOf(Lookup(op.values, t.value)) else 0
  {
    assert [t][..0] == [];
    assert op.expr.adds[0] == t;
  }

  lemma SameUpdate(b: Op, c: Op, r: Option<Row>)
    requires b.Update? && c.Update? && b.expr == c.expr && b.expr.sets == []
    requires Touched(b.expr.adds, b.names) == Touched(c.expr.adds, c.names)
    requires forall x :: Added(b.expr.adds, b.names, b.values, x) == Added(c.expr.adds, c.names, c.values, x)
    ensures Updated(b, r) == Updated(c, r)
  {
    forall x ensures (x in Updated(b, r) <==> x in Updated(c, r)) && (x in Updated(b, r) ==> Updated(b, r)[x] == Updated(c, r)[x]) {
      AddsAt(b, r, x);
      AddsAt(c, r, x);
    }
  }

  /** An expression may go on with SET after its ADD: its value is summed too, right iff the first one's was zero. */
  lemma SetFoldIff(a: Op, b: Op, t: Term)
    requires SameKey(a, b) && a.names == b.names && a.expr.sets == [t] && t.value in a.values && t.value in b.values
    ensures FoldsRight(a, b) <==> a.values[t.value].n == 0
  {
    var none: Option<Row> := None;
    var f, y := FoldIn(a, b), Resolve(a.names, t.attr);
    SetsAt(f, t, none);
    SetsAt(b, t, Some(Updated(a, none)));
    if a.values[t.value].n == 0 {
      forall r ensures RowAfter(f, r) == RowAfter(b, RowAfter(a, r)) {
        SetRow(a, b, t, r);
      }
    } else {
      assert RowAfter(f, none) != RowAfter(b, RowAfter(a, none)) by {
        assert Updated(f, none)[y] != Updated(b, Some(Updated(a, none)))[y];
      }
    }
  }

  /** One SET overrides; everything else is as if it only added. */
  lemma SetsAt(op: Op, t: Term, r: Option<Row>)
    requires op.Update? && op.expr.sets == [t] && t.value in op.values
    ensures var y, adds := Resolve(op.names, t.attr), op.(expr := op.expr.(sets := []));
            y in Updated(op, r) && Updated(op, r) == Updated(adds, r)[y := op.values[t.value]]
  {
    var y, adds := Resolve(op.names, t.attr), op.(expr := op.expr.(sets := []));
    assert [t][..0] == [] && op.expr.sets[0] == t;
    assert Touched(op.expr.sets, op.names) == {y};
    forall x ensures SetTo(op.expr.sets, op.names, op.values, x) == if x == y then Some(op.values[t.value]) else None {
    }
    var one, two := Updated(op, r), Updated(adds, r)[y := op.values[t.value]];
    forall x ensures (x in one <==> x in two) && (x in one ==> one[x] == two[x]) {
    }
  }

  lemma SetRow(a: Op, b: Op, t: Term, r: Option<Row>)
    requires SameKey(a, b) && a.names == b.names && a.expr.sets == [t] && t.value in a.values && t.value in b.values
    requires a.values[t.value].n == 0
    ensures Updated(FoldIn(a, b), r) == Updated(b, Some(Updated(a, r)))
  {
    var f, y, only := FoldIn(a, b), Resolve(a.names, t.attr), a.expr.(sets := []);
    var a', b' := a.(expr := only), b.(expr := only);
    SetsAt(f, t, r);
    SetsAt(a, t, r);
    SetsAt(b, t, Some(Updated(a, r)));
    FoldedRow(a', b', r);
    assert f.values[t.value] == b.values[t.value];
    assert FoldIn(a', b') == f.(expr := only);
    var one, two := Updated(f.(expr := only), r), Updated(b', Some(Updated(a, r)));
    assert Updated(a, r) == Updated(a', r)[y := a.values[t.value]];
    assert one == Updated(b', Some(Updated(a', r)));
    assert one[y := b.values[t.value]] == two[y := b.values[t.value]] by {
      SetElsewhere(b', Updated(a', r), y, a.values[t.value], b.values[t.value]);
    }
  }

  /** What an attribute held before does not matter to a SET of it, nor to the rest of the row. */
  lemma SetElsewhere(b: Op, row: Row, y: string, v: Value, w: Value)
    requires b.Update? && b.expr.sets == []
    ensures Updated(b, Some(row))[y := w] == Updated(b, Some(row[y := v]))[y := w]
  {
    var one, two := Updated(b, Some(row))[y := w], Updated(b, Some(row[y := v]))[y := w];
    forall x ensures Lookup(one, x) == Lookup(two, x) {
      if x != y {
        AddsAt(b, Some(row), x);
        AddsAt(b, Some(row[y := v]), x);
      }
    }
    SameMap(one, two);
  }

  /** A condition that compares with a value is compared with the sum: right iff both values are zero. */
  lemma ConditionFoldIff(a: Op, b: Op)
    requires SameKey(a, b) && a.names == b.names && a.cond.Equals? && a.cond.value in a.values && a.cond.value in b.values
    ensures (forall r :: Holds(FoldIn(a, b), r) <==> Holds(a, r) && Holds(b, r)) <==>
            a.values[a.cond.value].n == 0 && b.values[a.cond.value].n == 0
  {
    var x, y, attr := a.values[a.cond.value].n, b.values[a.cond.value].n, Resolve(a.names, a.cond.attr);
    var sum: Option<Row> := Some(map[attr := Num(x + y)]);
    assert Holds(FoldIn(a, b), sum);
    if x == 0 && y == 0 {
      assert FoldIn(a, b).values[a.cond.value] == Num(0);
    }
  }

  // ---- as performed ----

  /** An update in the list handed over: its values are a map others may hold too. */
  class UpdateItem {
    const item: Item
    const expr: Expr
    const cond: Cond
    const names: map<string, string>
    var values: map<string, Value>

    constructor (item: Item, expr: Expr, cond: Cond, names: map<string, string>, values: map<string, Value>)
      ensures Now() == Update(item, expr, cond, names, values)
    {
      this.item, this.expr, this.cond, this.names, this.values := item, expr, cond, names, values;
    }

    function Now(): Op
      reads this
    {
      Update(item, expr, cond, names, values)
    }

    /** Adds another update's values to this one's, name by name. */
    method AddValues(more: map<string, Value>)
      modifies this
      ensures Now() == FoldIn(old(Now()), old(Now()).(values := more))
    {
      values := AddEach(values, more);
    }
  }

  method AddEach(values: map<string, Value>, more: map<string, Value>) returns (sum: map<string, Value>)
    ensures sum == SumOf(values, more)
  {
    sum := values;
    var rest := more.Keys;
    ghost var added: map<string, Value> := map[];
    SumOfNone(values);
    while rest != {}
      invariant rest <= more.Keys && added == more - rest && sum == SumOf(values, added)
      decreases rest
    {
      var n :| n in rest;
      SumOfOne(values, added, n, more[n]);
      sum := sum[n := Num(NumberOf(Lookup(sum, n)) + NumberOf(Some(more[n])))];
      rest := rest - {n};
      added := added[n := more[n]];
    }
    assert added == more;
  }

  lemma SumOfNone(values: map<string, Value>)
    ensures SumOf(values, map[]) == values
  {
  }

  lemma SumOfOne(values: map<string, Value>, added: map<string, Value>, n: string, v: Value)
    requires n !in added
    ensures var sum := SumOf(values, added);
            SumOf(values, added[n := v]) == sum[n := Num(NumberOf(Lookup(sum, n)) + NumberOf(Some(v)))]
  {
  }

  /** An entry of the list: an update, or any other write. */
  datatype Entry = Up(u: UpdateItem) | Rest(op: Op)

  ghost function Held(entries: seq<Entry>): set<UpdateItem> {
    set i | 0 <= i < |entries| && entries[i].Up? :: entries[i].u
  }

  function OpOf(e: Entry): Op
    reads if e.Up? then {e.u} else {}
  {
    if e.Up? then e.u.Now() else e.op
  }

  ghost function Ops(entries: seq<Entry>): seq<Op>
    reads Held(entries)
  {
    seq(|entries|, i requires 0 <= i < |entries| reads Held(entries) => OpOf(entries[i]))
  }

  /** The place of a group, as the index map keeps it. */
  datatype GroupKey = GroupKey(item: Item, expr: Expr, cond: Cond)

  function KeyOf(op: Op): GroupKey
    requires op.Update?
  {
    GroupKey(op.item, op.expr, op.cond)
  }

  /** How a group is written as the index map's key: its texts one after the other, with NUL bytes between. */
  function Joined(parts: seq<string>): string
    requires |parts| > 0
  {
    if |parts| == 1 then parts[0] else parts[0] + NUL + Joined(parts[1..])
  }

  const NUL: string := ['\0']

  predicate NoNul(s: string) { forall i :: 0 <= i < |s| ==> s[i] != '\0' }

  /** Where the first NUL byte is. */
  function FirstNul(s: string): nat { if s == [] || s[0] == '\0' then 0 else 1 + FirstNul(s[1..]) }

  lemma {:induction false} FirstNulAt(x: string, s: string)
    requires NoNul(x)
    ensures FirstNul(x + NUL + s) == |x|
  {
    if x != [] {
      FirstNulAt(x[1..], s);
      assert (x + NUL + s)[1..] == x[1..] + NUL + s;
    }
  }

  lemma HeadTold(x: string, y: string, s: string, t: string)
    requires NoNul(x) && NoNul(y) && x + NUL + s == y + NUL + t
    ensures x == y && s == t
  {
    var a, b := x + NUL + s, y + NUL + t;
    FirstNulAt(x, s);
    FirstNulAt(y, t);
    assert a[..|x|] == x && b[..|y|] == y && a[|x| + 1..] == s && b[|y| + 1..] == t;
  }

  /** Texts free of NUL bytes are told apart by their joined key: two groups share a key if and only if they share every text. */
  lemma {:induction false} JoinedTellsApart(a: seq<string>, b: seq<string>)
    requires |a| == |b| > 0 && (forall i :: 0 <= i < |a| ==> NoNul(a[i])) && (forall i :: 0 <= i < |b| ==> NoNul(b[i]))
    ensures Joined(a) == Joined(b) <==> a == b
  {
    if Joined(a) == Joined(b) {
      if |a| > 1 {
        HeadTold(a[0], b[0], Joined(a[1..]), Joined(b[1..]));
        JoinedTellsApart(a[1..], b[1..]);
        assert a == [a[0]] + a[1..] && b == [b[0]] + b[1..];
      } else {
        assert a == [a[0]] && b == [b[0]];
      }
    }
  }

  /** The index map holds exactly the places of the folded groups. */
  ghost predicate Indexed(at: map<GroupKey, nat>, out: seq<Op>) {
    && (forall k :: k in at ==> at[k] < |out| && Foldable(out[at[k]]) && KeyOf(out[at[k]]) == k)
    && (forall i :: 0 <= i < |out| && Foldable(out[i]) ==> KeyOf(out[i]) in at && at[KeyOf(out[i])] == i)
  }

  function Taken(m: seq<Op>, at: map<GroupKey, nat>, op: Op): seq<Op>
    requires forall k :: k in at ==> at[k] < |m| && m[at[k]].Update?
  {
    if Foldable(op) && KeyOf(op) in at then m[at[KeyOf(op)] := FoldIn(m[at[KeyOf(op)]], op)] else m + [op]
  }

  function Placed(m: seq<Op>, at: map<GroupKey, nat>, op: Op): map<GroupKey, nat> {
    if Foldable(op) && KeyOf(op) !in at then at[KeyOf(op) := |m|] else at
  }

  lemma MergeSnoc(ops: seq<Op>, k: nat, at: map<GroupKey, nat>)
    requires k < |ops| && Indexed(at, Merge(ops[..k]))
    ensures var m, op := Merge(ops[..k]), ops[k];
            Merge(ops[..k + 1]) == Taken(m, at, op) && Indexed(Placed(m, at, op), Taken(m, at, op))
  {
    var m, op := Merge(ops[..k]), ops[k];
    assert ops[..k + 1][..k] == ops[..k];
    assert Find(m, op) == if Foldable(op) && KeyOf(op) in at then at[KeyOf(op)] else |m|;
  }

  /** What is folded is in objects of our own, each in one place; any other update is one handed over. */
  ghost predicate Owned(out: seq<Entry>, ours: set<UpdateItem>, theirs: set<UpdateItem>)
    reads Held(out)
  {
    && (forall i :: 0 <= i < |out| && out[i].Up? ==> out[i].u in (if Foldable(OpOf(out[i])) then ours else theirs))
    && (forall i, j :: 0 <= i < j < |out| && out[i].Up? && out[j].Up? && out[i].u in ours ==> out[i].u != out[j].u)
    && (forall i :: 0 <= i < |out| && out[i].Rest? ==> !out[i].op.Update?)
  }

  method FoldEntry(out: seq<Entry>, i: nat, more: UpdateItem, ghost ours: set<UpdateItem>, ghost theirs: set<UpdateItem>)
    requires Owned(out, ours, theirs) && ours !! theirs && i < |out| && out[i].Up? && out[i].u in ours && more in theirs
    requires SameKey(OpOf(out[i]), more.Now())
    modifies out[i].u
    ensures Ops(out) == old(Ops(out)[i := FoldIn(OpOf(out[i]), more.Now())])
    ensures Owned(out, ours, theirs)
  {
    ghost var was := Ops(out);
    out[i].u.AddValues(more.values);
    assert forall j :: 0 <= j < |out| && j != i ==> OpOf(out[j]) == was[j];
  }

  method TakeEntry(e: Entry, out: seq<Entry>, at: map<GroupKey, nat>, ghost ours: set<UpdateItem>, ghost theirs: set<UpdateItem>)
    returns (taken: seq<Entry>, placed: map<GroupKey, nat>, ghost made: set<UpdateItem>)
    requires Owned(out, ours, theirs) && ours !! theirs && Indexed(at, Ops(out))
    requires if e.Up? then e.u in theirs else !e.op.Update?
    modifies ours
    ensures Ops(taken) == old(Taken(Ops(out), at, OpOf(e))) && placed == old(Placed(Ops(out), at, OpOf(e)))
    ensures Owned(taken, ours + made, theirs) && fresh(made)
  {
    taken, placed, made := out, at, {};
    if e.Rest? || !e.u.expr.addFirst || !AllNumbers(e.u.values) {
      taken := out + [e];
    } else {
      var key := GroupKey(e.u.item, e.u.expr, e.u.cond);
      if key !in at {
        var copied := new UpdateItem(e.u.item, e.u.expr, e.u.cond, e.u.names, e.u.values);
        placed := at[key := |out|];
        taken, made := out + [Up(copied)], {copied};
      } else {
        assert Ops(out)[at[key]] == OpOf(out[at[key]]);
        FoldEntry(out, at[key], e.u, ours, theirs);
      }
    }
  }

  /** The list merged, in new objects wherever something is folded: what was handed over is not changed. */
  method MergeAdds(entries: seq<Entry>) returns (out: seq<Entry>)
    requires forall i :: 0 <= i < |entries| && entries[i].Rest? ==> !entries[i].op.Update?
    ensures Ops(out) == Merge(Ops(entries))
    ensures forall i :: 0 <= i < |out| && out[i].Up? && Foldable(OpOf(out[i])) ==> fresh(out[i].u)
  {
    out := [];
    var at: map<GroupKey, nat> := map[];
    ghost var ops, theirs := Ops(entries), Held(entries);
    ghost var ours: set<UpdateItem> := {};
    for k := 0 to |entries|
      invariant Ops(entries) == ops && fresh(ours)
      invariant Ops(out) == Merge(ops[..k]) && Indexed(at, Ops(out)) && Owned(out, ours, theirs)
    {
      MergeSnoc(ops, k, at);
      assert OpOf(entries[k]) == ops[k];
      ghost var made;
      out, at, made := TakeEntry(entries[k], out, at, ours, theirs);
      ours := ours + made;
    }
    assert ops[..|ops|] == ops;
  }
}
