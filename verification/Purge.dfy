/**
 Deleting a finance space (repositories/finance_purge.go). Rows live in partitions of several tables; the entries of an
 account, a card, an import and a bank hook have partitions of their own, named only by rows of the space's partition. A run
 may be cut after any single deletion; another run must still find everything.
 */
module Purge {
  import opened Installments

  type SpaceId = string

  datatype Table = Accounts | Transactions | Bills | Recurrences | Cards | Imports | Byok | IdempotencyKeys | Audit

  datatype Partition =
    | OfSpace(space: SpaceId)
    | OfAccount(space: SpaceId, id: string)
    | OfCard(space: SpaceId, id: string)
    | OfImport(space: SpaceId, id: string)
    | OfHook(hook: string, payout: bool)

  /** What a row says that matters here: the ids its key or its attributes carry. */
  datatype Content = Account(id: string) | Header(legs: set<string>) | Card(id: string) | Import(id: string) | Connection(hook: string) | Plain

  /** sk is the row's place in its partition's key order. */
  datatype Row = Row(table: Table, part: Partition, sk: nat, content: Content)

  const PAGE := 1000

  const ATTEMPTS := 8

  /** The tables that key by the space, in the order they are cleared. */
  const SpaceTables: seq<Table> := [Accounts, Transactions, Bills, Recurrences, Cards, Imports, Byok, IdempotencyKeys, Audit]

  // ---- which rows name which partitions ----

  function TableOf(p: Partition): Table
    requires !p.OfSpace?
  {
    match p
    case OfAccount(_, _) => Transactions
    case OfCard(_, _) => Cards
    case OfImport(_, _) => Imports
    case OfHook(_, _) => Byok
  }

  /** The row, in the partition of space s, names p. */
  predicate NamesIt(r: Row, s: SpaceId, p: Partition) {
    && r.part == OfSpace(s)
    && match p
       case OfAccount(o, id) => o == s && ((r.table == Accounts && r.content == Account(id)) || (r.table == Transactions && r.content.Header? && id in r.content.legs))
       case OfCard(o, id) => o == s && r.table == Cards && r.content == Card(id)
       case OfImport(o, id) => o == s && r.table == Imports && r.content == Import(id)
       case OfHook(h, _) => r.table == Byok && r.content == Connection(h) && h != ""
       case OfSpace(_) => false
  }

  function NamedBy(r: Row, s: SpaceId): (parts: set<Partition>)
    ensures forall p :: p in parts <==> NamesIt(r, s, p)
  {
    if r.part != OfSpace(s) then {}
    else
      match r.content
      case Account(id) => if r.table == Accounts then {OfAccount(s, id)} else {}
      case Header(legs) => if r.table == Transactions then set id | id in legs :: OfAccount(s, id) else {}
      case Card(id) => if r.table == Cards then {OfCard(s, id)} else {}
      case Import(id) => if r.table == Imports then {OfImport(s, id)} else {}
      case Connection(h) => if r.table == Byok && h != "" then {OfHook(h, false), OfHook(h, true)} else {}
      case Plain => {}
  }

  datatype Kind = Entries | CardRows | ImportLines | Hooks

  /** The order in which child partitions are cleared. */
  const Kinds: seq<Kind> := [Entries, CardRows, ImportLines, Hooks]

  function KindOf(p: Partition): Option<Kind> {
    match p
    case OfAccount(_, _) => Some(Entries)
    case OfCard(_, _) => Some(CardRows)
    case OfImport(_, _) => Some(ImportLines)
    case OfHook(_, _) => Some(Hooks)
    case OfSpace(_) => None
  }

  ghost predicate NoneOf(rows: set<Row>, s: SpaceId, owner: map<string, SpaceId>, k: Kind) {
    forall r :: r in rows && Child(r, s, owner) ==> KindOf(r.part) != Some(k)
  }

  /** Whose partition it is; a hook belongs to the space whose connection made it. */
  predicate Owns(s: SpaceId, p: Partition, owner: map<string, SpaceId>) {
    match p
    case OfHook(h, _) => h in owner && owner[h] == s
    case _ => p.space == s
  }

  ghost predicate Belongs(r: Row, s: SpaceId, owner: map<string, SpaceId>) { Owns(s, r.part, owner) }

  /** Child partitions sit in their own table, and a connection names hooks of its own space. */
  ghost predicate WellPlaced(rows: set<Row>, owner: map<string, SpaceId>) {
    && (forall r :: r in rows && !r.part.OfSpace? ==> r.table == TableOf(r.part))
    && forall r, h :: r in rows && r.part.OfSpace? && r.content == Connection(h) && r.table == Byok && h != "" ==> h in owner && owner[h] == r.part.space
  }

  predicate Child(r: Row, s: SpaceId, owner: map<string, SpaceId>) { !r.part.OfSpace? && Owns(s, r.part, owner) }

  /** Every child partition of the space that still has rows is named by a row that is still there. */
  ghost predicate Named(rows: set<Row>, s: SpaceId, owner: map<string, SpaceId>) {
    forall r :: r in rows && Child(r, s, owner) ==> IsNamed(rows, s, r.part)
  }

  ghost predicate IsNamed(rows: set<Row>, s: SpaceId, p: Partition) { exists n :: n in rows && NamesIt(n, s, p) }

  ghost predicate NoChildren(rows: set<Row>, s: SpaceId, owner: map<string, SpaceId>) { forall r :: r in rows ==> !Child(r, s, owner) }

  predicate In(r: Row, t: Table, p: Partition) { r.table == t && r.part == p }

  /** Only rows of one partition went. */
  ghost predicate Only(was: set<Row>, now: set<Row>, t: Table, p: Partition) {
    now <= was && forall r :: r in was && !In(r, t, p) ==> r in now
  }

  ghost predicate Empty(rows: set<Row>, t: Table, p: Partition) { forall r :: r in rows ==> !In(r, t, p) }

  /** Only rows of the space went. */
  ghost predicate Spared(was: set<Row>, now: set<Row>, s: SpaceId, owner: map<string, SpaceId>) {
    now <= was && forall r :: r in was && !Belongs(r, s, owner) ==> r in now
  }

  /** Only child rows of the space went. */
  ghost predicate ChildrenOnly(was: set<Row>, now: set<Row>, s: SpaceId, owner: map<string, SpaceId>) {
    now <= was && forall r :: r in was && !Child(r, s, owner) ==> r in now
  }

  lemma ChildrenKeepNamed(was: set<Row>, now: set<Row>, s: SpaceId, owner: map<string, SpaceId>)
    requires Named(was, s, owner) && ChildrenOnly(was, now, s, owner)
    ensures Named(now, s, owner)
  {
    forall r | r in now && Child(r, s, owner) ensures IsNamed(now, s, r.part) {
      var n :| n in was && NamesIt(n, s, r.part);
      assert n in now;
    }
  }

  // ---- the store ----

  class Store {
    var rows: set<Row>

    constructor (rows: set<Row>)
      ensures this.rows == rows
    {
      this.rows := rows;
    }

    /** One batch of keys, its unprocessed part tried again a few times; unless calm, the run may be cut anywhere. */
    method DeleteKeys(keys: set<Row>, calm: bool) returns (ok: bool)
      modifies this
      ensures rows <= old(rows) && forall r :: r in old(rows) && r !in keys ==> r in rows
      ensures ok ==> rows == old(rows) - keys
      ensures calm ==> ok
    {
      var pending := keys;
      var attempt := 0;
      while pending != {}
        invariant rows <= old(rows) && (forall r :: r in old(rows) && r !in keys ==> r in rows)
        invariant pending <= keys && rows !! (keys - pending)
        invariant attempt <= ATTEMPTS && (calm ==> attempt == 0 || pending == {})
        decreases ATTEMPTS - attempt
      {
        var cut: bool := *;
        if attempt == ATTEMPTS || (cut && !calm) {
          return false;
        }
        var processed: set<Row> := *;
        if calm {
          processed := pending;
        }
        rows := rows - (processed * pending);
        pending := pending - processed;
        attempt := attempt + 1;
      }
      return true;
    }

    /** A page of the partition's keys after start, and whether there may be more. */
    method QueryPage(t: Table, p: Partition, start: int) returns (page: set<Row>, more: bool, last: int)
      ensures page <= rows && (forall r :: r in page ==> In(r, t, p) && start < r.sk <= last) && last >= start
      ensures more ==> page != {} && forall r :: r in rows && In(r, t, p) && start < r.sk && r !in page ==> last < r.sk
      ensures !more ==> forall r :: r in rows && In(r, t, p) && start < r.sk ==> r in page
    {
      var all := set r | r in rows && In(r, t, p) && start < r.sk;
      page, last := {}, start;
      var rest, n := all, 0;
      while rest != {} && n < PAGE
        invariant page + rest == all && start <= last && (n > 0 ==> page != {})
        invariant (forall r :: r in page ==> r.sk <= last) && (forall r :: r in rest ==> last < r.sk)
        decreases rest
      {
        var r := First(rest);
        var same := set x | x in rest && x.sk == r.sk;
        page, last := page + same, r.sk;
        rest, n := rest - same, n + 1;
      }
      more := rest != {};
    }

    static method First(rest: set<Row>) returns (r: Row)
      requires rest != {}
      ensures r in rest && forall x :: x in rest ==> r.sk <= x.sk
    {
      r :| r in rest;
      var left := rest - {r};
      while left != {}
        invariant left <= rest && r in rest && forall x :: x in rest && x !in left ==> r.sk <= x.sk
        decreases left
      {
        var x :| x in left;
        left := left - {x};
        if x.sk < r.sk {
          r := x;
        }
      }
    }

    /** Every row of the partition, page by page; what is deleted behind the continuation key does not move it. */
    method DeletePartition(t: Table, p: Partition, calm: bool) returns (ok: bool)
      modifies this
      ensures Only(old(rows), rows, t, p)
      ensures ok ==> Empty(rows, t, p)
      ensures calm ==> ok
    {
      var start := -1;
      while true
        invariant Only(old(rows), rows, t, p)
        invariant forall r :: r in rows && In(r, t, p) ==> start < r.sk
        decreases rows
      {
        var page, more, last := QueryPage(t, p, start);
        var done := DeleteKeys(page, calm);
        if !done {
          return false;
        }
        if !more {
          return true;
        }
        start := last;
      }
    }

    // ---- purging a space ----

    /** The partitions the given names stand for, one after the other. */
    method DeleteChildren(parts: set<Partition>, s: SpaceId, calm: bool, ghost owner: map<string, SpaceId>) returns (ok: bool)
      requires forall p :: p in parts ==> !p.OfSpace? && Owns(s, p, owner)
      modifies this
      ensures ChildrenOnly(old(rows), rows, s, owner)
      ensures ok ==> forall p :: p in parts ==> Empty(rows, TableOf(p), p)
      ensures calm ==> ok
    {
      var rest := parts;
      while rest != {}
        invariant rest <= parts && ChildrenOnly(old(rows), rows, s, owner)
        invariant forall p :: p in parts && p !in rest ==> Empty(rows, TableOf(p), p)
        decreases rest
      {
        var p :| p in rest;
        ok := DeletePartition(TableOf(p), p, calm);
        if !ok {
          return;
        }
        rest := rest - {p};
      }
      return true;
    }

    /** The partitions of one kind that the rows of the space's partition name. */
    method Children(s: SpaceId, k: Kind) returns (parts: set<Partition>)
      ensures forall p :: p in parts <==> IsNamed(rows, s, p) && KindOf(p) == Some(k)
    {
      parts := {};
      var rest := set r | r in rows && r.part == OfSpace(s);
      ghost var all := rest;
      while rest != {}
        invariant rest <= all && all == set r | r in rows && r.part == OfSpace(s)
        invariant forall p :: p in parts <==> KindOf(p) == Some(k) && exists n :: n in all && n !in rest && NamesIt(n, s, p)
        decreases rest
      {
        var r :| r in rest;
        rest := rest - {r};
        parts := parts + set p | p in NamedBy(r, s) && KindOf(p) == Some(k);
      }
    }

    /** One kind of child partition: all its rows, found by name. */
    method PurgeKind(s: SpaceId, k: Kind, calm: bool, ghost owner: map<string, SpaceId>) returns (ok: bool)
      requires WellPlaced(rows, owner) && Named(rows, s, owner)
      modifies this
      ensures ChildrenOnly(old(rows), rows, s, owner)
      ensures ok ==> NoneOf(rows, s, owner, k)
      ensures calm ==> ok
    {
      var parts := Children(s, k);
      ok := DeleteChildren(parts, s, calm, owner);
      if ok {
        AllNamedGone(old(rows), rows, parts, s, owner, k);
      }
    }

    /** The children first, then the space's own partition in every table. A run that nothing cuts completes. */
    method PurgeSpace(s: SpaceId, calm: bool, ghost owner: map<string, SpaceId>) returns (ok: bool)
      requires WellPlaced(rows, owner) && Named(rows, s, owner)
      modifies this
      ensures WellPlaced(rows, owner) && Named(rows, s, owner)
      ensures Spared(old(rows), rows, s, owner)
      ensures ok ==> forall r :: r in rows ==> !Belongs(r, s, owner)
      ensures calm ==> ok
    {
      for i := 0 to |Kinds|
        invariant ChildrenOnly(old(rows), rows, s, owner) && Named(rows, s, owner)
        invariant forall j :: 0 <= j < i ==> NoneOf(rows, s, owner, Kinds[j])
      {
        ghost var was := rows;
        ok := PurgeKind(s, Kinds[i], calm, owner);
        ChildrenKeepNamed(was, rows, s, owner);
        if !ok {
          return;
        }
      }
      NoKindNoChild(rows, s, owner);
      ok := PurgeTables(s, calm, owner);
    }

    method PurgeTables(s: SpaceId, calm: bool, ghost owner: map<string, SpaceId>) returns (ok: bool)
      requires NoChildren(rows, s, owner)
      modifies this
      ensures NoChildren(rows, s, owner) && Spared(old(rows), rows, s, owner)
      ensures ok ==> forall r :: r in rows ==> !Belongs(r, s, owner)
      ensures calm ==> ok
    {
      for i := 0 to |SpaceTables|
        invariant NoChildren(rows, s, owner) && Spared(old(rows), rows, s, owner)
        invariant forall j :: 0 <= j < i ==> Empty(rows, SpaceTables[j], OfSpace(s))
      {
        ok := DeletePartition(SpaceTables[i], OfSpace(s), calm);
        if !ok {
          return;
        }
      }
      EveryTableCleared(rows, s, owner);
      return true;
    }

    /** Any number of runs, each cut anywhere, and one that completes, as a calm one does: nothing of the space is left, nothing else is touched. */
    method PurgeAtLast(s: SpaceId, cuts: nat, calm: bool, ghost owner: map<string, SpaceId>) returns (ok: bool)
      requires WellPlaced(rows, owner) && Named(rows, s, owner)
      modifies this
      ensures Spared(old(rows), rows, s, owner)
      ensures ok ==> rows == set r | r in old(rows) && !Belongs(r, s, owner)
      ensures calm ==> ok
    {
      for i := 0 to cuts
        invariant WellPlaced(rows, owner) && Named(rows, s, owner) && Spared(old(rows), rows, s, owner)
      {
        var _ := PurgeSpace(s, false, owner);
      }
      ok := PurgeSpace(s, calm, owner);
    }
  }

  lemma AllNamedGone(was: set<Row>, now: set<Row>, parts: set<Partition>, s: SpaceId, owner: map<string, SpaceId>, k: Kind)
    requires WellPlaced(was, owner) && Named(was, s, owner) && ChildrenOnly(was, now, s, owner)
    requires forall p :: p in parts <==> IsNamed(was, s, p) && KindOf(p) == Some(k)
    requires forall p :: p in parts && !p.OfSpace? ==> Empty(now, TableOf(p), p)
    ensures NoneOf(now, s, owner, k)
  {
    forall r | r in now && Child(r, s, owner) ensures KindOf(r.part) != Some(k) {
      if KindOf(r.part) == Some(k) {
        assert r in was && IsNamed(was, s, r.part);
        assert r.part in parts && In(r, TableOf(r.part), r.part);
      }
    }
  }

  lemma NoKindNoChild(rows: set<Row>, s: SpaceId, owner: map<string, SpaceId>)
    requires forall j :: 0 <= j < |Kinds| ==> NoneOf(rows, s, owner, Kinds[j])
    ensures NoChildren(rows, s, owner)
  {
    assert Kinds[0] == Entries && Kinds[1] == CardRows && Kinds[2] == ImportLines && Kinds[3] == Hooks;
  }

  lemma EveryTableCleared(rows: set<Row>, s: SpaceId, owner: map<string, SpaceId>)
    requires NoChildren(rows, s, owner) && forall j :: 0 <= j < |SpaceTables| ==> Empty(rows, SpaceTables[j], OfSpace(s))
    ensures forall r :: r in rows ==> !Belongs(r, s, owner)
  {
    forall r | r in rows ensures !Belongs(r, s, owner) {
      var j := Listed(r.table);
      assert Empty(rows, SpaceTables[j], OfSpace(s)) && !Child(r, s, owner);
    }
  }

  lemma Listed(t: Table) returns (j: nat)
    ensures j < |SpaceTables| && SpaceTables[j] == t
  {
    match t
    case Accounts => j := 0;
    case Transactions => j := 1;
    case Bills => j := 2;
    case Recurrences => j := 3;
    case Cards => j := 4;
    case Imports => j := 5;
    case Byok => j := 6;
    case IdempotencyKeys => j := 7;
    case Audit => j := 8;
  }
}
