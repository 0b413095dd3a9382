/** The live connections of one instance, registered under their scopes and capped per principal and per address (realtime/hub.go). */
module Hub {
  import opened Installments

  type Id = string

  type Scope = string

  /** What the caps count a connection under; an empty address is not counted. */
  datatype Member = Member(principal: string, ip: string)

  // ---- counting connections by a label ----

  type Labels = map<Id, string>

  function Holders(labels: Labels, k: string): set<Id> { set c | c in labels && labels[c] == k }

  function Count(tally: map<string, int>, k: string): int { if k in tally then tally[k] else 0 }

  /** A counter per label that some connection has. */
  ghost function TallyOf(labels: Labels): map<string, int> { map k | k in labels.Values :: |Holders(labels, k)| }

  ghost predicate Counts(tally: map<string, int>, labels: Labels) { tally == TallyOf(labels) }

  lemma TallyCounts(labels: Labels, k: string)
    ensures Count(TallyOf(labels), k) == |Holders(labels, k)| && (k in TallyOf(labels) <==> |Holders(labels, k)| > 0)
  {
    if k in labels.Values {
      var c :| c in labels && labels[c] == k;
      assert c in Holders(labels, k);
    } else {
      assert Holders(labels, k) == {};
    }
  }

  function Up(tally: map<string, int>, k: string): map<string, int> { tally[k := Count(tally, k) + 1] }

  function Down(tally: map<string, int>, k: string): map<string, int> {
    if Count(tally, k) - 1 <= 0 then tally - {k} else tally[k := Count(tally, k) - 1]
  }

  lemma Joined(labels: Labels, c: Id, k: string, x: string)
    requires c !in labels
    ensures |Holders(labels[c := k], x)| == |Holders(labels, x)| + (if x == k then 1 else 0)
  {
    assert Holders(labels[c := k], x) == Holders(labels, x) + (if x == k then {c} else {});
  }

  lemma Left(labels: Labels, c: Id, x: string)
    requires c in labels
    ensures |Holders(labels - {c}, x)| == |Holders(labels, x)| - (if x == labels[c] then 1 else 0)
  {
    assert Holders(labels - {c}, x) == Holders(labels, x) - (if x == labels[c] then {c} else {});
  }

  lemma SameTally(tally: map<string, int>, labels: Labels)
    requires forall k :: Count(tally, k) == |Holders(labels, k)| && (k in tally ==> tally[k] > 0)
    ensures Counts(tally, labels)
  {
    forall k ensures (k in tally <==> k in TallyOf(labels)) && Count(tally, k) == Count(TallyOf(labels), k) {
      TallyCounts(labels, k);
    }
    assert forall k :: k in tally ==> tally[k] == Count(tally, k) == Count(TallyOf(labels), k) == TallyOf(labels)[k];
  }

  lemma CountUp(tally: map<string, int>, labels: Labels, c: Id, k: string)
    requires c !in labels && Counts(tally, labels)
    ensures Counts(Up(tally, k), labels[c := k])
  {
    forall x ensures Count(Up(tally, k), x) == |Holders(labels[c := k], x)| && (x in Up(tally, k) ==> Up(tally, k)[x] > 0) {
      TallyCounts(labels, x);
      Joined(labels, c, k, x);
    }
    SameTally(Up(tally, k), labels[c := k]);
  }

  lemma CountDown(tally: map<string, int>, labels: Labels, c: Id)
    requires c in labels && Counts(tally, labels)
    ensures Counts(Down(tally, labels[c]), labels - {c})
  {
    var k := labels[c];
    forall x ensures Count(Down(tally, k), x) == |Holders(labels - {c}, x)| && (x in Down(tally, k) ==> Down(tally, k)[x] > 0) {
      TallyCounts(labels, x);
      Left(labels, c, x);
    }
    SameTally(Down(tally, k), labels - {c});
  }

  /** A connection that joins and leaves restores the counters exactly. */
  lemma JoinThenLeave(tally: map<string, int>, labels: Labels, c: Id, k: string)
    requires c !in labels && Counts(tally, labels)
    ensures Down(Up(tally, k), k) == tally
  {
    CountUp(tally, labels, c, k);
    CountDown(Up(tally, k), labels[c := k], c);
    assert labels[c := k] - {c} == labels;
  }

  /** No label counts more than the cap; a cap of zero or less is none. */
  ghost predicate Capped(labels: Labels, cap: int) { cap > 0 ==> forall k :: |Holders(labels, k)| <= cap }

  /** Whether one more is within the cap. */
  predicate Room(cap: int, held: int) { cap <= 0 || held < cap }

  lemma CappedUp(labels: Labels, c: Id, k: string, cap: int)
    requires Capped(labels, cap) && c !in labels && Room(cap, |Holders(labels, k)|)
    ensures Capped(labels[c := k], cap)
  {
    var now := labels[c := k];
    if cap > 0 {
      forall x ensures |Holders(now, x)| <= cap {
        Joined(labels, c, k, x);
      }
    }
  }

  lemma CappedDown(labels: Labels, c: Id, cap: int)
    requires Capped(labels, cap) && c in labels
    ensures Capped(labels - {c}, cap)
  {
    var now := labels - {c};
    if cap > 0 {
      forall x ensures |Holders(now, x)| <= cap {
        Left(labels, c, x);
      }
    }
  }

  function Principals(conns: map<Id, Member>): Labels { map c | c in conns :: conns[c].principal }

  function Addresses(conns: map<Id, Member>): Labels { map c | c in conns && conns[c].ip != "" :: conns[c].ip }

  /** Every counter is the number of connections it stands for, and no cap is passed. */
  ghost predicate Tallied(conns: map<Id, Member>, byPrincipal: map<string, int>, byIP: map<string, int>, perPrincipal: int, perIP: int) {
    && Counts(byPrincipal, Principals(conns)) && Capped(Principals(conns), perPrincipal)
    && Counts(byIP, Addresses(conns)) && Capped(Addresses(conns), perIP)
  }

  lemma PrincipalsUp(conns: map<Id, Member>, c: Id, m: Member, tally: map<string, int>, cap: int)
    requires c !in conns && Counts(tally, Principals(conns)) && Capped(Principals(conns), cap) && Room(cap, Count(tally, m.principal))
    ensures Counts(Up(tally, m.principal), Principals(conns[c := m])) && Capped(Principals(conns[c := m]), cap)
  {
    TallyCounts(Principals(conns), m.principal);
    CountUp(tally, Principals(conns), c, m.principal);
    CappedUp(Principals(conns), c, m.principal, cap);
    assert Principals(conns[c := m]) == Principals(conns)[c := m.principal];
  }

  lemma AddressesUp(conns: map<Id, Member>, c: Id, m: Member, tally: map<string, int>, cap: int)
    requires c !in conns && Counts(tally, Addresses(conns)) && Capped(Addresses(conns), cap) && (m.ip == "" || Room(cap, Count(tally, m.ip)))
    ensures Counts(if m.ip == "" then tally else Up(tally, m.ip), Addresses(conns[c := m])) && Capped(Addresses(conns[c := m]), cap)
  {
    if m.ip == "" {
      assert Addresses(conns[c := m]) == Addresses(conns);
    } else {
      TallyCounts(Addresses(conns), m.ip);
      CountUp(tally, Addresses(conns), c, m.ip);
      CappedUp(Addresses(conns), c, m.ip, cap);
      assert Addresses(conns[c := m]) == Addresses(conns)[c := m.ip];
    }
  }

  lemma TalliedUp(conns: map<Id, Member>, c: Id, m: Member, byPrincipal: map<string, int>, byIP: map<string, int>, perPrincipal: int, perIP: int)
    requires c !in conns && Tallied(conns, byPrincipal, byIP, perPrincipal, perIP)
    requires Room(perPrincipal, Count(byPrincipal, m.principal)) && (m.ip == "" || Room(perIP, Count(byIP, m.ip)))
    ensures Tallied(conns[c := m], Up(byPrincipal, m.principal), if m.ip == "" then byIP else Up(byIP, m.ip), perPrincipal, perIP)
  {
    PrincipalsUp(conns, c, m, byPrincipal, perPrincipal);
    AddressesUp(conns, c, m, byIP, perIP);
  }

  lemma TalliedDown(conns: map<Id, Member>, c: Id, m: Member, byPrincipal: map<string, int>, byIP: map<string, int>, perPrincipal: int, perIP: int)
    requires c in conns && conns[c] == m && Tallied(conns, byPrincipal, byIP, perPrincipal, perIP)
    ensures Tallied(conns - {c}, Down(byPrincipal, m.principal), if m.ip == "" then byIP else Down(byIP, m.ip), perPrincipal, perIP)
  {
    CountDown(byPrincipal, Principals(conns), c);
    CappedDown(Principals(conns), c, perPrincipal);
    assert Principals(conns - {c}) == Principals(conns) - {c};
    if m.ip == "" {
      assert Addresses(conns - {c}) == Addresses(conns);
    } else {
      CountDown(byIP, Addresses(conns), c);
      CappedDown(Addresses(conns), c, perIP);
      assert Addresses(conns - {c}) == Addresses(conns) - {c};
    }
  }

  // ---- the hub ----

  /** The registry holds, for each connection, the scopes it has come to, and for one that left only scopes it has yet to leave. */
  ghost predicate Listed(registered: set<(Scope, Id)>, scopesOf: map<Id, seq<Scope>>, done: map<Id, nat>, leaving: map<Id, seq<Scope>>) {
    && scopesOf.Keys == done.Keys && (forall c :: c in done ==> done[c] <= |scopesOf[c]|)
    && (forall s, c :: c in scopesOf ==> ((s, c) in registered <==> s in scopesOf[c][..done[c]]))
    && (forall s, c :: (s, c) in registered && c !in scopesOf ==> c in leaving && s in leaving[c])
  }

  datatype Tables = Tables(conns: map<Id, Member>, scopesOf: map<Id, seq<Scope>>, byPrincipal: map<string, int>, byIP: map<string, int>,
                           registered: set<(Scope, Id)>, done: map<Id, nat>, leaving: map<Id, seq<Scope>>)

  /** Counters exact and caps respected, whoever is halfway through joining or leaving. */
  ghost predicate Sound(h: Tables, perPrincipal: int, perIP: int) {
    && h.conns.Keys == h.scopesOf.Keys && h.conns.Keys !! h.leaving.Keys
    && Tallied(h.conns, h.byPrincipal, h.byIP, perPrincipal, perIP) && Listed(h.registered, h.scopesOf, h.done, h.leaving)
  }

  function Reserved(h: Tables, c: Id, m: Member, scopes: seq<Scope>): Tables {
    h.(conns := h.conns[c := m], scopesOf := h.scopesOf[c := scopes], done := h.done[c := 0],
       byPrincipal := Up(h.byPrincipal, m.principal), byIP := if m.ip == "" then h.byIP else Up(h.byIP, m.ip))
  }

  lemma ReservedSound(h: Tables, c: Id, m: Member, scopes: seq<Scope>, perPrincipal: int, perIP: int)
    requires Sound(h, perPrincipal, perIP) && c !in h.conns && c !in h.leaving
    requires Room(perPrincipal, Count(h.byPrincipal, m.principal)) && (m.ip == "" || Room(perIP, Count(h.byIP, m.ip)))
    ensures Sound(Reserved(h, c, m, scopes), perPrincipal, perIP)
  {
    TalliedUp(h.conns, c, m, h.byPrincipal, h.byIP, perPrincipal, perIP);
    ListedReserve(h.registered, h.scopesOf, h.done, h.leaving, c, scopes);
  }

  function Released(h: Tables, c: Id, m: Member): Tables
    requires c in h.scopesOf
  {
    h.(conns := h.conns - {c}, scopesOf := h.scopesOf - {c}, done := h.done - {c}, leaving := h.leaving[c := h.scopesOf[c]],
       byPrincipal := Down(h.byPrincipal, m.principal), byIP := if m.ip == "" then h.byIP else Down(h.byIP, m.ip))
  }

  lemma ReleasedSound(h: Tables, c: Id, m: Member, perPrincipal: int, perIP: int)
    requires Sound(h, perPrincipal, perIP) && c in h.conns && h.conns[c] == m
    ensures Sound(Released(h, c, m), perPrincipal, perIP)
  {
    TalliedDown(h.conns, c, m, h.byPrincipal, h.byIP, perPrincipal, perIP);
    ListedRelease(h.registered, h.scopesOf, h.done, h.leaving, c);
  }

  function Registered(h: Tables, c: Id): Tables
    requires c in h.scopesOf && c in h.done && h.done[c] < |h.scopesOf[c]|
  {
    h.(registered := h.registered + {(h.scopesOf[c][h.done[c]], c)}, done := h.done[c := h.done[c] + 1])
  }

  function Unregistered(h: Tables, c: Id): Tables
    requires c in h.leaving && h.leaving[c] != []
  {
    h.(registered := h.registered - {(h.leaving[c][0], c)}, leaving := h.leaving[c := h.leaving[c][1..]])
  }

  lemma RegisteredSound(h: Tables, c: Id, perPrincipal: int, perIP: int)
    requires Sound(h, perPrincipal, perIP) && c in h.scopesOf && h.done[c] < |h.scopesOf[c]|
    ensures Sound(Registered(h, c), perPrincipal, perIP)
  {
    ListedRegister(h.registered, h.scopesOf, h.done, h.leaving, c);
  }

  lemma UnregisteredSound(h: Tables, c: Id, perPrincipal: int, perIP: int)
    requires Sound(h, perPrincipal, perIP) && c in h.leaving && h.leaving[c] != []
    ensures Sound(Unregistered(h, c), perPrincipal, perIP)
  {
    ListedUnregister(h.registered, h.scopesOf, h.done, h.leaving, c);
  }

  /**
   Each method up to Unregister is one atomic action: a critical section of the lock, or one call of the registry. done counts
   the scopes a connection has registered under so far, leaving holds those a removed one has still to leave.
   */
  class Hub {
    const perPrincipal: int
    const perIP: int
    var conns: map<Id, Member>
    var scopesOf: map<Id, seq<Scope>>
    var byPrincipal: map<string, int>
    var byIP: map<string, int>
    var registered: set<(Scope, Id)>
    var done: map<Id, nat>
    var leaving: map<Id, seq<Scope>>

    ghost predicate Valid()
      reads this
    {
      Sound(Now(), perPrincipal, perIP)
    }

    function Now(): Tables
      reads this
    {
      Tables(conns, scopesOf, byPrincipal, byIP, registered, done, leaving)
    }

    constructor (perPrincipal: int, perIP: int)
      ensures Valid() && conns == map[] && leaving == map[] && this.perPrincipal == perPrincipal && this.perIP == perIP
    {
      this.perPrincipal, this.perIP := perPrincipal, perIP;
      conns, scopesOf, byPrincipal, byIP, registered, done, leaving := map[], map[], map[], map[], {}, map[], map[];
    }

    /** Counts the connection in, if and only if both caps have room; otherwise nothing changes. */
    method Reserve(c: Id, m: Member, scopes: seq<Scope>) returns (ok: bool)
      requires Valid() && c !in conns && c !in leaving
      modifies this
      ensures Valid() && Now() == (if ok then Reserved(old(Now()), c, m, scopes) else old(Now()))
      ensures ok <==> Room(perPrincipal, |Holders(Principals(old(conns)), m.principal)|)
                      && (m.ip == "" || Room(perIP, |Holders(Addresses(old(conns)), m.ip)|))
    {
      CountsHold(conns, byPrincipal, byIP, perPrincipal, perIP, m);
      if perPrincipal > 0 && Count(byPrincipal, m.principal) >= perPrincipal {
        return false;
      }
      if perIP > 0 && m.ip != "" && Count(byIP, m.ip) >= perIP {
        return false;
      }
      ReservedSound(Now(), c, m, scopes, perPrincipal, perIP);
      var next := Reserved(Now(), c, m, scopes);
      conns, scopesOf, done, byPrincipal, byIP := next.conns, next.scopesOf, next.done, next.byPrincipal, next.byIP;
      assert Now() == next;
      return true;
    }

    /** Registers the connection under its next scope. */
    method Register(c: Id)
      requires Valid() && c in conns && done[c] < |scopesOf[c]|
      modifies this`registered, this`done
      ensures Valid() && Now() == Registered(old(Now()), c)
    {
      RegisteredSound(Now(), c, perPrincipal, perIP);
      registered, done := registered + {(scopesOf[c][done[c]], c)}, done[c := done[c] + 1];
    }

    /** Counts the connection out; its scopes are still to be left. */
    method Release(c: Id, m: Member)
      requires Valid() && c in conns && conns[c] == m
      modifies this
      ensures Valid() && Now() == Released(old(Now()), c, m)
    {
      ReleasedSound(Now(), c, m, perPrincipal, perIP);
      var next := Released(Now(), c, m);
      conns, scopesOf, done, leaving, byPrincipal, byIP := next.conns, next.scopesOf, next.done, next.leaving, next.byPrincipal, next.byIP;
      assert Now() == next;
    }

    /** Takes the connection out of the next scope it has to leave. */
    method Unregister(c: Id, scope: Scope)
      requires Valid() && c in leaving && leaving[c] != [] && leaving[c][0] == scope
      modifies this`registered, this`leaving
      ensures Valid() && Now() == Unregistered(old(Now()), c)
    {
      UnregisteredSound(Now(), c, perPrincipal, perIP);
      registered, leaving := registered - {(scope, c)}, leaving[c := leaving[c][1..]];
    }

    // ---- joining and leaving among others ----

    method Act(a: Action, c: Id)
      requires Valid()
      modifies this
      ensures Valid() && Same(c, old(Now()), Now())
    {
      if a.id == c {
        return;
      }
      match a
      case Reserving(d, m, scopes) =>
        if d !in conns && d !in leaving {
          var _ := Reserve(d, m, scopes);
        }
      case Registering(d) =>
        if d in conns && done[d] < |scopesOf[d]| {
          Register(d);
        }
      case Releasing(d) =>
        if d in conns {
          Release(d, conns[d]);
        }
      case Unregistering(d) =>
        if d in leaving && leaving[d] != [] {
          Unregister(d, leaving[d][0]);
        }
    }

    /** Any atomic actions of other connections. */
    method Others(c: Id)
      requires Valid()
      modifies this
      ensures Valid() && Same(c, old(Now()), Now())
    {
      var n: nat := *;
      while n > 0
        invariant Valid() && Same(c, old(Now()), Now())
      {
        var a: Action := *;
        Act(a, c);
        n := n - 1;
      }
    }

    /**
     Registers the connection under every scope, or, when its principal or its address is at the cap, does nothing. Others
     join and leave between its scopes; afterwards it is registered under each of them.
     */
    method Add(c: Id, m: Member, scopes: seq<Scope>) returns (ok: bool)
      requires Valid() && c !in conns && c !in leaving
      modifies this
      ensures Valid() && c !in leaving
      ensures ok <==> Room(perPrincipal, |Holders(Principals(old(conns)), m.principal)|)
                      && (m.ip == "" || Room(perIP, |Holders(Addresses(old(conns)), m.ip)|))
      ensures if ok then c in conns && conns[c] == m && scopesOf[c] == scopes && forall s :: (s, c) in registered <==> s in scopes
              else c !in conns && forall s :: (s, c) !in registered
    {
      ok := Reserve(c, m, scopes);
      if ok {
        Join(c, m, scopes);
      } else {
        ListedGone(registered, scopesOf, done, leaving, c);
      }
    }

    method Join(c: Id, m: Member, scopes: seq<Scope>)
      requires Valid() && c in conns && conns[c] == m && scopesOf[c] == scopes
      modifies this
      ensures Valid() && c in conns && conns[c] == m && scopesOf[c] == scopes && forall s :: (s, c) in registered <==> s in scopes
    {
      while done[c] < |scopes|
        invariant Valid() && c in conns && conns[c] == m && scopesOf[c] == scopes && done[c] <= |scopes|
        decreases |scopes| - done[c]
      {
        Others(c);
        Register(c);
      }
      assert scopes[..|scopes|] == scopes;
    }

    /** Takes the connection out of its counters at once and out of every scope, others in between; again, it does nothing. */
    method Remove(c: Id, m: Member)
      requires Valid() && (c in conns ==> conns[c] == m)
      modifies this
      ensures Valid() && c !in conns && (c !in old(leaving) ==> forall s :: (s, c) !in registered)
      ensures c !in old(conns) ==> Now() == old(Now())
    {
      if c !in scopesOf {
        if c !in leaving {
          ListedGone(registered, scopesOf, done, leaving, c);
        }
        return;
      }
      Leave(c, m);
    }

    method Leave(c: Id, m: Member)
      requires Valid() && c in conns && conns[c] == m
      modifies this
      ensures Valid() && c !in conns && forall s :: (s, c) !in registered
    {
      Release(c, m);
      while leaving[c] != []
        invariant Valid() && c !in conns && c in leaving
        decreases |leaving[c]|
      {
        Others(c);
        Unregister(c, leaving[c][0]);
      }
      ListedGone(registered, scopesOf, done, leaving, c);
      leaving := leaving - {c};
    }
  }

  datatype Action = Reserving(id: Id, m: Member, scopes: seq<Scope>) | Registering(id: Id) | Releasing(id: Id) | Unregistering(id: Id)

  /** Connection c is where it was. */
  ghost predicate Same(c: Id, a: Tables, b: Tables) {
    && (c in a.conns <==> c in b.conns) && (c in a.conns ==> a.conns[c] == b.conns[c])
    && (c in a.scopesOf <==> c in b.scopesOf) && (c in a.scopesOf ==> a.scopesOf[c] == b.scopesOf[c])
    && (c in a.done <==> c in b.done) && (c in a.done ==> a.done[c] == b.done[c])
    && (c in a.leaving <==> c in b.leaving) && (c in a.leaving ==> a.leaving[c] == b.leaving[c])
  }

  lemma CountsHold(conns: map<Id, Member>, byPrincipal: map<string, int>, byIP: map<string, int>, perPrincipal: int, perIP: int, m: Member)
    requires Tallied(conns, byPrincipal, byIP, perPrincipal, perIP)
    ensures Count(byPrincipal, m.principal) == |Holders(Principals(conns), m.principal)| && Count(byIP, m.ip) == |Holders(Addresses(conns), m.ip)|
  {
    TallyCounts(Principals(conns), m.principal);
    TallyCounts(Addresses(conns), m.ip);
  }

  lemma ListedGone(registered: set<(Scope, Id)>, scopesOf: map<Id, seq<Scope>>, done: map<Id, nat>, leaving: map<Id, seq<Scope>>, c: Id)
    requires Listed(registered, scopesOf, done, leaving) && c !in scopesOf && (c in leaving ==> leaving[c] == [])
    ensures (forall s :: (s, c) !in registered) && Listed(registered, scopesOf, done, leaving - {c})
  {
  }

  lemma ListedReserve(registered: set<(Scope, Id)>, scopesOf: map<Id, seq<Scope>>, done: map<Id, nat>, leaving: map<Id, seq<Scope>>, c: Id, scopes: seq<Scope>)
    requires Listed(registered, scopesOf, done, leaving) && c !in scopesOf && c !in leaving
    ensures Listed(registered, scopesOf[c := scopes], done[c := 0], leaving)
  {
    assert scopes[..0] == [];
  }

  lemma ListedRegister(registered: set<(Scope, Id)>, scopesOf: map<Id, seq<Scope>>, done: map<Id, nat>, leaving: map<Id, seq<Scope>>, c: Id)
    requires Listed(registered, scopesOf, done, leaving) && c in scopesOf && done[c] < |scopesOf[c]|
    ensures Listed(registered + {(scopesOf[c][done[c]], c)}, scopesOf, done[c := done[c] + 1], leaving)
  {
    assert scopesOf[c][..done[c] + 1] == scopesOf[c][..done[c]] + [scopesOf[c][done[c]]];
  }

  lemma ListedRelease(registered: set<(Scope, Id)>, scopesOf: map<Id, seq<Scope>>, done: map<Id, nat>, leaving: map<Id, seq<Scope>>, c: Id)
    requires Listed(registered, scopesOf, done, leaving) && c in scopesOf
    ensures Listed(registered, scopesOf - {c}, done - {c}, leaving[c := scopesOf[c]])
  {
    assert forall s :: s in scopesOf[c][..done[c]] ==> s in scopesOf[c];
  }

  lemma ListedUnregister(registered: set<(Scope, Id)>, scopesOf: map<Id, seq<Scope>>, done: map<Id, nat>, leaving: map<Id, seq<Scope>>, c: Id)
    requires Listed(registered, scopesOf, done, leaving) && c !in scopesOf && c in leaving && leaving[c] != []
    ensures Listed(registered - {(leaving[c][0], c)}, scopesOf, done, leaving[c := leaving[c][1..]])
  {
    assert leaving[c] == [leaving[c][0]] + leaving[c][1..];
  }
}
