/**
 A client resuming from a cursor while changes keep being committed and published (realtime/gateway.go, realtime/hub.go,
 realtime/publisher.go, repositories/realtime_log.go). The connection registers under its scopes one by one, then reads the
 log of each scope, then queues what it found; a publisher broadcasts a committed change to its scopes one by one.
 */
module Resume {
  type Scope = string

  datatype Change = Change(id: nat, scopes: set<Scope>)

  /** A change, by its place in the order of commits, on one of its scopes. */
  datatype OnScope = OnScope(change: nat, scope: Scope)

  datatype Phase = Joining | Reading | Delivering(rest: set<nat>) | Live

  /**
   log is what was committed, pending the broadcasts still to be made, early those made to a scope before the connection
   registered under it. read gives, for each scope already read, how many commits that read saw.
   */
  datatype State = State(
    log: seq<Change>, pending: set<OnScope>, early: set<OnScope>,
    scopes: set<Scope>, lower: nat, limit: nat, registered: set<Scope>, read: map<Scope, nat>, phase: Phase,
    queued: set<nat>, gap: bool, ending: bool)

  datatype Step =
    | Commit(entry: Change)
    | Broadcast(on: OnScope, room: bool)
    | Register(scope: Scope)
    | Replay(refused: bool)
    | Read(scope: Scope, view: nat)
    | ReadFails
    | Collect
    | Deliver(found: nat, room: bool)
    | End

  predicate Enabled(s: State, st: Step) {
    match st
    case Commit(c) => forall k :: 0 <= k < |s.log| ==> s.log[k].id != c.id
    case Broadcast(on, _) => on in s.pending
    case Register(scope) => s.phase.Joining? && scope in s.scopes && scope !in s.registered
    case Replay(_) => s.phase.Joining? && s.registered == s.scopes
    case Read(scope, view) => s.phase.Reading? && scope in s.scopes && scope !in s.read && view <= |s.log|
    case ReadFails => s.phase.Reading?
    case Collect => s.phase.Reading? && s.read.Keys == s.scopes
    case Deliver(k, _) => s.phase.Delivering? && k in s.phase.rest
    case End => true
  }

  /** The changes on scope past the cursor's lower bound among the first view commits. */
  function Rows(s: State, scope: Scope, view: nat): set<nat> {
    set k | 0 <= k < view && k < |s.log| && scope in s.log[k].scopes && s.log[k].id > s.lower
  }

  function Found(s: State): set<nat> { set scope, k | scope in s.read && k in Rows(s, scope, s.read[scope]) :: k }

  /** A frame is queued, or the queue is full and the connection ends. */
  function Sent(s: State, k: nat, room: bool): State {
    if s.ending then s else if room then s.(queued := s.queued + {k}) else s.(ending := true)
  }

  function Arrived(rest: set<nat>): Phase { if rest == {} then Live else Delivering(rest) }

  function Next(s: State, st: Step): State
    requires Enabled(s, st)
  {
    match st
    case Commit(c) => s.(log := s.log + [c], pending := s.pending + set x | x in c.scopes :: OnScope(|s.log|, x))
    case Broadcast(on, room) =>
      var t := s.(pending := s.pending - {on});
      if on.scope in s.registered then Sent(t, on.change, room) else t.(early := s.early + {on})
    case Register(scope) => s.(registered := s.registered + {scope})
    case Replay(refused) => if refused then s.(gap := true, phase := Live) else s.(phase := Reading)
    case Read(scope, view) => s.(read := s.read[scope := view])
    case ReadFails => s.(gap := true, phase := Live)
    case Collect => if |Found(s)| > s.limit then s.(gap := true, phase := Live) else s.(phase := Arrived(Found(s)))
    case Deliver(k, room) => Sent(s.(phase := Arrived(s.phase.rest - {k})), k, room)
    case End => s.(ending := true)
  }

  function Begin(log: seq<Change>, pending: set<OnScope>, scopes: set<Scope>, lower: nat, limit: nat): State {
    var all := set k: nat, x | k < |log| && x in log[k].scopes :: OnScope(k, x);
    State(log, pending, all - pending, scopes, lower, limit, {}, map[], Joining, {}, false, false)
  }

  ghost predicate Started(s: State) {
    && (forall on :: on in s.pending ==> on.change < |s.log| && on.scope in s.log[on.change].scopes)
    && s == Begin(s.log, s.pending, s.scopes, s.lower, s.limit)
  }

  ghost predicate Follows(tr: seq<State>, steps: seq<Step>, k: nat)
    requires |tr| == |steps| + 1 && k < |steps|
  {
    Enabled(tr[k], steps[k]) && tr[k + 1] == Next(tr[k], steps[k])
  }

  /** A connection that arrives at any point of the log's life, with any broadcasts still under way. */
  ghost predicate Trace(tr: seq<State>, steps: seq<Step>) {
    && |tr| == |steps| + 1
    && Started(tr[0])
    && forall k {:trigger Follows(tr, steps, k)} :: 0 <= k < |steps| ==> Follows(tr, steps, k)
  }

  // ---- what becomes of a change on one of the connection's scopes ----

  predicate Shares(s: State, k: nat, x: Scope) { k < |s.log| && x in s.log[k].scopes && x in s.scopes }

  /** The read of this scope showed the change. */
  predicate Shown(s: State, k: nat, x: Scope) { x in s.read && k in Rows(s, x, s.read[x]) }

  /** Queued, or about to be. */
  predicate Coming(s: State, k: nat) { k in s.queued || (s.phase.Delivering? && k in s.phase.rest) }

  /** The order of a connection's life. */
  ghost predicate InOrder(s: State) {
    && s.registered <= s.scopes && s.read.Keys <= s.scopes
    && (s.phase.Joining? ==> s.read == map[])
    && (!s.phase.Joining? ==> s.registered == s.scopes)
    && (s.phase.Delivering? || s.phase.Live? ==> s.gap || s.read.Keys == s.scopes)
    && (forall x :: x in s.read ==> s.read[x] <= |s.log|)
  }

  /** Marks name committed changes on their own scopes, and a broadcast is not both to come and made. */
  ghost predicate Marked(s: State) {
    && s.pending !! s.early
    && (forall on :: on in s.pending || on in s.early ==> on.change < |s.log| && on.scope in s.log[on.change].scopes)
  }

  ghost predicate Shape(s: State) { InOrder(s) && Marked(s) }

  /** A broadcast on the connection's scopes is still to come, was made too early, or queued its change. */
  ghost predicate Heard(s: State) {
    forall k, x :: Shares(s, k, x) ==> OnScope(k, x) in s.pending || OnScope(k, x) in s.early || k in s.queued
  }

  /** What was read is queued, or about to be. */
  ghost predicate Caught(s: State) {
    !s.gap && (s.phase.Delivering? || s.phase.Live?) ==> forall k, x :: Shown(s, k, x) ==> Coming(s, k)
  }

  /** The broadcast was made when the connection could hear it. */
  predicate Made(s: State, k: nat, x: Scope) { OnScope(k, x) !in s.pending && OnScope(k, x) !in s.early }

  /** Nothing is queued for nothing: it was broadcast once registered, or read. */
  ghost predicate Because(s: State, k: nat) { exists x :: Shares(s, k, x) && (Shown(s, k, x) || Made(s, k, x)) }

  ghost predicate Justified(s: State) { forall k :: Coming(s, k) ==> Because(s, k) }

  /** A scope's read saw every change broadcast to it before the connection registered. */
  ghost predicate SawEarly(s: State) { forall on :: on in s.early && on.scope in s.read ==> on.change < s.read[on.scope] }

  ghost predicate Inv(s: State) { Shape(s) && (!s.ending ==> Heard(s) && Caught(s)) && Justified(s) }

  lemma StepInOrder(s: State, st: Step)
    requires InOrder(s) && Enabled(s, st)
    ensures InOrder(Next(s, st))
  {
  }

  lemma StepMarked(s: State, st: Step)
    requires Marked(s) && Enabled(s, st)
    ensures Marked(Next(s, st))
  {
  }

  lemma StepHeard(s: State, st: Step)
    requires Shape(s) && (!s.ending ==> Heard(s)) && Enabled(s, st)
    ensures !Next(s, st).ending ==> Heard(Next(s, st))
  {
    var t := Next(s, st);
    if !t.ending {
      forall k: nat, x | Shares(t, k, x) ensures OnScope(k, x) in t.pending || OnScope(k, x) in t.early || k in t.queued {
        if k < |s.log| {
          assert Shares(s, k, x);
        }
      }
    }
  }

  /** Old commits keep their place: what a scope's read showed does not change. */
  lemma ShownStays(s: State, st: Step, k: nat, x: Scope)
    requires Shape(s) && Enabled(s, st) && x in s.read
    ensures Shown(Next(s, st), k, x) <==> Shown(s, k, x)
  {
  }

  lemma StepCaught(s: State, st: Step)
    requires Shape(s) && (!s.ending ==> Caught(s)) && Enabled(s, st)
    ensures !Next(s, st).ending ==> Caught(Next(s, st))
  {
    var t := Next(s, st);
    if !t.ending && !t.gap && (t.phase.Delivering? || t.phase.Live?) {
      forall k: nat, x | Shown(t, k, x) ensures Coming(t, k) {
        ShownStays(s, st, k, x);
        if st.Collect? {
          assert k in Found(s);
        } else {
          assert Coming(s, k);
        }
      }
    }
  }

  lemma BecauseStays(s: State, st: Step, k: nat)
    requires Shape(s) && Enabled(s, st) && Because(s, k)
    ensures Because(Next(s, st), k)
  {
    var x :| Shares(s, k, x) && (Shown(s, k, x) || Made(s, k, x));
    var t := Next(s, st);
    assert Shares(t, k, x);
    if Shown(s, k, x) {
      ShownStays(s, st, k, x);
    } else {
      assert Made(t, k, x);
    }
  }

  lemma StepJustified(s: State, st: Step)
    requires Shape(s) && Justified(s) && Enabled(s, st)
    ensures Justified(Next(s, st))
  {
    var t := Next(s, st);
    forall k | Coming(t, k) ensures Because(t, k) {
      if Coming(s, k) {
        BecauseStays(s, st, k);
      } else if st.Broadcast? {
        assert Shares(t, k, st.on.scope) && Made(t, k, st.on.scope);
      } else {
        CollectedBecause(s, st, k);
      }
    }
  }

  lemma CollectedBecause(s: State, st: Step, k: nat)
    requires Shape(s) && Enabled(s, st) && st.Collect? && k in Found(s)
    ensures Because(Next(s, st), k)
  {
    var x :| x in s.read && k in Rows(s, x, s.read[x]);
    assert Shares(Next(s, st), k, x) && Shown(Next(s, st), k, x);
  }

  lemma StartInv(s: State)
    requires Started(s)
    ensures Inv(s) && SawEarly(s)
  {
  }

  lemma {:induction false} TraceInv(tr: seq<State>, steps: seq<Step>, k: nat)
    requires Trace(tr, steps) && k < |tr|
    ensures Inv(tr[k])
    decreases k
  {
    if k == 0 {
      StartInv(tr[0]);
    } else {
      TraceInv(tr, steps, k - 1);
      assert Follows(tr, steps, k - 1);
      var s, st := tr[k - 1], steps[k - 1];
      StepInOrder(s, st);
      StepMarked(s, st);
      StepHeard(s, st);
      StepCaught(s, st);
      StepJustified(s, st);
    }
  }

  // ---- main results ----

  predicate CaughtUp(s: State) { s.phase.Live? && !s.gap && !s.ending }

  /**
   Exactly which changes are not queued once the replay is done: those the read of no shared scope showed, and that on every
   shared scope are still to be broadcast or were broadcast before the connection registered there.
   */
  lemma MissedIff(tr: seq<State>, steps: seq<Step>, i: nat, k: nat)
    requires Trace(tr, steps) && i < |tr| && CaughtUp(tr[i])
    ensures k !in tr[i].queued <==>
            forall x :: Shares(tr[i], k, x) ==> !Shown(tr[i], k, x) && !Made(tr[i], k, x)
  {
    TraceInv(tr, steps, i);
    var s := tr[i];
    if k in s.queued {
      assert Coming(s, k);
    } else {
      forall x | Shares(s, k, x) ensures !Shown(s, k, x) && !Made(s, k, x) {
        assert Shown(s, k, x) ==> Coming(s, k);
      }
    }
  }

  /** Each scope was read late enough to show whatever was broadcast to it before the connection registered. */
  ghost predicate ReadsSeeEarly(tr: seq<State>, steps: seq<Step>)
    requires Trace(tr, steps)
  {
    forall k {:trigger Follows(tr, steps, k)} :: 0 <= k < |steps| && Follows(tr, steps, k) ==> SeesEarly(tr[k], steps[k])
  }

  ghost predicate SeesEarly(s: State, st: Step) {
    st.Read? ==> forall on :: on in s.early && on.scope == st.scope ==> on.change < st.view
  }

  /** A consistent read, which sees every commit before it, always is. */
  lemma ConsistentReadsSeeEarly(tr: seq<State>, steps: seq<Step>)
    requires Trace(tr, steps)
    requires forall k {:trigger Follows(tr, steps, k)} :: 0 <= k < |steps| && Follows(tr, steps, k) && steps[k].Read? ==> steps[k].view == |tr[k].log|
    ensures ReadsSeeEarly(tr, steps)
  {
    forall k | 0 <= k < |steps| ensures SeesEarly(tr[k], steps[k]) {
      assert Follows(tr, steps, k);
      TraceInv(tr, steps, k);
    }
  }

  lemma StepSawEarly(s: State, st: Step)
    requires Shape(s) && SawEarly(s) && Enabled(s, st) && SeesEarly(s, st)
    ensures SawEarly(Next(s, st))
  {
  }

  lemma {:induction false} TraceSawEarly(tr: seq<State>, steps: seq<Step>, k: nat)
    requires Trace(tr, steps) && ReadsSeeEarly(tr, steps) && k < |tr|
    ensures SawEarly(tr[k])
    decreases k
  {
    if k == 0 {
      StartInv(tr[0]);
    } else {
      TraceSawEarly(tr, steps, k - 1);
      TraceInv(tr, steps, k - 1);
      assert Follows(tr, steps, k - 1) && SeesEarly(tr[k - 1], steps[k - 1]);
      StepSawEarly(tr[k - 1], steps[k - 1]);
    }
  }

  /** Then no change past the cursor is missed: it is queued, or still to be broadcast on every scope shared. */
  lemma NoneMissed(tr: seq<State>, steps: seq<Step>, i: nat, k: nat, x: Scope)
    requires Trace(tr, steps) && ReadsSeeEarly(tr, steps) && i < |tr| && CaughtUp(tr[i])
    requires Shares(tr[i], k, x) && tr[i].log[k].id > tr[i].lower
    ensures k in tr[i].queued || OnScope(k, x) in tr[i].pending
  {
    TraceInv(tr, steps, i);
    TraceSawEarly(tr, steps, i);
    MissedIff(tr, steps, i, k);
    var s := tr[i];
    if k !in s.queued && OnScope(k, x) !in s.pending {
      assert !Made(s, k, x);
      assert OnScope(k, x) in s.early && x in s.read;
      assert Shown(s, k, x);
    }
  }

  // ---- when the client is told to reload ----

  /** The replay was not tried, or the log could not be read. */
  predicate GivesUp(st: Step) { st == Replay(true) || st.ReadFails? }

  ghost predicate GaveUp(steps: seq<Step>, n: nat)
    requires n <= |steps|
  {
    exists j :: 0 <= j < n && GivesUp(steps[j])
  }

  /** The changes past the cursor that some scope's read showed, each once. */
  ghost function Behind(s: State): set<nat> {
    set k | 0 <= k < |s.log| && s.log[k].id > s.lower && exists x :: x in s.read && x in s.log[k].scopes && k < s.read[x]
  }

  predicate Replayed(s: State) { s.phase.Delivering? || s.phase.Live? }

  ghost predicate GapRight(s: State, gave: bool) {
    && (s.gap <==> gave || (Replayed(s) && |Behind(s)| > s.limit))
    && (gave ==> s.phase.Live?)
  }

  lemma BehindFound(s: State)
    requires InOrder(s)
    ensures Behind(s) == Found(s)
  {
    forall k ensures k in Behind(s) <==> k in Found(s) {
      if k in Behind(s) {
        var x :| x in s.read && x in s.log[k].scopes && k < s.read[x];
        assert k in Rows(s, x, s.read[x]);
      }
    }
  }

  /** Reads done stay as they were: later commits come after what they saw. */
  lemma BehindStays(s: State, st: Step)
    requires InOrder(s) && Enabled(s, st) && !st.Read?
    ensures Behind(Next(s, st)) == Behind(s)
  {
    var t := Next(s, st);
    assert t.read == s.read && t.lower == s.lower && s.log <= t.log;
    forall k ensures k in Behind(t) <==> k in Behind(s) {
      if k in Behind(t) {
        var x :| x in t.read && x in t.log[k].scopes && k < t.read[x];
        assert k < |s.log|;
      }
    }
  }

  lemma StepGap(s: State, st: Step, gave: bool)
    requires InOrder(s) && Enabled(s, st) && GapRight(s, gave)
    ensures GapRight(Next(s, st), gave || GivesUp(st))
  {
    if !st.Read? {
      BehindStays(s, st);
    }
    if st.Collect? {
      BehindFound(s);
    }
  }

  lemma {:induction false} TraceGap(tr: seq<State>, steps: seq<Step>, i: nat)
    requires Trace(tr, steps) && i < |tr|
    ensures GapRight(tr[i], GaveUp(steps, i))
  {
    if i == 0 {
      assert !GaveUp(steps, 0);
    } else {
      TraceGap(tr, steps, i - 1);
      TraceInv(tr, steps, i - 1);
      assert Follows(tr, steps, i - 1);
      StepGap(tr[i - 1], steps[i - 1], GaveUp(steps, i - 1));
      assert GaveUp(steps, i) <==> GaveUp(steps, i - 1) || GivesUp(steps[i - 1]);
    }
  }

  /** A gap is sent if and only if the replay gave up, or the distinct changes the reads showed outnumber the limit. */
  lemma GapIff(tr: seq<State>, steps: seq<Step>, i: nat)
    requires Trace(tr, steps) && i < |tr|
    ensures tr[i].gap <==> GaveUp(steps, i) || (Replayed(tr[i]) && |Behind(tr[i])| > tr[i].limit)
  {
    TraceGap(tr, steps, i);
  }

  /** A resume within the limit that nothing ended has queued every change its reads showed once it is live. */
  lemma ReplayedWhole(tr: seq<State>, steps: seq<Step>, i: nat)
    requires Trace(tr, steps) && i < |tr| && tr[i].phase.Live? && !tr[i].ending
    requires !GaveUp(steps, i) && |Behind(tr[i])| <= tr[i].limit
    ensures CaughtUp(tr[i]) && Behind(tr[i]) <= tr[i].queued
  {
    GapIff(tr, steps, i);
    TraceInv(tr, steps, i);
    var s := tr[i];
    BehindFound(s);
    forall k | k in Behind(s) ensures k in s.queued {
      var x :| x in s.read && k in Rows(s, x, s.read[x]);
      assert Shown(s, k, x) && Coming(s, k);
    }
  }

  lemma Extend(tr: seq<State>, steps: seq<Step>, st: Step) returns (more: seq<State>, done: seq<Step>)
    requires Trace(tr, steps) && Enabled(tr[|steps|], st)
    ensures Trace(more, done) && more[0] == tr[0] && |done| == |steps| + 1 && more[|done|] == Next(tr[|steps|], st)
  {
    more, done := tr + [Next(tr[|steps|], st)], steps + [st];
    forall k | 0 <= k < |done| ensures Follows(more, done, k) {
      if k < |steps| {
        assert Follows(tr, steps, k);
      }
    }
  }

  /** A change committed and broadcast before the connection registers. */
  lemma BroadcastEarly(s0: State, scope: Scope, id: nat) returns (tr: seq<State>, steps: seq<Step>)
    requires Started(s0) && s0.log == [] && id > s0.lower
    ensures Trace(tr, steps) && tr[0] == s0
    ensures tr[|steps|] == s0.(log := [Change(id, {scope})], pending := {}, early := {OnScope(0, scope)})
  {
    var on, c := OnScope(0, scope), Change(id, {scope});
    tr, steps := Extend([s0], [], Commit(c));
    assert tr[|steps|].pending == {on};
    tr, steps := Extend(tr, steps, Broadcast(on, true));
  }

  /** A read that is not consistent may miss a change broadcast just before the connection registered. */
  lemma StaleReadMisses(s0: State, scope: Scope, id: nat) returns (tr: seq<State>, steps: seq<Step>)
    requires Started(s0) && s0.log == [] && s0.scopes == {scope} && id > s0.lower
    ensures Trace(tr, steps) && tr[0] == s0 && CaughtUp(tr[|steps|]) && tr[|steps|].pending == {}
    ensures Shares(tr[|steps|], 0, scope) && tr[|steps|].log[0].id > tr[|steps|].lower && 0 !in tr[|steps|].queued
  {
    tr, steps := BroadcastEarly(s0, scope, id);
    tr, steps := Extend(tr, steps, Register(scope));
    tr, steps := Extend(tr, steps, Replay(false));
    tr, steps := Extend(tr, steps, Read(scope, 0));
    assert Found(tr[|steps|]) == {};
    tr, steps := Extend(tr, steps, Collect);
  }
}
