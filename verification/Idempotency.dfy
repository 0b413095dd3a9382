/**
 Retried requests under one key: a claim written before the handler runs, turned into the answer or given back afterwards
 (repositories/idempotency.go, middleware/idempotency.go). Any number of processes share the row; time is in nanoseconds and
 leases in whole seconds, as stored.
 */
module Idempotency {
  import opened Installments

  const SECOND := 1_000_000_000
  const LEASE := 120
  const TTL := 86_400

  function Unix(t: nat): nat { t / SECOND }

  /** status 0 is a claim; anything else is the answer. */
  datatype Row = Row(hash: string, status: nat, response: string, ttl: nat)

  predicate IsAnswer(row: Option<Row>) { row.Some? && row.value.status != 0 }

  datatype Claimed = Run | Replay(status: nat, response: string) | Conflict | InProgress

  /** Free, or a claim past its lease. */
  predicate Claimable(row: Option<Row>, now: nat) { row.None? || (row.value.status == 0 && row.value.ttl < Unix(now)) }

  function ClaimAnswer(row: Option<Row>, hash: string, now: nat): Claimed {
    if Claimable(row, now) then Run
    else if row.value.hash != hash then Conflict
    else if row.value.status == 0 then InProgress
    else Replay(row.value.status, row.value.response)
  }

  function ClaimRow(row: Option<Row>, hash: string, now: nat): Option<Row> {
    if Claimable(row, now) then Some(Row(hash, 0, "", Unix(now) + LEASE)) else row
  }

  function ReleaseRow(row: Option<Row>): Option<Row> { if row.Some? && row.value.status == 0 then None else row }

  predicate Success(status: nat) { 200 <= status < 300 }

  // ---- the store and the middleware ----

  class IdempotencyStore {
    var row: Option<Row>

    constructor ()
      ensures row.None?
    {
      row := None;
    }

    method Claim(hash: string, now: nat) returns (r: Claimed)
      modifies this
      ensures r == ClaimAnswer(old(row), hash, now) && row == ClaimRow(old(row), hash, now)
      ensures r != Run ==> row == old(row)
      ensures IsAnswer(old(row)) ==> row == old(row)
    {
      match row
      case None =>
        row := Some(Row(hash, 0, "", Unix(now) + LEASE));
        return Run;
      case Some(held) =>
        if held.status == 0 && held.ttl < Unix(now) {
          row := Some(Row(hash, 0, "", Unix(now) + LEASE));
          return Run;
        }
        if held.hash != hash {
          return Conflict;
        }
        if held.status == 0 {
          return InProgress;
        }
        return Replay(held.status, held.response);
    }

    /** From then on, until the table drops the row after its time, every request is told the answer or refused; none runs. */
    method Complete(hash: string, status: nat, response: string, now: nat)
      modifies this
      ensures status != 0 ==> forall h, t :: ClaimAnswer(row, h, t) == (if h == hash then Replay(status, response) else Conflict) && ClaimRow(row, h, t) == row
      ensures status != 0 ==> ReleaseRow(row) == row
      ensures row.Some? && row.value.ttl == Unix(now) + TTL
      ensures row == Some(Row(hash, status, response, row.value.ttl))
    {
      row := Some(Row(hash, status, response, Unix(now) + TTL));
    }

    /** Only a claim is removed, never an answer. */
    method Release()
      modifies this
      ensures row == ReleaseRow(old(row))
      ensures IsAnswer(old(row)) ==> row == old(row)
    {
      if row.Some? && row.value.status == 0 {
        row := None;
      }
    }

    /**
     One request, alone: the handler's own outcome is what it would answer if run, and whether its record reaches the table.
     A success is what the next request with the same body is answered; a failure leaves the key as it was before.
     */
    method Serve(hash: string, at: nat, failed: bool, status: nat, response: string, done: nat, stored: bool) returns (r: Claimed)
      modifies this
      ensures r == ClaimAnswer(old(row), hash, at)
      ensures r != Run ==> row == old(row)
      ensures r == Run && !failed && Success(status) && stored ==>
              row == Some(Row(hash, status, response, Unix(done) + TTL)) && forall t :: ClaimAnswer(row, hash, t) == Replay(status, response)
      ensures r == Run && (failed || !Success(status)) && stored ==> row.None?
      ensures r == Run && !stored ==> forall t :: Unix(t) <= Unix(at) + LEASE ==> ClaimAnswer(row, hash, t) == InProgress
    {
      r := Claim(hash, at);
      if r == Run && stored {
        if failed || !(200 <= status < 300) {
          Release();
        } else {
          Complete(hash, status, response, done);
        }
      }
    }
  }

  // ---- any number of processes ----

  datatype Phase =
    | Arrived(hash: string, now: nat)
    | Running(hash: string, ttl: nat)
    | Answered(claimed: Claimed)
    | Finished

  type Pid = nat

  datatype State = State(row: Option<Row>, procs: map<Pid, Phase>, clock: nat)

  datatype Step =
    | Tick(to: nat)
    | Arrive(p: Pid, hash: string)
    | Claim(p: Pid)
    | Complete(p: Pid, status: nat, response: string, now: nat)
    | Release(p: Pid)
    | Lose(p: Pid)
    | Expire

  predicate Runs(s: State, p: Pid) { p in s.procs && s.procs[p].Running? }

  predicate Enabled(s: State, st: Step) {
    match st
    case Tick(to) => s.clock <= to
    case Arrive(p, _) => p !in s.procs
    case Claim(p) => p in s.procs && s.procs[p].Arrived?
    case Complete(p, status, _, now) => Runs(s, p) && Success(status) && now <= s.clock
    case Release(p) => Runs(s, p)
    // A crash, or a final write that never reached the table.
    case Lose(p) => Runs(s, p)
    // The table drops rows past their ttl, at any time after it.
    case Expire => s.row.Some? && s.row.value.ttl < Unix(s.clock)
  }

  function Next(s: State, st: Step): State
    requires Enabled(s, st)
  {
    match st
    case Tick(to) => s.(clock := to)
    case Arrive(p, hash) => s.(procs := s.procs[p := Arrived(hash, s.clock)])
    case Claim(p) =>
      var a := s.procs[p];
      var r := ClaimAnswer(s.row, a.hash, a.now);
      s.(row := ClaimRow(s.row, a.hash, a.now),
         procs := s.procs[p := if r == Run then Running(a.hash, Unix(a.now) + LEASE) else Answered(r)])
    case Complete(p, status, response, now) =>
      s.(row := Some(Row(s.procs[p].hash, status, response, Unix(now) + TTL)), procs := s.procs[p := Finished])
    case Release(p) => s.(row := ReleaseRow(s.row), procs := s.procs[p := Finished])
    case Lose(p) => s.(procs := s.procs[p := Finished])
    case Expire => s.(row := None)
  }

  const Start: State := State(None, map[], 0)

  ghost predicate Follows(tr: seq<State>, steps: seq<Step>, k: nat)
    requires |tr| == |steps| + 1 && k < |steps|
  {
    Enabled(tr[k], steps[k]) && tr[k + 1] == Next(tr[k], steps[k])
  }

  ghost predicate Trace(tr: seq<State>, steps: seq<Step>) {
    && |tr| == |steps| + 1
    && tr[0] == Start
    && forall k {:trigger Follows(tr, steps, k)} :: 0 <= k < |steps| ==> Follows(tr, steps, k)
  }

  /** No handler is still running past its lease. */
  ghost predicate WithinLease(s: State) { forall p :: Runs(s, p) ==> Unix(s.clock) <= s.procs[p].ttl }

  ghost predicate AllWithin(tr: seq<State>, k: nat)
    requires k < |tr|
  {
    forall i :: 0 <= i <= k ==> WithinLease(tr[i])
  }

  /** Clocks read earlier are not ahead; whoever runs holds the row, and runs alone. */
  ghost predicate Holds(s: State) {
    && (forall p :: p in s.procs && s.procs[p].Arrived? ==> s.procs[p].now <= s.clock)
    && (forall p :: Runs(s, p) ==> s.row == Some(Row(s.procs[p].hash, 0, "", s.procs[p].ttl)))
    && (forall p, q :: Runs(s, p) && Runs(s, q) ==> p == q)
  }

  lemma UnixGrows(a: nat, b: nat)
    requires a <= b
    ensures Unix(a) <= Unix(b)
  {
  }

  lemma StepHolds(s: State, st: Step)
    requires Holds(s) && WithinLease(s) && Enabled(s, st)
    ensures Holds(Next(s, st))
  {
    var t := Next(s, st);
    if st.Claim? {
      UnixGrows(s.procs[st.p].now, s.clock);
    }
    forall q | Runs(t, q) && !(st.Claim? && q == st.p)
      ensures Runs(s, q) && t.procs[q] == s.procs[q] && t.row == s.row && (st.Claim? ==> !Runs(t, st.p))
    {
      assert Runs(s, q);
    }
  }

  lemma {:induction false} TraceHolds(tr: seq<State>, steps: seq<Step>, k: nat)
    requires Trace(tr, steps) && k < |tr| && (k > 0 ==> AllWithin(tr, k - 1))
    ensures Holds(tr[k])
    decreases k
  {
    if k > 0 {
      assert k > 1 ==> AllWithin(tr, k - 2);
      TraceHolds(tr, steps, k - 1);
      assert Follows(tr, steps, k - 1) && WithinLease(tr[k - 1]);
      StepHolds(tr[k - 1], steps[k - 1]);
    }
  }

  /** While no handler outlives its lease at most one runs at a time, in every interleaving. */
  lemma OneRunsAtATime(tr: seq<State>, steps: seq<Step>, k: nat, p: Pid, q: Pid)
    requires Trace(tr, steps) && k < |tr| && (k > 0 ==> AllWithin(tr, k - 1))
    ensures Runs(tr[k], p) && Runs(tr[k], q) ==> p == q
  {
    TraceHolds(tr, steps, k);
  }

  /** Two at once means that before then some handler outlived its lease. */
  lemma TwoMeansOutlived(tr: seq<State>, steps: seq<Step>, k: nat, p: Pid, q: Pid) returns (i: nat, late: Pid)
    requires Trace(tr, steps) && k < |tr| && p != q && Runs(tr[k], p) && Runs(tr[k], q)
    ensures i < k && Runs(tr[i], late) && tr[i].procs[late].ttl < Unix(tr[i].clock)
  {
    if k == 0 || AllWithin(tr, k - 1) {
      OneRunsAtATime(tr, steps, k, p, q);
      assert false;
    } else {
      i :| 0 <= i <= k - 1 && !WithinLease(tr[i]);
      late :| Runs(tr[i], late) && tr[i].procs[late].ttl < Unix(tr[i].clock);
    }
  }

  /** With one handler running and holding the row, a claim runs a second beside it if and only if that lease had lapsed. */
  lemma SecondRunsIff(s: State, p: Pid, q: Pid)
    requires Holds(s) && Runs(s, q) && Enabled(s, Claim(p))
    ensures Runs(Next(s, Claim(p)), p) <==> s.procs[q].ttl < Unix(s.procs[p].now)
    ensures Runs(Next(s, Claim(p)), q)
  {
  }

  /** A handler that outlives its lease gives back the claim of the one that replaced it, and a third may run beside that one. */
  lemma LateReleaseFreesAnother(hash: string, other: string) returns (tr: seq<State>, steps: seq<Step>)
    ensures Trace(tr, steps) && Runs(tr[|steps|], 1) && Runs(tr[|steps|], 2)
  {
    var late := (LEASE + 1) * SECOND;
    steps := [Arrive(0, hash), Claim(0), Tick(late), Arrive(1, hash), Claim(1), Release(0), Arrive(2, other), Claim(2)];
    var s1 := Next(Start, Arrive(0, hash));
    var s2 := Next(s1, Claim(0));
    var s3 := Next(s2, Tick(late));
    var s4 := Next(s3, Arrive(1, hash));
    assert Unix(late) == LEASE + 1;
    var s5 := Next(s4, Claim(1));
    var s6 := Next(s5, Release(0));
    var s7 := Next(s6, Arrive(2, other));
    var s8 := Next(s7, Claim(2));
    tr := [Start, s1, s2, s3, s4, s5, s6, s7, s8];
    forall k | 0 <= k < |steps| ensures Follows(tr, steps, k) {
    }
  }

  // ---- what a stored answer promises ----

  ghost predicate NoExpiry(steps: seq<Step>, i: nat, j: nat)
    requires j <= |steps|
  {
    forall k :: i <= k < j ==> steps[k] != Expire
  }

  /** Once answered, the key stays answered until the table drops it, whatever any process does, late ones included. */
  lemma {:induction false} AnsweredStays(tr: seq<State>, steps: seq<Step>, i: nat, j: nat)
    requires Trace(tr, steps) && i <= j < |tr| && IsAnswer(tr[i].row) && NoExpiry(steps, i, j)
    ensures IsAnswer(tr[j].row)
    decreases j
  {
    if i < j {
      AnsweredStays(tr, steps, i, j - 1);
      assert Follows(tr, steps, j - 1);
    }
  }

  /** Meanwhile no request with that key runs. */
  lemma NoneRunsOnceAnswered(tr: seq<State>, steps: seq<Step>, i: nat, j: nat, p: Pid)
    requires Trace(tr, steps) && i <= j < |steps| && IsAnswer(tr[i].row) && NoExpiry(steps, i, j) && steps[j] == Claim(p)
    ensures !Runs(tr[j + 1], p)
  {
    AnsweredStays(tr, steps, i, j);
    assert Follows(tr, steps, j);
  }

  /** Within leases the very answer stays: the first answer committed is the one every later request finds. */
  lemma {:induction false} TheAnswerStays(tr: seq<State>, steps: seq<Step>, i: nat, j: nat)
    requires Trace(tr, steps) && i <= j < |tr| && IsAnswer(tr[i].row) && NoExpiry(steps, i, j) && (j > 0 ==> AllWithin(tr, j - 1))
    ensures tr[j].row == tr[i].row
    decreases j
  {
    if i < j {
      assert j > 1 ==> AllWithin(tr, j - 2);
      TheAnswerStays(tr, steps, i, j - 1);
      TraceHolds(tr, steps, j - 1);
      assert Follows(tr, steps, j - 1);
    }
  }

  /** Every later request is told that answer if its body is the same, and refused if not; it never runs. */
  lemma AnswerReplayed(tr: seq<State>, steps: seq<Step>, i: nat, j: nat, first: Pid, p: Pid)
    requires Trace(tr, steps) && i < j < |steps| && NoExpiry(steps, i + 1, j) && AllWithin(tr, j)
    requires steps[i].Complete? && steps[i].p == first && steps[j] == Claim(p)
    ensures Runs(tr[i], first) && p in tr[j].procs && tr[j].procs[p].Arrived? && p in tr[j + 1].procs
    ensures tr[j + 1].procs[p] == Answered(if tr[j].procs[p].hash == tr[i].procs[first].hash then Replay(steps[i].status, steps[i].response) else Conflict)
  {
    assert Follows(tr, steps, i) && Follows(tr, steps, j);
    assert j > 0 ==> AllWithin(tr, j - 1);
    TheAnswerStays(tr, steps, i + 1, j);
  }

  /** A request runs only on a key that is free or whose lease has lapsed; with another body, a held key is a conflict. */
  lemma DifferentBodyNeverRuns(tr: seq<State>, steps: seq<Step>, k: nat, p: Pid)
    requires Trace(tr, steps) && k < |steps| && steps[k] == Claim(p) && (k > 0 ==> AllWithin(tr, k - 1)) && WithinLease(tr[k])
    ensures p in tr[k].procs && tr[k].procs[p].Arrived?
    ensures p in tr[k + 1].procs
    ensures forall q :: Runs(tr[k], q) ==>
              tr[k + 1].procs[p] == Answered(if tr[k].procs[q].hash == tr[k].procs[p].hash then InProgress else Conflict)
  {
    TraceHolds(tr, steps, k);
    assert Follows(tr, steps, k);
    UnixGrows(tr[k].procs[p].now, tr[k].clock);
  }
}
