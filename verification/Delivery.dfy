/**
 One live connection (realtime/conn.go): any number of senders, a bounded queue, and the single goroutine that writes to the
 socket. Every step of the machine is one atomic action of the code: a critical section, an atomic load or store, a channel
 operation or a socket write.
 */
module Delivery {
  import opened Installments

  type Frame = string

  /** What goes over the socket. */
  datatype Message = Binary(frame: Frame) | CloseFrame(code: int, reason: string)

  const TRY_LATER := 1013

  const SLOW_CONSUMER := "slow_consumer"

  /** The frame that tells a client to reload. */
  const GapFrame: Frame := "gap:slow_consumer"

  /** How a connection was asked to end. */
  datatype Ending = Ending(final: Option<Frame>, code: int, reason: string)

  /** Where the writer is: waiting, holding a frame, writing it, told to finish, draining, writing the last frames, stopped. */
  datatype Writer = Waiting | Holding(held: Frame) | Writing(frame: Frame) | Told | Draining | Last | Closing | Stopped

  /**
   full and slowed count the senders that found the queue full and have not yet stored slow, or not yet called Finish; signal
   is the closed finish channel, unsignaled a Finish that has not closed it yet. accepted, sent and lost are what happened to
   the frames Send took; failed is a write error.
   */
  datatype State = State(
    cap: nat, queue: seq<Frame>, ending: Option<Ending>, slow: bool, unsignaled: bool, signal: bool, full: nat, slowed: nat,
    writer: Writer, socket: seq<Message>, accepted: seq<Frame>, sent: seq<Frame>, lost: seq<Frame>, failed: bool)

  datatype Step =
    | Send(frame: Frame)
    | FindFull
    | StoreSlow
    | FinishSlow
    | Finish(ending: Ending)
    | Signal
    | Take
    | LoadSlow
    | Write(ok: bool)
    | Hear
    | LoadSlowToEnd
    | DrainOne(ok: bool)
    | Drained
    | WriteLast(ok: bool)
    | WriteClose(ok: bool)

  function Begin(cap: nat): State {
    State(cap, [], None, false, false, false, 0, 0, Waiting, [], [], [], [], false)
  }

  predicate Enabled(s: State, st: Step) {
    match st
    case Send(_) => s.ending.None? && |s.queue| < s.cap
    case FindFull => s.ending.None? && |s.queue| >= s.cap
    case StoreSlow => s.full > 0
    case FinishSlow => s.slowed > 0
    case Finish(_) => true
    case Signal => s.unsignaled
    case Take => s.writer.Waiting? && s.queue != []
    case LoadSlow => s.writer.Holding?
    case Write(_) => s.writer.Writing?
    case Hear => s.writer.Waiting? && s.signal
    case LoadSlowToEnd => s.writer.Told?
    case DrainOne(_) => s.writer.Draining? && s.queue != []
    case Drained => s.writer.Draining? && s.queue == []
    case WriteLast(_) => s.writer.Last? && s.ending.Some?
    case WriteClose(_) => s.writer.Closing? && s.ending.Some?
  }

  /** The first Finish wins; later ones do nothing. */
  function Finished(s: State, e: Ending): State {
    if s.ending.Some? then s else s.(ending := Some(e), unsignaled := true)
  }

  function Next(s: State, st: Step): State
    requires Enabled(s, st)
  {
    match st
    case Send(f) => s.(queue := s.queue + [f], accepted := s.accepted + [f])
    case FindFull => s.(full := s.full + 1)
    case StoreSlow => s.(full := s.full - 1, slow := true, slowed := s.slowed + 1)
    case FinishSlow => Finished(s.(slowed := s.slowed - 1), Ending(Some(GapFrame), TRY_LATER, SLOW_CONSUMER))
    case Finish(e) => Finished(s, e)
    case Signal => s.(unsignaled := false, signal := true)
    case Take => s.(writer := Holding(s.queue[0]), queue := s.queue[1..])
    case LoadSlow =>
      if s.slow then s.(writer := Waiting, lost := s.lost + [s.writer.held]) else s.(writer := Writing(s.writer.held))
    case Write(ok) =>
      if ok then s.(writer := Waiting, socket := s.socket + [Binary(s.writer.frame)], sent := s.sent + [s.writer.frame])
      else s.(writer := Stopped, failed := true)
    case Hear => s.(writer := Told)
    case LoadSlowToEnd => s.(writer := if s.slow then Last else Draining)
    case DrainOne(ok) =>
      if ok then s.(queue := s.queue[1..], socket := s.socket + [Binary(s.queue[0])], sent := s.sent + [s.queue[0]])
      else s.(queue := s.queue[1..], writer := Stopped, failed := true)
    case Drained => s.(writer := Last)
    case WriteLast(ok) =>
      if s.ending.value.final.None? then s.(writer := Closing)
      else if ok then s.(writer := Closing, socket := s.socket + [Binary(s.ending.value.final.value)])
      else s.(writer := Stopped, failed := true)
    case WriteClose(ok) =>
      if ok then s.(writer := Stopped, socket := s.socket + [CloseFrame(s.ending.value.code, s.ending.value.reason)])
      else s.(writer := Stopped, failed := true)
  }

  ghost predicate Follows(tr: seq<State>, steps: seq<Step>, k: nat)
    requires |tr| == |steps| + 1 && k < |steps|
  {
    Enabled(tr[k], steps[k]) && tr[k + 1] == Next(tr[k], steps[k])
  }

  ghost predicate Trace(tr: seq<State>, steps: seq<Step>) {
    && |tr| == |steps| + 1
    && tr[0] == Begin(tr[0].cap)
    && forall k {:trigger Follows(tr, steps, k)} :: 0 <= k < |steps| ==> Follows(tr, steps, k)
  }

  function Binaries(frames: seq<Frame>): seq<Message> { seq(|frames|, i requires 0 <= i < |frames| => Binary(frames[i])) }

  /** The last frames of an ending, as far as the writer has come. */
  function LastMessages(e: Ending): seq<Message> { if e.final.Some? then [Binary(e.final.value)] else [] }

  function InHand(w: Writer): seq<Frame> {
    match w
    case Holding(f) => [f]
    case Writing(f) => [f]
    case _ => []
  }

  predicate Ended(s: State) { s.ending.Some? }

  /** Every accepted frame is written, lost, in the writer's hand or queued, in that order. */
  ghost predicate Accounted(s: State) {
    s.sent <= s.accepted && (!s.failed ==> s.accepted == s.sent + s.lost + InHand(s.writer) + s.queue)
  }

  /** Frames are lost only once slow, and none is written after one is lost. */
  ghost predicate LossOnlySlow(s: State) {
    (s.lost != [] ==> s.slow) && (s.writer.Writing? || s.writer.Draining? ==> s.lost == [])
  }

  /** The writer finishes only what was ended, and leaves frames behind only when slow. */
  ghost predicate EndsInOrder(s: State) {
    && (s.unsignaled || s.signal ==> Ended(s))
    && (s.writer.Told? || s.writer.Draining? || s.writer.Last? || s.writer.Closing? ==> Ended(s))
    && (s.writer.Last? || s.writer.Closing? ==> s.slow || s.queue == [])
    && (s.writer.Stopped? && !s.failed ==> Ended(s) && (s.slow || s.queue == []))
    && (s.failed ==> s.writer.Stopped?)
    && |s.queue| <= s.cap
  }

  ghost predicate Orderly(s: State) { LossOnlySlow(s) && EndsInOrder(s) }

  ghost predicate Inv(s: State) { Accounted(s) && Orderly(s) && SocketRight(s) }

  /** What the socket has seen: the sent frames, then at the end the final frame, then one close. */
  ghost predicate SocketRight(s: State) {
    match s.writer
    case Closing => Ended(s) && s.socket == Binaries(s.sent) + LastMessages(s.ending.value)
    case Stopped =>
      if s.failed then s.socket == Binaries(s.sent) || (Ended(s) && s.socket == Binaries(s.sent) + LastMessages(s.ending.value))
      else Ended(s) && s.socket == Binaries(s.sent) + LastMessages(s.ending.value) + [CloseFrame(s.ending.value.code, s.ending.value.reason)]
    case _ => s.socket == Binaries(s.sent)
  }

  lemma BinariesSnoc(frames: seq<Frame>, f: Frame)
    ensures Binaries(frames + [f]) == Binaries(frames) + [Binary(f)]
  {
  }

  lemma SendAccounted(s: State, f: Frame)
    requires Accounted(s) && Enabled(s, Send(f))
    ensures Accounted(Next(s, Send(f)))
  {
    var before := s.sent + s.lost + InHand(s.writer);
    assert (before + s.queue) + [f] == before + (s.queue + [f]);
  }

  lemma TakeAccounted(s: State)
    requires Accounted(s) && Enabled(s, Take)
    ensures Accounted(Next(s, Take))
  {
    assert s.queue == [s.queue[0]] + s.queue[1..];
    assert s.sent + s.lost + [] == s.sent + s.lost;
    assert (s.sent + s.lost) + ([s.queue[0]] + s.queue[1..]) == (s.sent + s.lost) + [s.queue[0]] + s.queue[1..];
  }

  lemma LoadAccounted(s: State)
    requires Accounted(s) && Enabled(s, LoadSlow)
    ensures Accounted(Next(s, LoadSlow))
  {
    assert s.sent + s.lost + [s.writer.held] == s.sent + (s.lost + [s.writer.held]) + [];
  }

  lemma WriteAccounted(s: State, ok: bool)
    requires Accounted(s) && s.lost == [] && !s.failed && Enabled(s, Write(ok))
    ensures Accounted(Next(s, Write(ok)))
  {
    assert s.sent + [] + [s.writer.frame] == (s.sent + [s.writer.frame]) + [] + [];
  }

  lemma DrainAccounted(s: State, ok: bool)
    requires Accounted(s) && s.lost == [] && !s.failed && Enabled(s, DrainOne(ok))
    ensures Accounted(Next(s, DrainOne(ok)))
  {
    assert s.sent + [] + [] + s.queue == (s.sent + [s.queue[0]]) + [] + [] + s.queue[1..];
    assert s.accepted == (s.sent + [s.queue[0]]) + s.queue[1..];
  }

  lemma StepAccounted(s: State, st: Step)
    requires Accounted(s) && Orderly(s) && Enabled(s, st)
    ensures Accounted(Next(s, st))
  {
    match st
    case Send(f) => SendAccounted(s, f);
    case Take => TakeAccounted(s);
    case LoadSlow => LoadAccounted(s);
    case Write(ok) => WriteAccounted(s, ok);
    case DrainOne(ok) => DrainAccounted(s, ok);
    case _ =>
  }

  lemma StepLoss(s: State, st: Step)
    requires LossOnlySlow(s) && Enabled(s, st)
    ensures LossOnlySlow(Next(s, st))
  {
  }

  lemma StepEnds(s: State, st: Step)
    requires EndsInOrder(s) && Enabled(s, st)
    ensures EndsInOrder(Next(s, st))
  {
  }

  lemma StepSocket(s: State, st: Step)
    requires SocketRight(s) && Orderly(s) && Enabled(s, st)
    ensures SocketRight(Next(s, st))
  {
    match st
    case Write(_) => BinariesSnoc(s.sent, s.writer.frame);
    case DrainOne(_) => BinariesSnoc(s.sent, s.queue[0]);
    case _ =>
  }

  lemma StepInv(s: State, st: Step)
    requires Inv(s) && Enabled(s, st)
    ensures Inv(Next(s, st))
  {
    StepAccounted(s, st);
    StepLoss(s, st);
    StepEnds(s, st);
    StepSocket(s, st);
  }

  lemma {:induction false} TraceInv(tr: seq<State>, steps: seq<Step>, k: nat)
    requires Trace(tr, steps) && k < |tr|
    ensures Inv(tr[k])
    decreases k
  {
    if k > 0 {
      TraceInv(tr, steps, k - 1);
      assert Follows(tr, steps, k - 1);
      StepInv(tr[k - 1], steps[k - 1]);
    }
  }

  // ---- what a client can rely on ----

  /** The queued frames written are always a prefix, in order, of those Send accepted. */
  lemma WrittenIsAPrefix(tr: seq<State>, steps: seq<Step>, k: nat)
    requires Trace(tr, steps) && k < |tr|
    ensures tr[k].sent <= tr[k].accepted
    ensures Binaries(tr[k].sent) <= tr[k].socket
    ensures |tr[k].socket| <= |tr[k].sent| + 2 && |tr[k].queue| <= tr[k].cap
  {
    TraceInv(tr, steps, k);
  }

  /** A connection that was not slow and saw no write error wrote every accepted frame, then the final one, then one close. */
  lemma EverythingThenClose(tr: seq<State>, steps: seq<Step>, k: nat)
    requires Trace(tr, steps) && k < |tr| && tr[k].writer.Stopped? && !tr[k].failed
    ensures tr[k].ending.Some?
    ensures var e := tr[k].ending.value;
            && tr[k].socket == Binaries(tr[k].sent) + LastMessages(e) + [CloseFrame(e.code, e.reason)]
            && (!tr[k].slow ==> tr[k].sent == tr[k].accepted)
  {
    TraceInv(tr, steps, k);
    var s := tr[k];
    if !s.slow {
      assert s.sent + [] + [] + [] == s.sent;
    }
  }

  /** Only the last message can be a close: nothing is ever written after it. */
  lemma NothingAfterClose(tr: seq<State>, steps: seq<Step>, k: nat, i: nat)
    requires Trace(tr, steps) && k < |tr| && i < |tr[k].socket| && tr[k].socket[i].CloseFrame?
    ensures i == |tr[k].socket| - 1 && tr[k].writer.Stopped? && !tr[k].failed
  {
    TraceInv(tr, steps, k);
  }

  /** What was written stays written, and after a close nothing is added. */
  lemma {:induction false} SocketOnlyGrows(tr: seq<State>, steps: seq<Step>, j: nat, k: nat)
    requires Trace(tr, steps) && j <= k < |tr|
    ensures tr[j].socket <= tr[k].socket && (tr[j].writer.Stopped? ==> tr[k].socket == tr[j].socket && tr[k].writer.Stopped?)
    decreases k
  {
    if j < k {
      SocketOnlyGrows(tr, steps, j, k - 1);
      assert Follows(tr, steps, k - 1);
    }
  }

  /** Once it is ending no frame is accepted, and the first ending is the one told. */
  lemma {:induction false} FirstEndingWins(tr: seq<State>, steps: seq<Step>, j: nat, k: nat)
    requires Trace(tr, steps) && j <= k < |tr| && tr[j].ending.Some?
    ensures tr[k].ending == tr[j].ending && tr[k].accepted == tr[j].accepted
    decreases k
  {
    if j < k {
      FirstEndingWins(tr, steps, j, k - 1);
      assert Follows(tr, steps, k - 1);
    }
  }

  /** The writer never waits for good once told: every frame still there, the final one and the close take one step each. */
  function StepsLeft(s: State): nat {
    match s.writer
    case Told => |s.queue| + 4
    case Draining => |s.queue| + 3
    case Last => 2
    case Closing => 1
    case _ => 0
  }

  lemma ToldFinishes(s: State) returns (st: Step)
    requires Inv(s) && (s.writer.Told? || s.writer.Draining? || s.writer.Last? || s.writer.Closing?)
    ensures Enabled(s, st) && StepsLeft(Next(s, st)) < StepsLeft(s)
    ensures Next(s, st).writer.Stopped? || StepsLeft(Next(s, st)) > 0
  {
    match s.writer
    case Told => st := LoadSlowToEnd;
    case Draining => st := if s.queue == [] then Drained else DrainOne(true);
    case Last => st := WriteLast(true);
    case Closing => st := WriteClose(true);
  }

  // ---- as performed ----

  class Conn {
    const cap: nat
    var queue: seq<Frame>
    var ending: Option<Ending>
    var slow: bool
    var signal: bool
    var socket: seq<Message>

    constructor (cap: nat)
      ensures queue == [] && ending.None? && !slow && !signal && socket == [] && this.cap == cap
    {
      this.cap, queue, ending, slow, signal, socket := cap, [], None, false, false, [];
    }

    /** Queues a frame without blocking: refused when ending; with the queue full the connection ends with a gap. */
    method Send(frame: Frame) returns (ok: bool)
      modifies this
      ensures ok <==> old(ending).None? && |old(queue)| < cap
      ensures socket == old(socket)
      ensures ok ==> queue == old(queue) + [frame] && ending == old(ending) && slow == old(slow) && signal == old(signal)
      ensures !ok ==> queue == old(queue) && ending.Some?
      ensures !ok && old(ending).Some? ==> ending == old(ending) && slow == old(slow) && signal == old(signal)
      ensures !ok && old(ending).None? ==> slow && signal && ending == Some(Ending(Some(GapFrame), TRY_LATER, SLOW_CONSUMER))
    {
      if ending.Some? {
        return false;
      }
      if |queue| < cap {
        queue := queue + [frame];
        return true;
      }
      slow := true;
      End(Ending(Some(GapFrame), TRY_LATER, SLOW_CONSUMER));
      return false;
    }

    /** Ends the connection once. */
    method End(e: Ending)
      modifies this`ending, this`signal
      ensures old(ending).Some? ==> ending == old(ending) && signal == old(signal)
      ensures old(ending).None? ==> ending == Some(e) && signal
    {
      if ending.Some? {
        return;
      }
      ending := Some(e);
      signal := true;
    }

    /** What is queued, in order, up to the first write error. */
    method WriteQueue(errorAt: Option<nat>) returns (failed: bool, n: nat)
      modifies this`queue, this`socket
      ensures n <= |old(queue)| && socket == old(socket) + Binaries(old(queue)[..n])
      ensures if failed then errorAt == Some(n) && n < |old(queue)| else n == |old(queue)| && queue == []
    {
      n := 0;
      while queue != []
        invariant n + |queue| == |old(queue)| && queue == old(queue)[n..]
        invariant socket == old(socket) + Binaries(old(queue)[..n])
        decreases |queue|
      {
        if errorAt == Some(n) {
          return true, n;
        }
        assert old(queue)[..n + 1] == old(queue)[..n] + [queue[0]];
        BinariesSnoc(old(queue)[..n], queue[0]);
        socket := socket + [Binary(queue[0])];
        queue, n := queue[1..], n + 1;
      }
      return false, n;
    }

    /** The writer's last act: the rest of the queue unless slow, the final frame, the close; stops at the first error. */
    method WriteRest(errorAt: Option<nat>) returns (failed: bool)
      requires ending.Some?
      modifies this`queue, this`socket
      ensures old(socket) <= socket
      ensures !failed ==> socket == old(socket) + (if slow then [] else Binaries(old(queue))) + LastMessages(ending.value) + [CloseFrame(ending.value.code, ending.value.reason)]
      ensures failed ==> forall i :: |old(socket)| <= i < |socket| ==> !socket[i].CloseFrame?
    {
      var e, n := ending.value, 0;
      if !slow {
        failed, n := WriteQueue(errorAt);
        if failed {
          return true;
        }
        assert old(queue)[..n] == old(queue);
      }
      if e.final.Some? {
        if errorAt == Some(n) {
          return true;
        }
        socket := socket + [Binary(e.final.value)];
        n := n + 1;
      }
      if errorAt == Some(n) {
        return true;
      }
      socket := socket + [CloseFrame(e.code, e.reason)];
      return false;
    }
  }
}
