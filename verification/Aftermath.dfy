/**
 What a session that has been torn down still holds. close() empties the map of
 pending calls once; a call begun after that enters the map again, fails to queue
 its request, and is never taken out.
 */
module Aftermath {
  import opened Words
  import opened StringHash
  import opened Framing
  import opened AsyncOps
  import opened Protocol
  import opened Invariant
  import opened Traffic
  import opened Soundness
  import Guarantees

  /** Past the sweep, exactly the tokens issued since are pending, and no request was ever sent for them. */
  ghost predicate LatePending(e: Endpoint) {
    PastSweep(e) ==>
      && 1 <= e.sweptAt <= e.ops.next
      && (forall i :: 0 <= i < |e.sent| && e.sent[i].kind.Request? ==> e.sent[i].token < e.sweptAt)
      && (forall t :: t in e.ops.pending <==> e.sweptAt <= t < e.ops.next)
  }

  /** The step is not the sweep and, past it, touches neither the queue nor the pending map. */
  ghost predicate LeavesPending(e: Endpoint, e': Endpoint) {
    && PastSweep(e') == PastSweep(e)
    && (PastSweep(e) ==> e'.sent == e.sent && e'.sweptAt == e.sweptAt
                         && e'.ops.next == e.ops.next && e'.ops.pending == e.ops.pending)
  }

  lemma CallLate(e: Endpoint, step: CallerStep)
    requires CanCall(e, step) && LatePending(e)
    ensures LatePending(DoCall(e, step))
  {
    CallFrame(e, step);
    hide DoCall;
  }

  lemma AsideLate(e: Endpoint, e': Endpoint)
    requires SameTokens(e, e')
    ensures LeavesPending(e, e')
  {
  }

  lemma SendLate(e: Endpoint)
    requires CanResume(e, SendResult)
    ensures LeavesPending(e, DoResume(e, SendResult))
  {
  }

  lemma DigestOpen(e: Endpoint, f: Frame, allowed: bool)
    requires !PastSweep(e)
    ensures LeavesPending(e, Digest(e, f, allowed))
  {
  }

  lemma CloseLate(e: Endpoint, step: CloserStep)
    requires CanClose(e, step) && LatePending(e) && Sound(e)
    ensures LatePending(DoClose(e, step))
  {
    if step.Sweep? {
      assert TokenOk(e, 1);
      forall i | 0 <= i < |e.sent| && e.sent[i].kind.Request? ensures e.sent[i].token < e.ops.next {
        assert TokenOk(e, e.sent[i].token);
        Guarantees.RequestIsCalls(e, i);
      }
    }
  }

  /** A reply on its way answers a request that was sent, so it cannot take a late token. */
  lemma ReplyIsNotLate(e: Endpoint, peer: Endpoint)
    requires Sound(peer) && Flows(e, peer) && Flows(peer, e) && LatePending(e) && PastSweep(e) && peer.wire != []
    ensures !Resolves(e, peer.wire[0])
  {
    hide Sound, OriginOk;
    var j := |e.got|;
    assert peer.sent[j] == peer.wire[0];
    if IsReply(peer.wire[0]) {
      Guarantees.ReplyOrigin(peer, j);
      var i := peer.origin[j].at;
      assert i < |peer.got| && peer.got[i].kind.Request? && peer.got[i].token == peer.wire[0].token by {
        assert OriginOk(peer.sent[j], peer.got, peer.runs, peer.origin[j]);
        OriginIsRequest(peer.sent[j], peer.got, peer.runs, peer.origin[j]);
      }
      Guarantees.ReadAsSent(e, peer, i);
    }
  }

  lemma OriginIsRequest(f: Frame, got: seq<Frame>, runs: seq<HandlerRun>, o: Origin)
    requires OriginOk(f, got, runs, o)
    ensures o.at < |got| && got[o.at].kind.Request? && got[o.at].token == f.token
  {
  }

  lemma LeftPending(e: Endpoint, e': Endpoint)
    requires LatePending(e) && LeavesPending(e, e')
    ensures LatePending(e')
  {
  }

  /** Apart from callers and the sweep, no step past the sweep touches the pending map. */
  lemma StepLeavesPending(e: Endpoint, peer: Endpoint, step: Step)
    requires Sound(peer) && Flows(e, peer) && Flows(peer, e)
    requires Enabled(e, peer, step) && LatePending(e) && !step.Caller? && !step.Closer?
    ensures LeavesPending(e, After(e, peer, step))
  {
    hide Sound, Flows, LatePending, LeavesPending, SameTokens, DoAct, DoWrite, DoHandle, DoResume, Digest;
    if Aside(e, peer, step) {
      AsideStep(e, peer, step);
      AsideLate(e, After(e, peer, step));
    } else if step.Resume? {
      SendLate(e);
    } else {
      if PastSweep(e) {
        ReplyIsNotLate(e, peer);
      }
      DigestOpen(e, peer.wire[0], step.allowed);
    }
  }

  lemma LateStep(e: Endpoint, peer: Endpoint, step: Step)
    requires Sound(e) && Sound(peer) && Flows(e, peer) && Flows(peer, e)
    requires Enabled(e, peer, step) && LatePending(e)
    ensures LatePending(After(e, peer, step))
  {
    hide Sound, Flows, LatePending, LeavesPending, DoCall, DoAct, DoWrite, DoHandle, DoResume, DoClose, Digest, Takes;
    match step
    case Caller(c) => CallLate(e, c);
    case Closer(c) => CloseLate(e, c);
    case _ =>
      StepLeavesPending(e, peer, step);
      LeftPending(e, After(e, peer, step));
  }

  lemma MoveLate(s: System, m: Move, side: Side)
    requires SystemOk(s) && CanMove(s, m) && LatePending(s.Mine(side))
    ensures LatePending(Next(s, m).Mine(side))
  {
    hide Sound, Flows, LatePending, After;
    if m.side == side {
      LateStep(s.Mine(side), s.Peer(side), m.step);
    } else {
      PeerLate(s.Mine(m.side), s.Peer(m.side), m.step);
    }
  }

  lemma PeerLate(e: Endpoint, peer: Endpoint, step: Step)
    requires Enabled(e, peer, step) && LatePending(peer)
    ensures LatePending(PeerAfter(e, peer, step))
  {
  }

  lemma {:induction false} LateAt(start: System, moves: seq<Move>, states: seq<System>, n: nat, side: Side)
    requires Run(start, moves, states) && SystemOk(start) && LatePending(start.Mine(side)) && n <= |moves|
    ensures LatePending(states[n].Mine(side))
  {
    hide SystemOk, LatePending, Next, CanMove;
    if n > 0 {
      LateAt(start, moves, states, n - 1, side);
      RunOkAt(start, moves, states, n - 1);
      assert CanMove(states[n - 1], moves[n - 1]) && states[n] == Next(states[n - 1], moves[n - 1]);
      MoveLate(states[n - 1], moves[n - 1], side);
    }
  }

  lemma LateReachable(s: System, side: Side)
    requires Reachable(s)
    ensures SystemOk(s) && LatePending(s.Mine(side))
  {
    hide SystemOk, LatePending;
    var left: Config, right: Config, moves, states :|
      Run(System(Fresh(left), Fresh(right)), moves, states) && states[|moves|] == s;
    StartOk(left, right);
    StartLate(left, right, side);
    LateAt(System(Fresh(left), Fresh(right)), moves, states, |moves|, side);
    ReachableOk(s);
  }

  lemma StartLate(left: Config, right: Config, side: Side)
    ensures LatePending(System(Fresh(left), Fresh(right)).Mine(side))
  {
  }

  /**
   Past the sweep the pending map holds exactly the tokens issued since; so it is
   empty if and only if no call was begun after the sweep. Nothing ever resolves
   those calls, and nobody waits on them.
   */
  lemma PendingPastSweep(s: System, side: Side)
    requires Reachable(s) && PastSweep(s.Mine(side))
    ensures var e := s.Mine(side);
            && 1 <= e.sweptAt <= e.ops.next
            && (forall t :: t in e.ops.pending <==> e.sweptAt <= t < e.ops.next)
            && (e.ops.pending == {} <==> e.ops.next == e.sweptAt)
            && (forall t :: t in e.ops.pending ==>
                  t !in e.completedBy && t in e.calls && e.calls[t].phase != Awaiting && !Settled(e.calls[t].phase))
  {
    hide Reachable;
    LateReachable(s, side);
    var e := s.Mine(side);
    assert e.ops.next > e.sweptAt ==> e.sweptAt in e.ops.pending;
    forall t | t in e.ops.pending
      ensures t !in e.completedBy && t in e.calls && e.calls[t].phase != Awaiting && !Settled(e.calls[t].phase)
    {
      assert TokenOk(e, t);
    }
  }

  lemma StartOk(left: Config, right: Config)
    ensures SystemOk(System(Fresh(left), Fresh(right)))
  {
    hide Sound, Flows, Fresh;
    FreshSound(left);
    FreshSound(right);
    FreshFlows(left, right);
    FreshFlows(right, left);
  }

  /** A token pending past the sweep stays pending whatever happens. */
  lemma LateTokenStays(s: System, m: Move, side: Side, t: Token)
    requires Reachable(s) && CanMove(s, m) && PastSweep(s.Mine(side)) && t in s.Mine(side).ops.pending
    ensures t in Next(s, m).Mine(side).ops.pending
  {
    hide Reachable, Sound, Flows, LatePending, After;
    LateReachable(s, side);
    if m.side == side {
      LateStepKeeps(s.Mine(side), s.Peer(side), m.step, t);
    }
  }

  lemma LateStepKeeps(e: Endpoint, peer: Endpoint, step: Step, t: Token)
    requires Sound(e) && Sound(peer) && Flows(e, peer) && Flows(peer, e)
    requires Enabled(e, peer, step) && LatePending(e) && PastSweep(e) && t in e.ops.pending
    ensures t in After(e, peer, step).ops.pending
  {
    hide Sound, Flows, LatePending, DoCall, DoAct, DoWrite, DoHandle, DoResume, DoClose, Digest, Takes;
    match step
    case Caller(c) => CallFrame(e, c);
    case Closer(c) => CloseKeepsPending(e, c);
    case _ => StepLeavesPending(e, peer, step);
  }

  lemma CloseKeepsPending(e: Endpoint, step: CloserStep)
    requires CanClose(e, step) && PastSweep(e)
    ensures DoClose(e, step).ops.pending == e.ops.pending
  {
  }

  // ----- a run that leaves one behind -----

  /** close() runs to its end and a call is begun after it. */
  function LateCall(name: Name, request: Bytes): seq<Step> {
    [App(Close), Closer(ShutQueue), Closer(Sweep), Closer(ShutStream), Caller(BeginCall(name, request)), Caller(QueueRequest(1))]
  }

  /** That leaves its token in the pending map, its caller told that the queue is closed. */
  lemma LateCallStaysPending(left: Config, right: Config, name: Name, request: Bytes) returns (moves: seq<Move>, states: seq<System>)
    requires |request| < TWO64
    ensures |moves| == 6 && forall i :: 0 <= i < 6 ==> moves[i] == Move(Left, LateCall(name, request)[i])
    ensures Run(System(Fresh(left), Fresh(right)), moves, states)
    ensures var e := states[|moves|].left;
            e.teardown.StreamShut? && e.ops.pending == {1} && InPhase(e, 1, Failed(QueueClosed))
  {
    var start := System(Fresh(left), Fresh(right));
    var steps := LateCall(name, request);
    moves, states := [], [start];
    var s := start;
    for i := 0 to 6
      invariant |moves| == i && Run(start, moves, states) && states[i] == s
      invariant forall j :: 0 <= j < i ==> moves[j] == Move(Left, steps[j])
      invariant s.left == AfterSteps(left, name, request, i) && s.right == Fresh(right)
    {
      var m := Move(Left, steps[i]);
      LateCallStep(left, Fresh(right), name, request, i);
      OneMoreMove(start, moves, states, m);
      s := Next(s, m);
      moves, states := moves + [m], states + [s];
    }
  }

  /** The endpoint after the first n of those steps. */
  function AfterSteps(config: Config, name: Name, request: Bytes, n: nat): Endpoint {
    var e := Fresh(config);
    if n == 0 then e
    else if n == 1 then e.(teardown := Marked)
    else if n == 2 then e.(teardown := QueueShut)
    else if n == 3 then e.(teardown := Swept, sweptAt := 1)
    else if n == 4 then e.(teardown := StreamShut, sweptAt := 1)
    else
      e.(teardown := StreamShut, sweptAt := 1, ops := Create(NoOps),
         calls := map[1 := Call(name, request, if n == 5 then Registered else Failed(QueueClosed))])
  }

  lemma LateCallStep(config: Config, peer: Endpoint, name: Name, request: Bytes, n: nat)
    requires |request| < TWO64 && n < 6
    ensures var e, step := AfterSteps(config, name, request, n), LateCall(name, request)[n];
            && Enabled(e, peer, step) && PeerAfter(e, peer, step) == peer
            && After(e, peer, step) == AfterSteps(config, name, request, n + 1)
  {
    hide RequestFrame, Push, Answer, Digest;
  }

  // ----- the other order -----

  /** A caller waiting on an open, empty channel that nothing owns, in a session that is over. */
  ghost predicate Stranded(e: Endpoint, t: Token) {
    && InPhase(e, t, Awaiting) && t in e.ops.channels && e.ops.channels[t] == Empty
    && e.teardown.StreamShut? && e.sweeping == {} && e.reader.Gone?
  }

  /** close() as it is never strands a caller. */
  lemma NeverStranded(s: System, side: Side, t: Token)
    requires Reachable(s)
    ensures !Stranded(s.Mine(side), t)
  {
    hide Reachable;
    if Stranded(s.Mine(side), t) {
      Guarantees.NoCallerStranded(s, side, t);
      assert false;
    }
  }

  /** A session whose close() sweeps the pending calls before it closes the write queue. */
  datatype Swapped = Swapped(e: Endpoint, sweptFirst: bool)

  predicate SwapEnabled(x: Swapped, peer: Endpoint, step: Step) {
    match step
    case Closer(Sweep) => x.e.teardown.Marked? && !x.sweptFirst
    case Closer(ShutQueue) => x.e.teardown.Marked? && x.sweptFirst && x.e.sweeping == {}
    case _ => Enabled(x.e, peer, step)
  }

  function SwapAfter(x: Swapped, peer: Endpoint, step: Step): Swapped
    requires SwapEnabled(x, peer, step)
  {
    match step
    case Closer(Sweep) =>
      var e := x.e;
      Swapped(e.(ops := DetachAll(e.ops), sweeping := e.ops.pending, swept := e.swept + e.ops.pending, sweptAt := e.ops.next), true)
    case Closer(ShutQueue) => x.(e := x.e.(teardown := Swept))
    case _ => x.(e := After(x.e, peer, step))
  }

  ghost predicate SwapRun(start: Swapped, peer: Endpoint, steps: seq<Step>, xs: seq<Swapped>) {
    && |xs| == |steps| + 1 && xs[0] == start
    && forall i :: 0 <= i < |steps| ==> SwapEnabled(xs[i], peer, steps[i]) && xs[i + 1] == SwapAfter(xs[i], peer, steps[i])
  }

  function Overtaken(name: Name, request: Bytes): seq<Step> {
    [App(Close), Closer(Sweep), Caller(BeginCall(name, request)), Caller(QueueRequest(1)),
     Closer(ShutQueue), Closer(ShutStream), Resume(ReadFails)]
  }

  /** The session after the first n of those steps. */
  function OvertakenAt(config: Config, name: Name, request: Bytes, n: nat): Swapped {
    var e := Fresh(config);
    var marked := e.(teardown := Marked, sweptAt := 1);
    var begun := marked.(ops := Create(NoOps), calls := map[1 := Call(name, request, Registered)]);
    var f := RequestFrame(config, 1, Call(name, request, Registered));
    var queued := begun.(calls := map[1 := Call(name, request, Awaiting)], queue := [f], sent := [f]);
    if n == 0 then Swapped(e, false)
    else if n == 1 then Swapped(e.(teardown := Marked), false)
    else if n == 2 then Swapped(marked, true)
    else if n == 3 then Swapped(begun, true)
    else if n == 4 then Swapped(queued, true)
    else if n == 5 then Swapped(queued.(teardown := Swept), true)
    else if n == 6 then Swapped(queued.(teardown := StreamShut), true)
    else Swapped(queued.(teardown := StreamShut, reader := Gone), true)
  }

  lemma OvertakenStep(config: Config, peer: Endpoint, name: Name, request: Bytes, n: nat)
    requires |request| < TWO64 && n < 7
    ensures var x, step := OvertakenAt(config, name, request, n), Overtaken(name, request)[n];
            SwapEnabled(x, peer, step) && SwapAfter(x, peer, step) == OvertakenAt(config, name, request, n + 1)
  {
    hide RequestFrame;
  }

  /** The order inside close() matters: in the other order a call begun and queued between the two is stranded. */
  lemma SweepFirstStrands(config: Config, peer: Endpoint, name: Name, request: Bytes) returns (xs: seq<Swapped>)
    requires |request| < TWO64
    ensures SwapRun(Swapped(Fresh(config), false), peer, Overtaken(name, request), xs)
    ensures Stranded(xs[7].e, 1)
  {
    hide RequestFrame, SwapEnabled, SwapAfter;
    xs := seq(8, n requires 0 <= n < 8 => OvertakenAt(config, name, request, n));
    forall i | 0 <= i < 7
      ensures SwapEnabled(xs[i], peer, Overtaken(name, request)[i])
      ensures xs[i + 1] == SwapAfter(xs[i], peer, Overtaken(name, request)[i])
    {
      OvertakenStep(config, peer, name, request, i);
    }
  }

  lemma CallStranded(e: Endpoint, step: CallerStep, t: Token)
    requires Stranded(e, t) && CanCall(e, step) && step != Timeout(t) && t < e.ops.next
    ensures Stranded(DoCall(e, step), t) && t < DoCall(e, step).ops.next
  {
    CallFrame(e, step);
    hide DoCall;
  }

  lemma AsideStranded(e: Endpoint, e': Endpoint, t: Token)
    requires Stranded(e, t) && SameTokens(e, e')
    ensures Stranded(e', t) && e'.ops == e.ops
  {
  }

  /** And stays so: nothing but its own timeout ends the wait. */
  lemma StrandedStays(x: Swapped, peer: Endpoint, step: Step, t: Token)
    requires Stranded(x.e, t) && SwapEnabled(x, peer, step) && step != Caller(Timeout(t)) && t < x.e.ops.next
    ensures Stranded(SwapAfter(x, peer, step).e, t) && t < SwapAfter(x, peer, step).e.ops.next
  {
    assert !step.Closer? && !step.ReadFrame? && (step.Caller? || Aside(x.e, peer, step));
    hide Stranded, DoCall, SameTokens;
    if step.Caller? {
      CallStranded(x.e, step.caller, t);
    } else {
      hide After;
      AsideStep(x.e, peer, step);
      AsideStranded(x.e, After(x.e, peer, step), t);
    }
  }
}
