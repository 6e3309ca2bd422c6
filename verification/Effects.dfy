/**
 What the steps of a session do, spelled out frame by frame, and what follows for
 whole runs: how many handlers a reader starts, and why a call failed.
 */
module Effects {
  import opened Words
  import opened StringHash
  import opened Framing
  import opened RateLimit
  import opened AsyncOps
  import opened Protocol
  import opened Invariant
  import opened Traffic
  import opened Soundness
  import Guarantees
  import Whereabouts
  import Stream
  import RequestGate

  // ----- what is sent -----

  /** A ping, a notification and a request as they are queued, when there is room. */
  lemma SentAsAsked(e: Endpoint, callId: Word, payload: Bytes, t: Token)
    requires |payload| < TWO64
    ensures var room := QueueOpen(e) && |e.queue| < 256;
            var notification := Frame(Notification, callId, 0, payload);
            && DoAct(e, TryPing).sent == (if room then e.sent + [Frame(Ping, 0, 0, [])] else e.sent)
            && DoAct(e, AppStep.Notify(callId, payload)).sent == (if room then e.sent + [notification] else e.sent)
            && DoAct(e, AppStep.Notify(callId, payload)).attempts == e.attempts + [(notification, room)]
    ensures InPhase(e, t, Registered) && t < TWO64 && QueueOpen(e) && |e.queue| < 256 ==>
              var call := e.calls[t];
              DoCall(e, QueueRequest(t)).sent == e.sent + [Frame(Request, CallId(call.name, e.config.signed), t, call.request)]
  {
    hide CallId;
  }

  // ----- what a frame does to an idle reader -----

  /** The reader gives up on an oversized response, notification or error, leaving it unread, and takes every other frame. */
  lemma ReadEffect(e: Endpoint, peer: Endpoint, allowed: bool)
    requires Enabled(e, peer, ReadFrame(allowed))
    ensures var f := peer.wire[0];
            var e', peer' := After(e, peer, ReadFrame(allowed)), PeerAfter(e, peer, ReadFrame(allowed));
            if (f.kind.Response? || f.kind.Notification? || f.kind.Error?) && |f.body| > e.config.limit
            then e'.reader.Gone? && !e'.teardown.Open? && e'.got == e.got && e'.ops == e.ops && peer' == peer
            else e' == Digest(e, f, allowed) && e'.got == e.got + [f] && peer' == peer.(wire := peer.wire[1..])
  {
  }

  /** A ping is answered by one pong if there is room; a pong or a nop by nothing. */
  lemma KeepaliveEffect(e: Endpoint, f: Frame, allowed: bool)
    requires e.reader.Idle?
    ensures f.kind.Ping? ==>
              var pong := if QueueOpen(e) && |e.queue| < 256 then [Frame(Pong, 0, 0, [])] else [];
              Digest(e, f, allowed) == e.(got := e.got + [f], queue := e.queue + pong, sent := e.sent + pong)
    ensures f.kind.Pong? || f.kind.Nop? ==> Digest(e, f, allowed) == e.(got := e.got + [f])
  {
    assert e.queue + [] == e.queue && e.sent + [] == e.sent;
  }

  /** Whatever the frame, nothing is started when the gate refuses. */
  lemma RefusedStartsNothing(e: Endpoint, f: Frame)
    ensures Digest(e, f, false).runs == e.runs
  {
  }

  /** A request within the limit that the gate lets through gets a handler of its own; the reader reads on. */
  lemma AllowedRequestEffect(e: Endpoint, f: Frame)
    requires e.reader.Idle? && f.kind.Request? && |f.body| <= e.config.limit
    ensures var e' := Digest(e, f, true);
            e'.runs == e.runs + [HandlerRun(|e.got|, f, None, Running)] && e'.reader.Idle? && e'.sent == e.sent
  {
    assert e.sent + [] == e.sent;
  }

  /** One that the gate refuses gets an error, with its own call id and token, and the session stays open. */
  lemma RefusedRequestEffect(e: Endpoint, f: Frame)
    requires e.reader.Idle? && f.kind.Request? && |f.body| <= e.config.limit
    ensures var e' := Digest(e, f, false);
            && e'.runs == e.runs && e'.reader == Answering(|e.got|, false) && e'.teardown == e.teardown
            && (CanResume(e', AnswerError) ==>
                  var answered := DoResume(e', AnswerError);
                  && answered.sent == e.sent + [Frame(Error, f.callId, f.token, [])]
                  && answered.reader.Idle? && answered.teardown == e.teardown && answered.runs == e.runs)
  {
    assert e.sent + [] == e.sent;
  }

  /** An oversized one gets the same error, whatever the gate, and ends the session. */
  lemma OversizedRequestEffect(e: Endpoint, f: Frame, allowed: bool)
    requires e.reader.Idle? && f.kind.Request? && |f.body| > e.config.limit
    ensures var e' := Digest(e, f, allowed);
            && e'.runs == e.runs && e'.reader == Answering(|e.got|, true)
            && (CanResume(e', AnswerError) ==>
                  var answered := DoResume(e', AnswerError);
                  && answered.sent == e.sent + [Frame(Error, f.callId, f.token, [])]
                  && answered.reader.Gone? && !answered.teardown.Open?)
  {
    assert e.sent + [] == e.sent;
  }

  /** A reply to a pending call: the reader is left with its body, or with an error; any other reply changes nothing. */
  lemma ReplyEffect(e: Endpoint, f: Frame, allowed: bool)
    requires e.reader.Idle? && (f.kind.Response? || f.kind.Error?)
    ensures var e' := Digest(e, f, allowed);
            if f.token in e.ops.pending
            then e'.reader == Completing(f.token, if f.kind.Response? then Ok(f.body) else Err)
                 && e'.ops.pending == e.ops.pending - {f.token}
            else e' == e.(got := e.got + [f])
  {
    assert e.queue + [] == e.queue && e.sent + [] == e.sent;
  }

  /** The byte-level reader's events are the protocol's read steps. */
  lemma EventIsDigest(e: Endpoint, f: Frame, allowed: bool)
    requires e.reader.Idle? && Readable(f, e.config.limit)
    ensures var event, e' := EventOf(f, allowed), Digest(e, f, allowed);
            && (f.token in e.ops.pending ==>
                  && (forall t: Word, b: Bytes :: event == Resolve(t, b) <==> e'.reader == Completing(t, Ok(b)))
                  && (forall t: Word :: event == Fail(t) <==> e'.reader == Completing(t, Err)))
            && (event.Notify? <==> e'.strand == e.strand + [f])
            && (event.Notify? ==> event == Event.Notify(f.callId, f.body))
            && (event == Serve(f) <==> e'.runs == e.runs + [HandlerRun(|e.got|, f, None, Running)])
            && (event == Refuse(f.callId, f.token) <==> e'.reader.Answering?)
            && (event == Alive(f.kind) <==> f.kind.Nop? || f.kind.Ping? || f.kind.Pong?)
  {
    var e' := Digest(e, f, allowed);
    assert |e.strand + [f]| == |e.strand| + 1;
    assert |e.runs + [HandlerRun(|e.got|, f, None, Running)]| == |e.runs| + 1;
    match f.kind {
      case Request => if allowed {}
      case Response => if f.token in e.ops.pending {}
      case Error => if f.token in e.ops.pending {}
      case _ =>
    }
  }

  // ----- how many handlers a reader starts -----

  /** A read of a request within the limit, with the gate's leave. */
  predicate Starts(e: Endpoint, peer: Endpoint, step: Step) {
    step == ReadFrame(true) && peer.wire != [] && peer.wire[0].kind.Request? && |peer.wire[0].body| <= e.config.limit
  }

  lemma HandlerKeepsCount(e: Endpoint, k: nat, step: HandlerStep)
    requires CanHandle(e, k, step)
    ensures |DoHandle(e, k, step).runs| == |e.runs|
  {
  }

  lemma DigestCount(e: Endpoint, f: Frame, allowed: bool)
    ensures |Digest(e, f, allowed).runs| ==
            |e.runs| + if allowed && f.kind.Request? && |f.body| <= e.config.limit then 1 else 0
  {
  }

  lemma StepCount(e: Endpoint, peer: Endpoint, step: Step)
    requires Enabled(e, peer, step)
    ensures |After(e, peer, step).runs| == |e.runs| + if Starts(e, peer, step) then 1 else 0
  {
    hide DoCall, DoAct, DoWrite, DoHandle, DoResume, DoClose, Digest;
    if Whereabouts.LeavesService(e, peer, step) {
      Whereabouts.ServiceLeft(e, peer, step);
    } else {
      match step
      case Handler(k, h) => HandlerKeepsCount(e, k, h);
      case Resume(_) => Whereabouts.AnswerTouches(e);
      case ReadFrame(allowed) => DigestCount(e, peer.wire[0], allowed);
    }
  }

  predicate StartsAt(s: System, m: Move, side: Side) {
    m.side == side && Starts(s.Mine(side), s.Peer(side), m.step)
  }

  function HandlersStarted(moves: seq<Move>, states: seq<System>, side: Side, n: nat): nat
    requires n <= |moves| < |states|
  {
    if n == 0 then 0 else HandlersStarted(moves, states, side, n - 1) + if StartsAt(states[n - 1], moves[n - 1], side) then 1 else 0
  }

  lemma MoveCount(s: System, m: Move, side: Side)
    requires CanMove(s, m)
    ensures |Next(s, m).Mine(side).runs| == |s.Mine(side).runs| + if StartsAt(s, m, side) then 1 else 0
    ensures Next(s, m).Mine(side).config == s.Mine(side).config
  {
    hide After, Enabled;
    if m.side == side {
      StepCount(s.Mine(side), s.Peer(side), m.step);
      Stream.SameConfig(s.Mine(side), s.Peer(side), m.step);
    }
  }

  /** In every run an endpoint's handlers are as many as its reads of requests within the limit that the gate let through. */
  lemma {:induction false} HandlersAreReads(
      left: Config, right: Config, moves: seq<Move>, states: seq<System>, side: Side, n: nat)
    requires Run(System(Fresh(left), Fresh(right)), moves, states) && n <= |moves|
    ensures |states[n].Mine(side).runs| == HandlersStarted(moves, states, side, n)
    ensures states[n].Mine(side).config == if side.Left? then left else right
  {
    hide CanMove, Next, StartsAt;
    if n > 0 {
      HandlersAreReads(left, right, moves, states, side, n - 1);
      assert CanMove(states[n - 1], moves[n - 1]) && states[n] == Next(states[n - 1], moves[n - 1]);
      MoveCount(states[n - 1], moves[n - 1], side);
    }
  }

  // ----- how fast -----

  /** The frames a side has read, each with the clock's reading at its move. */
  function Read(moves: seq<Move>, states: seq<System>, times: seq<real>, side: Side, n: nat): seq<RequestGate.Arrival>
    requires n <= |moves| < |states| && |times| == |moves|
  {
    if n == 0 then []
    else
      var earlier := Read(moves, states, times, side, n - 1);
      if moves[n - 1].side == side && moves[n - 1].step.ReadFrame? && states[n - 1].Peer(side).wire != []
      then earlier + [RequestGate.Arrival(states[n - 1].Peer(side).wire[0], times[n - 1])]
      else earlier
  }

  /** The verdicts in a run are those of the side's bucket. */
  ghost predicate Gated(g: RequestGate.Gate, moves: seq<Move>, states: seq<System>, times: seq<real>, side: Side)
    requires |moves| < |states| && |times| == |moves|
  {
    forall n :: 0 <= n < |moves| && moves[n].side == side && moves[n].step.ReadFrame? && states[n].Peer(side).wire != [] ==>
      var f, read := states[n].Peer(side).wire[0], Read(moves, states, times, side, n);
      RequestGate.Asking(g.limit, f) ==>
        (moves[n].step.allowed <==> RequestGate.Opens(g.limit, RequestGate.BucketAt(g, read, |read|), f, times[n]))
  }

  /** Handlers added to a side between two times. */
  function AddedBetween(states: seq<System>, times: seq<real>, side: Side, n: nat, a: real, b: real): int
    requires n <= |times| < |states|
  {
    if n == 0 then 0
    else
      AddedBetween(states, times, side, n - 1, a, b) +
      if Within(times[n - 1], a, b) then |states[n].Mine(side).runs| - |states[n - 1].Mine(side).runs| else 0
  }

  lemma {:induction false} AddedAreStarted(
      g: RequestGate.Gate, left: Config, right: Config, moves: seq<Move>, states: seq<System>, times: seq<real>, side: Side, n: nat,
      a: real, b: real)
    requires Run(System(Fresh(left), Fresh(right)), moves, states) && |times| == |moves| && n <= |moves|
    requires g.limit == (if side.Left? then left else right).limit && Gated(g, moves, states, times, side)
    ensures var read := Read(moves, states, times, side, n);
            AddedBetween(states, times, side, n, a, b) == RequestGate.Started(g, read, |read|, a, b)
  {
    hide CanMove, Next, RequestGate.Opens;
    if n > 0 {
      AddedAreStarted(g, left, right, moves, states, times, side, n - 1, a, b);
      HandlersAreReads(left, right, moves, states, side, n - 1);
      var s, m, earlier := states[n - 1], moves[n - 1], Read(moves, states, times, side, n - 1);
      assert CanMove(s, m) && states[n] == Next(s, m);
      MoveCount(s, m, side);
      if m.side == side && m.step.ReadFrame? && s.Peer(side).wire != [] {
        var f := s.Peer(side).wire[0];
        RequestGate.OneMoreArrival(g, earlier, RequestGate.Arrival(f, times[n - 1]), a, b);
        OpensAsking(g.limit, RequestGate.BucketAt(g, earlier, |earlier|), f, times[n - 1]);
      }
    }
  }

  lemma OpensAsking(limit: nat, b: Bucket, f: Frame, now: real)
    ensures RequestGate.Opens(limit, b, f, now) ==> RequestGate.Asking(limit, f)
  {
  }

  lemma {:induction false} ReadTimed(moves: seq<Move>, states: seq<System>, times: seq<real>, side: Side, n: nat)
    requires n <= |moves| < |states| && |times| == |moves| && ClockedBy(times)
    ensures var read := Read(moves, states, times, side, n);
            && RequestGate.Timed(read)
            && forall i, m :: 0 <= i < |read| && n <= m < |times| ==> read[i].now <= times[m]
  {
    if n > 0 {
      ReadTimed(moves, states, times, side, n - 1);
    }
  }

  ghost predicate ClockedBy(times: seq<real>) {
    && (forall i :: 0 <= i < |times| ==> times[i] > 0.0)
    && (forall i, j :: 0 <= i < j < |times| ==> times[i] <= times[j])
  }

  /** So in any stretch of time at most burst plus rate times length handlers are added to a session, whatever its peer sends. */
  lemma HandlerRateBounded(
      g: RequestGate.Gate, left: Config, right: Config, moves: seq<Move>, states: seq<System>, times: seq<real>, side: Side, n: nat,
      a: real, b: real)
    requires Run(System(Fresh(left), Fresh(right)), moves, states) && |times| == |moves| && n <= |moves| && ClockedBy(times)
    requires g.limit == (if side.Left? then left else right).limit && Gated(g, moves, states, times, side)
    requires a <= b && g.burst > 0.0 && g.rate >= 0.0
    ensures AddedBetween(states, times, side, n, a, b) as real <= g.burst + g.rate * (b - a)
  {
    hide Run, Gated, ClockedBy, AddedBetween, Read, Accrued, RequestGate.Started, RequestGate.Timed;
    RunLength(left, right, moves, states);
    AddedAreStarted(g, left, right, moves, states, times, side, n, a, b);
    ReadTimed(moves, states, times, side, n);
    var read := Read(moves, states, times, side, n);
    RequestGate.RequestRateBounded(g, read, |read|, a, b);
  }

  lemma RunLength(left: Config, right: Config, moves: seq<Move>, states: seq<System>)
    requires Run(System(Fresh(left), Fresh(right)), moves, states)
    ensures |states| == |moves| + 1
  {
  }

  // ----- why a call failed -----

  lemma CallTimesOut(e: Endpoint, step: CallerStep, t: Token)
    requires CanCall(e, step) && e.ops.next !in e.calls
    ensures InPhase(DoCall(e, step), t, Failed(TimedOut)) <==> InPhase(e, t, Failed(TimedOut)) || step == Timeout(t)
  {
    hide RequestFrame;
    match step {
      case QueueRequest(_) => if QueueOpen(e) {}
      case Receive(u) => if e.ops.channels[u].buffer == [] {}
      case _ =>
    }
  }

  lemma MoveTimesOut(s: System, m: Move, side: Side, t: Token)
    requires SystemOk(s) && CanMove(s, m)
    ensures InPhase(Next(s, m).Mine(side), t, Failed(TimedOut)) <==>
            InPhase(s.Mine(side), t, Failed(TimedOut)) || m == Move(side, Caller(Timeout(t)))
  {
    if m.side == side {
      NextIsNew(s.Mine(side));
      hide Sound, Flows, DoCall, DoAct, DoWrite, DoHandle, DoResume, DoClose, Digest;
      if m.step.Caller? {
        CallTimesOut(s.Mine(side), m.step.caller, t);
      } else {
        OnlyCallersCall(s.Mine(side), s.Peer(side), m.step);
      }
    }
  }

  /** In every run a call reports a timeout if and only if its own timer fired while it was waiting. */
  lemma {:induction false} TimedOutIff(
      left: Config, right: Config, moves: seq<Move>, states: seq<System>, n: nat, side: Side, t: Token)
    requires Run(System(Fresh(left), Fresh(right)), moves, states) && n <= |moves|
    ensures InPhase(states[n].Mine(side), t, Failed(TimedOut)) <==>
            exists i :: 0 <= i < n && moves[i] == Move(side, Caller(Timeout(t)))
  {
    hide CanMove, Next, SystemOk, Whereabouts.Diligent;
    if n > 0 {
      TimedOutIff(left, right, moves, states, n - 1, side, t);
      Whereabouts.DiligentAt(left, right, moves, states, n - 1);
      assert CanMove(states[n - 1], moves[n - 1]) && states[n] == Next(states[n - 1], moves[n - 1]);
      MoveTimesOut(states[n - 1], moves[n - 1], side, t);
    }
  }

  /** A call that reports a closed channel was swept by close(); one that reports a closed queue was never sent. */
  ghost predicate FailuresOk(e: Endpoint) {
    forall t :: t in e.calls ==>
      && (e.calls[t].phase == Failed(ChannelClosed) ==> t in e.swept)
      && (e.calls[t].phase == Failed(QueueClosed) ==> !QueueOpen(e) && !Whereabouts.SentFor(e.sent, t))
  }

  lemma OwnFailure(e: Endpoint, step: CallerStep)
    requires CanCall(e, step) && !step.BeginCall? && TokenOk(e, step.token)
    ensures var phase := DoCall(e, step).calls[step.token].phase;
            && (phase == Failed(ChannelClosed) ==> step.token in e.swept)
            && (phase == Failed(QueueClosed) ==> !QueueOpen(e) && InPhase(e, step.token, Registered))
  {
    hide RequestFrame;
    match step {
      case QueueRequest(_) => if QueueOpen(e) {}
      case Receive(u) => if e.ops.channels[u].buffer == [] {}
      case Timeout(_) =>
    }
  }

  lemma BeginsRegistered(e: Endpoint, step: CallerStep)
    requires CanCall(e, step) && step.BeginCall?
    ensures InPhase(DoCall(e, step), e.ops.next, Registered)
  {
  }

  /** One call has moved on, and if it failed it failed for a reason. */
  lemma OneCallMoved(e: Endpoint, e': Endpoint, t: Token)
    requires FailuresOk(e) && e'.swept == e.swept && e'.teardown == e.teardown && (QueueOpen(e) || e'.sent == e.sent)
    requires e'.calls.Keys == e.calls.Keys + {t} && forall u :: u in e.calls && u != t ==> e'.calls[u] == e.calls[u]
    requires e'.calls[t].phase == Failed(ChannelClosed) ==> t in e.swept
    requires e'.calls[t].phase == Failed(QueueClosed) ==> !QueueOpen(e) && !Whereabouts.SentFor(e.sent, t)
    ensures FailuresOk(e')
  {
    hide Whereabouts.SentFor;
  }

  lemma CallFails(e: Endpoint, step: CallerStep)
    requires CanCall(e, step) && Sound(e) && FailuresOk(e)
    ensures FailuresOk(DoCall(e, step))
  {
    assert step.BeginCall? || TokenOk(e, step.token);
    hide Sound, TokenOk, FailuresOk, Whereabouts.SentFor, DoCall;
    CallFrame(e, step);
    if step.BeginCall? {
      BeginsRegistered(e, step);
      OneCallMoved(e, DoCall(e, step), e.ops.next);
    } else {
      OwnFailure(e, step);
      if InPhase(e, step.token, Registered) {
        RegisteredUnsent(e, step.token);
      }
      OneCallMoved(e, DoCall(e, step), step.token);
    }
  }

  lemma RegisteredUnsent(e: Endpoint, t: Token)
    requires Sound(e) && InPhase(e, t, Registered)
    ensures !Whereabouts.SentFor(e.sent, t)
  {
    hide Sound;
    if i :| 0 <= i < |e.sent| && e.sent[i].kind.Request? && e.sent[i].token == t {
      Guarantees.RequestIsCalls(e, i);
      assert false;
    }
  }

  /** A closed queue takes nothing more, and what was swept stays swept. */
  lemma ClosedTakesNothing(e: Endpoint, peer: Endpoint, step: Step)
    requires Enabled(e, peer, step) && !step.Caller?
    ensures var e' := After(e, peer, step);
            e.swept <= e'.swept && (!QueueOpen(e) ==> !QueueOpen(e') && e'.sent == e.sent)
  {
    hide DoAct, DoWrite, DoHandle, DoResume, DoClose, Digest;
    if Aside(e, peer, step) {
      AsideStep(e, peer, step);
      hide After;
    } else {
      match step
      case Resume(_) => SendResultKeeps(e);
      case Closer(c) => CloserKeeps(e, c);
      case ReadFrame(allowed) => DigestKeeps(e, peer.wire[0], allowed);
    }
  }

  lemma SendResultKeeps(e: Endpoint)
    requires CanResume(e, SendResult)
    ensures var e' := DoResume(e, SendResult); e'.swept == e.swept && e'.teardown == e.teardown && e'.sent == e.sent
  {
  }

  lemma CloserKeeps(e: Endpoint, step: CloserStep)
    requires CanClose(e, step)
    ensures var e' := DoClose(e, step); e.swept <= e'.swept && (!QueueOpen(e) ==> !QueueOpen(e')) && e'.sent == e.sent
  {
  }

  lemma DigestKeeps(e: Endpoint, f: Frame, allowed: bool)
    ensures var e' := Digest(e, f, allowed);
            e'.swept == e.swept && e'.teardown == e.teardown && (!QueueOpen(e) ==> e'.sent == e.sent)
  {
    assert e.sent + [] == e.sent;
  }

  lemma FailuresStep(e: Endpoint, peer: Endpoint, step: Step)
    requires Sound(e) && Enabled(e, peer, step) && FailuresOk(e)
    ensures FailuresOk(After(e, peer, step))
  {
    hide Sound, Whereabouts.SentFor, DoCall, DoAct, DoWrite, DoHandle, DoResume, DoClose, Digest;
    if step.Caller? {
      CallFails(e, step.caller);
    } else {
      OnlyCallersCall(e, peer, step);
      ClosedTakesNothing(e, peer, step);
    }
  }

  lemma {:induction false} FailuresAt(left: Config, right: Config, moves: seq<Move>, states: seq<System>, n: nat)
    requires Run(System(Fresh(left), Fresh(right)), moves, states) && n <= |moves|
    ensures FailuresOk(states[n].left) && FailuresOk(states[n].right)
  {
    hide Sound, Flows, Whereabouts.Diligent, Whereabouts.SentFor, After, Enabled;
    if n > 0 {
      FailuresAt(left, right, moves, states, n - 1);
      Whereabouts.DiligentAt(left, right, moves, states, n - 1);
      var s, m := states[n - 1], moves[n - 1];
      assert CanMove(s, m) && states[n] == Next(s, m);
      FailuresStep(s.Mine(m.side), s.Peer(m.side), m.step);
    }
  }

  /** In every reachable state: a closed channel means the sweep took the call, a closed queue that its request was never sent. */
  lemma FailureMeans(s: System, side: Side, t: Token)
    requires Reachable(s)
    ensures InPhase(s.Mine(side), t, Failed(ChannelClosed)) ==> t in s.Mine(side).swept
    ensures InPhase(s.Mine(side), t, Failed(QueueClosed)) ==>
              !QueueOpen(s.Mine(side))
              && forall i :: 0 <= i < |s.Mine(side).sent| && s.Mine(side).sent[i].kind.Request? ==> s.Mine(side).sent[i].token != t
  {
    hide Fresh, CanMove, Next;
    var left: Config, right: Config, moves, states :|
      Run(System(Fresh(left), Fresh(right)), moves, states) && states[|moves|] == s;
    FailuresAt(left, right, moves, states, |moves|);
  }
}
