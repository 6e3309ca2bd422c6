/** The whole invariant, kept by every step of both endpoints. */
module Soundness {
  import opened Words
  import opened StringHash
  import opened Framing
  import opened AsyncOps
  import opened Protocol
  import opened Invariant
  import opened Traffic

  ghost predicate TrafficOk(e: Endpoint) {
    && Outgoing(e.config, e.sent, e.calls)
    && Served(e.got, e.runs, e.reader)
    && Answered(e.sent, e.got, e.runs, e.origin, e.reader)
    && Notified(e)
  }

  /** Nothing is lost, duplicated or reordered from one side's queue to the other side's reader. */
  ghost predicate Flows(from: Endpoint, to: Endpoint) {
    from.sent == to.got + from.wire + from.queue
  }

  lemma PushTraffic(e: Endpoint, f: Frame)
    requires TrafficOk(e) && !f.kind.Request? && !IsReply(f) && !f.kind.Notification? && WellFormed(f)
    ensures TrafficOk(Push(e, f))
  {
    hide Outgoing, Served, Answered;
    OutgoingPush(e.config, e.sent, e.calls, f);
    AnsweredPush(e.sent, e.got, e.runs, e.origin, e.reader, f);
    NotificationsPush(e.sent, f);
  }

  lemma ActTraffic(e: Endpoint, step: AppStep)
    requires TrafficOk(e) && CanAct(e, step)
    ensures TrafficOk(DoAct(e, step))
  {
    hide Outgoing, Served, Answered;
    match step
    case TryPing => if CanPush(e) { PushTraffic(e, PING); }
    case Notify(callId, payload) =>
      var f := NotificationFrame(callId, payload);
      AcceptedPush(e.attempts, f, CanPush(e));
      if CanPush(e) {
        OutgoingPush(e.config, e.sent, e.calls, f);
        AnsweredPush(e.sent, e.got, e.runs, e.origin, e.reader, f);
        NotificationsPush(e.sent, f);
      }
    case Close =>
  }

  lemma CallTraffic(e: Endpoint, step: CallerStep)
    requires TrafficOk(e) && TokensOk(e) && CanCall(e, step)
    ensures TrafficOk(DoCall(e, step))
  {
    hide Outgoing, Served, Answered, TokenOk, RequestFrame;
    match step
    case BeginCall(name, request) =>
      NextIsNew(e);
      OutgoingBegin(e.config, e.sent, e.calls, e.ops.next, name, request);
    case QueueRequest(t) =>
      if QueueOpen(e) {
        var f := RequestFrame(e.config, t, e.calls[t]);
        RequestFrameKind(e.config, t, e.calls[t]);
        OutgoingRequest(e.config, e.sent, e.calls, t);
        AnsweredPush(e.sent, e.got, e.runs, e.origin, e.reader, f);
        NotificationsPush(e.sent, f);
      } else {
        OutgoingPhase(e.config, e.sent, e.calls, t, Failed(QueueClosed));
      }
    case Receive(t) =>
      var channel := e.ops.channels[t];
      if channel.buffer == [] {
        OutgoingPhase(e.config, e.sent, e.calls, t, Failed(ChannelClosed));
      } else {
        OutgoingPhase(e.config, e.sent, e.calls, t, PhaseFor(channel.buffer[0]));
      }
    case Timeout(t) => OutgoingPhase(e.config, e.sent, e.calls, t, Failed(TimedOut));
  }

  lemma NextIsNew(e: Endpoint)
    requires TokensOk(e)
    ensures e.ops.next !in e.calls
  {
    assert TokenOk(e, e.ops.next);
  }

  lemma RequestFrameKind(config: Config, t: Token, call: Call)
    requires t < TWO64
    ensures RequestFrame(config, t, call).kind == Request
  {
  }

  lemma HandleTraffic(e: Endpoint, k: nat, step: HandlerStep)
    requires TrafficOk(e) && CanHandle(e, k, step)
    ensures TrafficOk(DoHandle(e, k, step))
  {
    hide Outgoing, Served, Answered;
    var run := e.runs[k];
    RunIsOk(e, k);
    match step
    case HandlerDone(output) =>
      MoveRun(e, k, run.(output := output, phase := if output.Some? then Replying else Refusing));
    case SendReply =>
      ReplyTraffic(e, k, ReplyTo(run.request, Response, run.output.value), Some(k));
    case SendReplyFails => MoveRun(e, k, run.(phase := Refusing));
    case SendRefusal => ReplyTraffic(e, k, ReplyTo(run.request, Error, []), None);
    case SendRefusalFails => MoveRun(e, k, run.(phase := Finished));
  }

  lemma RunIsOk(e: Endpoint, k: nat)
    requires TrafficOk(e) && k < |e.runs|
    ensures RunOk(e.got, e.runs[k])
  {
  }

  lemma MoveRun(e: Endpoint, k: nat, run: HandlerRun)
    requires TrafficOk(e) && k < |e.runs| && !e.runs[k].phase.Finished? && RunOk(e.got, run) && run.at == e.runs[k].at
    ensures TrafficOk(SetRun(e, k, run))
  {
    hide Outgoing, Served, Answered;
    ServedRun(e.got, e.runs, e.reader, k, run);
    AnsweredRun(e.sent, e.got, e.runs, e.origin, e.reader, k, run);
  }

  /** Finishing a run and queueing its reply. */
  lemma ReplyTraffic(e: Endpoint, k: nat, f: Frame, run: Option<nat>)
    requires TrafficOk(e) && k < |e.runs| && !e.runs[k].phase.Finished?
    requires IsReply(f) && WellFormed(f) && f.callId == e.runs[k].request.callId && f.token == e.runs[k].request.token
    requires if f.kind.Response? then run == Some(k) && e.runs[k].output == Some(f.body) else run == None
    ensures TrafficOk(SetRun(Answer(e, f, Origin(e.runs[k].at, run)), k, e.runs[k].(phase := Finished)))
  {
    var o, done := Origin(e.runs[k].at, run), e.runs[k].(phase := Finished);
    RunIsOk(e, k);
    OtherRunsElsewhere(e, k);
    MoveRun(e, k, done);
    hide Outgoing, Served, Answered;
    OutgoingPush(e.config, e.sent, e.calls, f);
    AnsweredReply(e.sent, e.got, e.runs[k := done], e.origin, e.reader, f, o);
    NotificationsPush(e.sent, f);
  }

  lemma OtherRunsElsewhere(e: Endpoint, k: nat)
    requires TrafficOk(e) && k < |e.runs| && !e.runs[k].phase.Finished?
    ensures forall m :: 0 <= m < |e.runs| && m != k ==> e.runs[m].at != e.runs[k].at
    ensures forall j :: j in e.origin ==> e.origin[j].at != e.runs[k].at
    ensures e.reader.Answering? ==> e.reader.at != e.runs[k].at
  {
  }

  lemma ReaderTraffic(e: Endpoint, reader: Reader)
    requires TrafficOk(e) && !reader.Answering?
    ensures TrafficOk(e.(reader := reader))
  {
    hide Outgoing, Served, Answered;
    ServedReader(e.got, e.runs, e.reader, reader);
    AnsweredReader(e.sent, e.got, e.runs, e.origin, e.reader, reader);
  }

  lemma AnswerTraffic(e: Endpoint, reader: Reader)
    requires TrafficOk(e) && e.reader.Answering? && e.reader.at < |e.got| && !reader.Answering?
    ensures TrafficOk(Answer(e, ReplyTo(e.got[e.reader.at], Error, []), Origin(e.reader.at, None)).(reader := reader))
  {
    var f, o := ReplyTo(e.got[e.reader.at], Error, []), Origin(e.reader.at, None);
    ReaderTraffic(e, reader);
    assert OriginOk(f, e.got, e.runs, o);
    assert forall k :: 0 <= k < |e.runs| ==> e.runs[k].at != o.at;
    assert forall j :: j in e.origin ==> e.origin[j].at != o.at;
    hide Outgoing, Served, Answered;
    OutgoingPush(e.config, e.sent, e.calls, f);
    AnsweredReply(e.sent, e.got, e.runs, e.origin, reader, f, o);
    NotificationsPush(e.sent, f);
  }

  lemma ResumeTraffic(e: Endpoint, step: ReaderStep)
    requires TrafficOk(e) && CanResume(e, step)
    ensures TrafficOk(DoResume(e, step))
  {
    hide Outgoing, Served, Answered;
    match step
    case ReadFails => ReaderTraffic(e, Gone);
    case AnswerError =>
      hide Notified;
      AnswerTraffic(e, if e.reader.thenClose then Gone else Idle);
    case AnswerErrorFails => ReaderTraffic(e, Gone);
    case SendResult => ReaderTraffic(e, Idle);
    case ApplyNotification =>
      assert e.applied + e.strand == (e.applied + [e.strand[0]]) + e.strand[1..];
  }

  lemma DigestTraffic(e: Endpoint, f: Frame, allowed: bool)
    requires TrafficOk(e) && e.reader.Idle?
    ensures TrafficOk(Digest(e, f, allowed))
  {
    hide Outgoing, Served, Answered, Digest;
    var e' := Digest(e, f, allowed);
    DigestOut(e, f, allowed);
    DigestIn(e, f, allowed);
    ServedRead(e.got, e.runs, f, e'.runs, e'.reader);
    AnsweredRead(e.sent, e.got, e.runs, e.origin, f, e'.runs, e'.reader);
    NotificationsPush(e.got, f);
    if PongFor(e, f) == [] {
      assert e'.sent == e.sent;
    } else {
      OutgoingPush(e.config, e.sent, e.calls, PONG);
      AnsweredPush(e.sent, e'.got, e'.runs, e.origin, e'.reader, PONG);
      NotificationsPush(e.sent, PONG);
    }
    assert e.applied + (e.strand + [f]) == (e.applied + e.strand) + [f];
    assert e.applied + e.strand == (e.applied + e.strand) + [];
  }

  lemma DigestOut(e: Endpoint, f: Frame, allowed: bool)
    requires e.reader.Idle?
    ensures var e' := Digest(e, f, allowed);
            && e'.config == e.config && e'.calls == e.calls && e'.origin == e.origin
            && e'.attempts == e.attempts && e'.wire == e.wire
            && e'.sent == e.sent + PongFor(e, f) && e'.queue == e.queue + PongFor(e, f)
  {
  }

  lemma DigestIn(e: Endpoint, f: Frame, allowed: bool)
    requires e.reader.Idle?
    ensures var e' := Digest(e, f, allowed);
            && e'.got == e.got + [f] && e'.applied == e.applied
            && e'.strand == (if f.kind.Notification? then e.strand + [f] else e.strand)
            && (e'.reader.Answering? ==> f.kind.Request? && e'.reader.at == |e.got| && e'.runs == e.runs)
            && (e'.runs == e.runs ||
                (f.kind.Request? && e'.reader.Idle? && e'.runs == e.runs + [HandlerRun(|e.got|, f, None, Running)]))
  {
  }

  lemma WriteTraffic(e: Endpoint, step: WriterStep)
    requires TrafficOk(e) && CanWrite(e, step)
    ensures TrafficOk(DoWrite(e, step))
  {
    hide Outgoing, Served, Answered;
  }

  lemma CloseTraffic(e: Endpoint, step: CloserStep)
    requires TrafficOk(e) && CanClose(e, step)
    ensures TrafficOk(DoClose(e, step))
  {
    hide Outgoing, Served, Answered;
  }

  lemma GiveUpTraffic(e: Endpoint)
    requires TrafficOk(e)
    ensures TrafficOk(Mark(e.(reader := Gone)))
  {
    ReaderTraffic(e, Gone);
    hide Outgoing, Served, Answered;
  }

  // ----- everything together -----

  ghost predicate Sound(e: Endpoint) {
    TokensOk(e) && TrafficOk(e)
  }

  lemma TrafficStep(e: Endpoint, peer: Endpoint, step: Step)
    requires Sound(e) && Enabled(e, peer, step)
    ensures TrafficOk(After(e, peer, step))
  {
    hide TokensOk, TrafficOk, DoCall, DoAct, DoWrite, DoHandle, DoResume, DoClose, Digest;
    match step
    case Caller(c) => CallTraffic(e, c);
    case App(a) => ActTraffic(e, a);
    case Writer(w) => WriteTraffic(e, w);
    case Handler(k, h) => HandleTraffic(e, k, h);
    case Resume(r) => ResumeTraffic(e, r);
    case Closer(c) => CloseTraffic(e, c);
    case ReadFrame(allowed) =>
      if Takes(e, peer.wire[0]) {
        DigestTraffic(e, peer.wire[0], allowed);
      } else {
        GiveUpTraffic(e);
      }
  }

  lemma SoundStep(e: Endpoint, peer: Endpoint, step: Step)
    requires Sound(e) && Enabled(e, peer, step)
    ensures Sound(After(e, peer, step))
  {
    hide TrafficOk, TokensOk, After;
    TokensStep(e, peer, step);
    TrafficStep(e, peer, step);
  }

  // ----- the flow of frames -----

  /** What a step does to the outgoing path: nothing, one frame accepted, or one frame written. */
  ghost predicate MovesOut(e: Endpoint, e': Endpoint) {
    || (e'.sent == e.sent && e'.wire == e.wire && e'.queue == e.queue)
    || (|e'.sent| > 0 && e'.sent == e.sent + [e'.sent[|e'.sent| - 1]] && e'.wire == e.wire
        && e'.queue == e.queue + [e'.sent[|e'.sent| - 1]])
    || (e.queue != [] && e'.sent == e.sent && e'.wire == e.wire + [e.queue[0]] && e'.queue == e.queue[1..])
  }

  lemma StepMovesOut(e: Endpoint, peer: Endpoint, step: Step)
    requires Enabled(e, peer, step) && !step.ReadFrame?
    ensures MovesOut(e, After(e, peer, step)) && After(e, peer, step).got == e.got
  {
    hide MovesOut, DoCall, DoAct, DoWrite, DoHandle, DoResume, DoClose;
    match step
    case Caller(c) => CallMovesOut(e, c);
    case App(a) => ActMovesOut(e, a);
    case Writer(w) => WriteMovesOut(e, w);
    case Handler(k, h) => HandleMovesOut(e, k, h);
    case Resume(r) => ResumeMovesOut(e, r);
    case Closer(c) => CloseMovesOut(e, c);
  }

  lemma CallMovesOut(e: Endpoint, step: CallerStep)
    requires CanCall(e, step)
    ensures MovesOut(e, DoCall(e, step)) && DoCall(e, step).got == e.got
  {
    hide RequestFrame;
    match step
    case QueueRequest(_) => if QueueOpen(e) {}
    case Receive(t) => if e.ops.channels[t].buffer == [] {}
    case _ =>
  }

  lemma ActMovesOut(e: Endpoint, step: AppStep)
    requires CanAct(e, step)
    ensures MovesOut(e, DoAct(e, step)) && DoAct(e, step).got == e.got
  {
    match step
    case TryPing => if CanPush(e) {}
    case Notify(_, _) => if CanPush(e) {}
    case Close =>
  }

  lemma WriteMovesOut(e: Endpoint, step: WriterStep)
    requires CanWrite(e, step)
    ensures MovesOut(e, DoWrite(e, step)) && DoWrite(e, step).got == e.got
  {
    match step
    case WriteFrame =>
    case WriterExit =>
  }

  lemma HandleMovesOut(e: Endpoint, k: nat, step: HandlerStep)
    requires CanHandle(e, k, step)
    ensures MovesOut(e, DoHandle(e, k, step)) && DoHandle(e, k, step).got == e.got
  {
    match step
    case HandlerDone(_) =>
    case SendReply =>
    case SendReplyFails =>
    case SendRefusal =>
    case SendRefusalFails =>
  }

  lemma ResumeMovesOut(e: Endpoint, step: ReaderStep)
    requires CanResume(e, step)
    ensures MovesOut(e, DoResume(e, step)) && DoResume(e, step).got == e.got
  {
    match step
    case ReadFails =>
    case AnswerError => if e.reader.thenClose {}
    case AnswerErrorFails =>
    case SendResult =>
    case ApplyNotification =>
  }

  lemma CloseMovesOut(e: Endpoint, step: CloserStep)
    requires CanClose(e, step)
    ensures MovesOut(e, DoClose(e, step)) && DoClose(e, step).got == e.got
  {
  }

  lemma FlowsOut(e: Endpoint, e': Endpoint, to: Endpoint, got: seq<Frame>)
    requires Flows(e, to) && MovesOut(e, e') && to.got == got
    ensures e'.sent == got + e'.wire + e'.queue
  {
    if e'.queue != e.queue || e'.sent != e.sent {
      if e'.sent == e.sent {
        assert got + (e.wire + [e.queue[0]]) + e.queue[1..] == got + e.wire + ([e.queue[0]] + e.queue[1..]);
        assert e.queue == [e.queue[0]] + e.queue[1..];
      } else {
        var f := e'.sent[|e'.sent| - 1];
        assert (got + e.wire + e.queue) + [f] == got + e.wire + (e.queue + [f]);
      }
    }
  }

  lemma FlowsStep(e: Endpoint, peer: Endpoint, step: Step)
    requires Enabled(e, peer, step) && Flows(e, peer) && Flows(peer, e)
    ensures var e', peer' := After(e, peer, step), PeerAfter(e, peer, step);
            Flows(e', peer') && Flows(peer', e')
  {
    hide DoCall, DoAct, DoWrite, DoHandle, DoResume, DoClose, Digest, Mark, MovesOut;
    var e', peer' := After(e, peer, step), PeerAfter(e, peer, step);
    if !step.ReadFrame? {
      StepMovesOut(e, peer, step);
      FlowsOut(e, e', peer, peer.got);
    } else if Takes(e, peer.wire[0]) {
      var f := peer.wire[0];
      DigestIn(e, f, step.allowed);
      DigestOut(e, f, step.allowed);
      DigestMovesOut(e, f, step.allowed);
      FlowsOut(e, e', peer, peer.got);
      assert e.got + peer.wire + peer.queue == (e.got + [f]) + peer.wire[1..] + peer.queue;
    } else {
      GiveUpMovesOut(e);
      FlowsOut(e, e', peer, peer.got);
    }
  }

  lemma DigestMovesOut(e: Endpoint, f: Frame, allowed: bool)
    requires e.reader.Idle?
    ensures MovesOut(e, Digest(e, f, allowed))
  {
    hide Digest;
    DigestOut(e, f, allowed);
    if PongFor(e, f) == [] {
      assert e.sent + [] == e.sent && e.queue + [] == e.queue;
    }
  }

  lemma GiveUpMovesOut(e: Endpoint)
    ensures MovesOut(e, Mark(e.(reader := Gone))) && Mark(e.(reader := Gone)).got == e.got
  {
  }

  // ----- every reachable state -----

  ghost predicate SystemOk(s: System) {
    Sound(s.left) && Sound(s.right) && Flows(s.left, s.right) && Flows(s.right, s.left)
  }

  lemma SoundIgnoresWire(e: Endpoint, wire: seq<Frame>)
    requires Sound(e)
    ensures Sound(e.(wire := wire))
  {
    hide Outgoing, Served, Answered;
    forall t: Token ensures TokenOk(e.(wire := wire), t) {
      assert TokenOk(e, t);
      TokenFramed(e, e.(wire := wire), t);
    }
  }

  lemma SystemStep(s: System, m: Move)
    requires SystemOk(s) && CanMove(s, m)
    ensures SystemOk(Next(s, m))
  {
    hide Sound, Flows, After, Takes;
    var mine, peer := s.Mine(m.side), s.Peer(m.side);
    SoundStep(mine, peer, m.step);
    FlowsStep(mine, peer, m.step);
    if PeerAfter(mine, peer, m.step) != peer {
      SoundIgnoresWire(peer, peer.wire[1..]);
    }
  }

  lemma FreshSound(config: Config)
    ensures Sound(Fresh(config))
  {
    var e := Fresh(config);
    forall t: Token ensures TokenOk(e, t) {
    }
  }

  lemma {:induction false} RunOkAt(start: System, moves: seq<Move>, states: seq<System>, n: nat)
    requires Run(start, moves, states) && SystemOk(start) && n <= |moves|
    ensures SystemOk(states[n])
  {
    hide SystemOk, Next, CanMove;
    if n > 0 {
      RunOkAt(start, moves, states, n - 1);
      assert CanMove(states[n - 1], moves[n - 1]) && states[n] == Next(states[n - 1], moves[n - 1]);
      SystemStep(states[n - 1], moves[n - 1]);
    }
  }

  lemma ReachableOk(s: System)
    requires Reachable(s)
    ensures SystemOk(s)
  {
    hide Sound, Flows, Next, CanMove, Fresh;
    var left: Config, right: Config, moves, states :|
      Run(System(Fresh(left), Fresh(right)), moves, states) && states[|moves|] == s;
    FreshSound(left);
    FreshSound(right);
    FreshFlows(left, right);
    FreshFlows(right, left);
    RunOkAt(System(Fresh(left), Fresh(right)), moves, states, |moves|);
  }

  lemma FreshFlows(a: Config, b: Config)
    ensures Flows(Fresh(a), Fresh(b))
  {
  }

  lemma OneMoreMove(start: System, moves: seq<Move>, states: seq<System>, m: Move)
    requires Run(start, moves, states) && CanMove(states[|moves|], m)
    ensures Run(start, moves + [m], states + [Next(states[|moves|], m)])
  {
    hide CanMove, Next;
    var moves', states' := moves + [m], states + [Next(states[|moves|], m)];
    forall i | 0 <= i < |moves'| ensures CanMove(states'[i], moves'[i]) && states'[i + 1] == Next(states'[i], moves'[i]) {
      assert i < |moves| ==> CanMove(states[i], moves[i]) && states[i + 1] == Next(states[i], moves[i]);
    }
  }
}
