/**
 Once the applications stop starting calls, notifications and pings, the
 protocol comes to rest: every step uses up some of a finite amount of work.
 */
module Quiescence {
  import opened Words
  import opened StringHash
  import opened Framing
  import opened AsyncOps
  import opened Protocol
  import opened Invariant
  import opened Traffic
  import opened Soundness

  /** The most a frame on the wire can still cause; a pong, a reply or a nop causes nothing further. */
  function FrameWeight(k: Kind): nat {
    match k
    case Nop => 1
    case Pong => 1
    case Ping => 3
    case Notification => 2
    case Response => 2
    case Error => 2
    case Request => 7
  }

  function WireWork(fs: seq<Frame>): nat {
    if fs == [] then 0 else WireWork(fs[..|fs| - 1]) + FrameWeight(fs[|fs| - 1].kind)
  }

  function RunWeight(phase: RunPhase): nat {
    match phase
    case Running => 6
    case Replying => 5
    case Refusing => 4
    case Finished => 0
  }

  function RunWork(runs: seq<HandlerRun>): nat {
    if runs == [] then 0 else RunWork(runs[..|runs| - 1]) + RunWeight(runs[|runs| - 1].phase)
  }

  function CallWeight(phase: CallPhase): nat {
    match phase
    case Registered => 10
    case Awaiting => 1
    case _ => 0
  }

  /** The work of the calls with tokens below n. */
  function CallWork(calls: map<Token, Call>, n: nat): nat {
    if n == 0 then 0
    else CallWork(calls, n - 1) + if n - 1 in calls then CallWeight(calls[n - 1].phase) else 0
  }

  function ReaderWeight(r: Reader): nat {
    match r
    case Gone => 0
    case Idle => 1
    case Completing(_, _) => 2
    case Answering(_, _) => 5
  }

  function TeardownWeight(t: Teardown): nat {
    match t
    case Open => 5
    case Marked => 4
    case QueueShut => 3
    case Swept => 2
    case StreamShut => 1
  }

  function Work(e: Endpoint): nat {
    CallWork(e.calls, e.ops.next) + RunWork(e.runs)
    + WireWork(e.queue) + |e.queue| + WireWork(e.wire) + |e.strand|
    + |e.ops.pending| + |e.sweeping|
    + TeardownWeight(e.teardown) + ReaderWeight(e.reader) + (if e.writing then 1 else 0)
  }

  lemma WirePush(fs: seq<Frame>, f: Frame)
    ensures WireWork(fs + [f]) == WireWork(fs) + FrameWeight(f.kind)
  {
    assert (fs + [f])[..|fs|] == fs;
  }

  lemma {:induction false} WirePop(fs: seq<Frame>)
    requires fs != []
    ensures WireWork(fs) == FrameWeight(fs[0].kind) + WireWork(fs[1..])
  {
    if |fs| > 1 {
      WirePop(fs[..|fs| - 1]);
      assert fs[..|fs| - 1][1..] == fs[1..][..|fs| - 2];
    }
  }

  lemma {:induction false} RunUpdate(runs: seq<HandlerRun>, k: nat, run: HandlerRun)
    requires k < |runs|
    ensures RunWork(runs[k := run]) + RunWeight(runs[k].phase) == RunWork(runs) + RunWeight(run.phase)
  {
    var n := |runs| - 1;
    if k < n {
      RunUpdate(runs[..n], k, run);
      assert runs[k := run][..n] == runs[..n][k := run];
    } else {
      assert runs[k := run][..n] == runs[..n];
    }
  }

  lemma RunPush(runs: seq<HandlerRun>, run: HandlerRun)
    ensures RunWork(runs + [run]) == RunWork(runs) + RunWeight(run.phase)
  {
    assert (runs + [run])[..|runs|] == runs;
  }

  lemma {:induction false} CallUpdate(calls: map<Token, Call>, t: Token, call: Call, n: nat)
    requires t in calls
    ensures CallWork(calls[t := call], n) + (if t < n then CallWeight(calls[t].phase) else 0)
            == CallWork(calls, n) + (if t < n then CallWeight(call.phase) else 0)
  {
    if n > 0 {
      CallUpdate(calls, t, call, n - 1);
    }
  }

  // ----- each coroutine's steps -----

  lemma PhaseWork(e: Endpoint, t: Token, phase: CallPhase)
    requires t in e.calls && t < e.ops.next
    ensures Work(SetPhase(e, t, phase)) + CallWeight(e.calls[t].phase) == Work(e) + CallWeight(phase)
  {
    CallUpdate(e.calls, t, e.calls[t].(phase := phase), e.ops.next);
  }

  lemma PushWork(e: Endpoint, f: Frame)
    ensures Work(Push(e, f)) == Work(e) + FrameWeight(f.kind) + 1
  {
    WirePush(e.queue, f);
  }

  lemma CallWorks(e: Endpoint, step: CallerStep)
    requires CanCall(e, step) && !step.BeginCall? && TokenOk(e, step.token)
    ensures Work(DoCall(e, step)) < Work(e)
  {
    var t := step.token;
    assert t < e.ops.next;
    hide TokenOk, Work, RequestFrame;
    match step
    case QueueRequest(_) =>
      if QueueOpen(e) {
        var f := RequestFrame(e.config, t, e.calls[t]);
        RequestFrameKind(e.config, t, e.calls[t]);
        PushWork(e, f);
        PhaseWork(Push(e, f), t, Awaiting);
      } else {
        PhaseWork(e, t, Failed(QueueClosed));
      }
    case Receive(_) =>
      var channel := e.ops.channels[t];
      if channel.buffer == [] {
        PhaseWork(e, t, Failed(ChannelClosed));
      } else {
        var popped := e.(ops := e.ops.(channels := e.ops.channels[t := channel.(buffer := channel.buffer[1..])]));
        ChannelsWeighNothing(e, popped.ops);
        PhaseWork(popped, t, PhaseFor(channel.buffer[0]));
      }
    case Timeout(_) => PhaseWork(e, t, Failed(TimedOut));
  }

  lemma ChannelsWeighNothing(e: Endpoint, ops: Ops)
    requires ops.next == e.ops.next && ops.pending == e.ops.pending
    ensures Work(e.(ops := ops)) == Work(e)
  {
  }

  lemma WriteWorks(e: Endpoint, step: WriterStep)
    requires CanWrite(e, step)
    ensures Work(DoWrite(e, step)) < Work(e)
  {
    match step
    case WriteFrame =>
      WirePop(e.queue);
      WirePush(e.wire, e.queue[0]);
    case WriterExit =>
  }

  lemma RunWorks(e: Endpoint, k: nat, run: HandlerRun)
    requires k < |e.runs|
    ensures Work(SetRun(e, k, run)) + RunWeight(e.runs[k].phase) == Work(e) + RunWeight(run.phase)
  {
    RunUpdate(e.runs, k, run);
  }

  lemma AnswerWork(e: Endpoint, f: Frame, o: Origin)
    ensures Work(Answer(e, f, o)) == Work(e) + FrameWeight(f.kind) + 1
  {
    WirePush(e.queue, f);
  }

  lemma HandleWorks(e: Endpoint, k: nat, step: HandlerStep)
    requires CanHandle(e, k, step)
    ensures Work(DoHandle(e, k, step)) < Work(e)
  {
    hide Work;
    var run := e.runs[k];
    match step
    case HandlerDone(output) =>
      RunWorks(e, k, run.(output := output, phase := if output.Some? then Replying else Refusing));
    case SendReply =>
      var f, o := ReplyTo(run.request, Response, run.output.value), Origin(run.at, Some(k));
      AnswerWork(e, f, o);
      RunWorks(Answer(e, f, o), k, run.(phase := Finished));
    case SendReplyFails => RunWorks(e, k, run.(phase := Refusing));
    case SendRefusal =>
      var f, o := ReplyTo(run.request, Error, []), Origin(run.at, None);
      AnswerWork(e, f, o);
      RunWorks(Answer(e, f, o), k, run.(phase := Finished));
    case SendRefusalFails => RunWorks(e, k, run.(phase := Finished));
  }

  lemma ReaderWork(e: Endpoint, reader: Reader)
    ensures Work(e.(reader := reader)) + ReaderWeight(e.reader) == Work(e) + ReaderWeight(reader)
  {
  }

  lemma MarkWork(e: Endpoint)
    ensures Work(Mark(e)) <= Work(e)
    ensures e.teardown.Open? ==> Work(Mark(e)) < Work(e)
  {
  }

  lemma ResumeWorks(e: Endpoint, step: ReaderStep)
    requires CanResume(e, step)
    ensures Work(DoResume(e, step)) < Work(e)
  {
    match step
    case ReadFails =>
    case AnswerError =>
      var f, o := ReplyTo(e.got[e.reader.at], Error, []), Origin(e.reader.at, None);
      AnswerWork(e, f, o);
      ReaderWork(Answer(e, f, o), if e.reader.thenClose then Gone else Idle);
      MarkWork(Answer(e, f, o).(reader := Gone));
      assert e.reader.thenClose ==> DoResume(e, step) == Mark(Answer(e, f, o).(reader := Gone));
    case AnswerErrorFails =>
    case SendResult =>
    case ApplyNotification =>
  }

  lemma CloseWorks(e: Endpoint, step: CloserStep)
    requires CanClose(e, step)
    ensures Work(DoClose(e, step)) < Work(e)
  {
    match step
    case CloseChannel(t) =>
      assert |e.sweeping - {t}| == |e.sweeping| - 1;
    case _ =>
  }

  lemma DigestWorks(e: Endpoint, f: Frame, allowed: bool)
    requires e.reader.Idle?
    ensures Work(Digest(e, f, allowed)) < Work(e) + FrameWeight(f.kind)
  {
    hide WireWork, RunWork, CallWork;
    WirePush(e.queue, PONG);
    assert e.queue + [] == e.queue;
    RunPush(e.runs, HandlerRun(|e.got|, f, None, Running));
    if Resolves(e, f) {
      assert |e.ops.pending - {f.token}| == |e.ops.pending| - 1;
    }
  }

  // ----- both endpoints -----

  /** Steps by which an application, or a handler acting for it, starts something new. */
  predicate Starts(step: Step) {
    (step.Caller? && step.caller.BeginCall?) || (step.App? && !step.app.Close?)
  }

  function Total(s: System): nat {
    Work(s.left) + Work(s.right)
  }

  /** Every other step strictly uses up work. */
  lemma StepWorks(e: Endpoint, peer: Endpoint, step: Step)
    requires Enabled(e, peer, step) && !Starts(step) && TokensOk(e)
    ensures Work(After(e, peer, step)) + Work(PeerAfter(e, peer, step)) < Work(e) + Work(peer)
  {
    hide Work, TokenOk, DoCall, DoWrite, DoHandle, DoResume, DoClose, Digest;
    match step
    case Caller(c) =>
      assert TokenOk(e, c.token);
      CallWorks(e, c);
    case App(a) => MarkWork(e);
    case Writer(w) => WriteWorks(e, w);
    case Handler(k, h) => HandleWorks(e, k, h);
    case Resume(r) => ResumeWorks(e, r);
    case Closer(c) => CloseWorks(e, c);
    case ReadFrame(allowed) =>
      if Takes(e, peer.wire[0]) {
        DigestWorks(e, peer.wire[0], allowed);
        ReadWork(peer);
      } else {
        ReaderWork(e, Gone);
        MarkWork(e.(reader := Gone));
      }
  }

  lemma ReadWork(peer: Endpoint)
    requires peer.wire != []
    ensures Work(peer.(wire := peer.wire[1..])) + FrameWeight(peer.wire[0].kind) == Work(peer)
  {
    WirePop(peer.wire);
  }

  /**
   From any sound state, a run in which nothing new is started has at most as
   many moves as the state has work: pings and pongs cannot go on for ever.
   */
  lemma {:induction false} QuietRunsEnd(start: System, moves: seq<Move>, states: seq<System>, n: nat)
    requires Run(start, moves, states) && SystemOk(start) && n <= |moves|
    requires forall i :: 0 <= i < |moves| ==> !Starts(moves[i].step)
    ensures n + Total(states[n]) <= Total(start)
  {
    hide SystemOk, Work, Enabled, After, PeerAfter, Starts;
    if n > 0 {
      QuietRunsEnd(start, moves, states, n - 1);
      RunOkAt(start, moves, states, n - 1);
      var s, m := states[n - 1], moves[n - 1];
      assert CanMove(s, m) && states[n] == Next(s, m);
      MineTokensOk(s, m.side);
      StepWorks(s.Mine(m.side), s.Peer(m.side), m.step);
    }
  }

  /** In every reachable state a step that starts nothing new uses up work, and at most Total of them can follow. */
  lemma QuietFromReachable(s: System, moves: seq<Move>, states: seq<System>)
    requires Reachable(s) && Run(s, moves, states)
    requires forall i :: 0 <= i < |moves| ==> !Starts(moves[i].step)
    ensures |moves| <= Total(s)
    ensures forall i :: 0 <= i < |moves| ==> Total(states[i + 1]) < Total(states[i])
  {
    hide SystemOk, Work, Enabled, After, PeerAfter, Starts, Reachable;
    ReachableOk(s);
    QuietRunsEnd(s, moves, states, |moves|);
    forall i | 0 <= i < |moves| ensures Total(states[i + 1]) < Total(states[i]) {
      RunOkAt(s, moves, states, i);
      MineTokensOk(states[i], moves[i].side);
      StepWorks(states[i].Mine(moves[i].side), states[i].Peer(moves[i].side), moves[i].step);
    }
  }

  lemma MineTokensOk(s: System, side: Side)
    requires SystemOk(s)
    ensures TokensOk(s.Mine(side))
  {
    hide TokensOk, TrafficOk, Flows;
  }
}
