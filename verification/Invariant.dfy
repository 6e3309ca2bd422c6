/**
 What every step keeps. Each endpoint's own bookkeeping stays consistent
 whatever frames its peer sends, and between the two endpoints nothing is lost,
 duplicated or reordered.
 */
module Invariant {
  import opened Words
  import opened StringHash
  import opened Framing
  import opened AsyncOps
  import opened Protocol

  // ----- tokens and channels -----

  predicate Settled(phase: CallPhase) {
    phase.Returned? || phase == Failed(Remote)
  }

  predicate Issued(e: Endpoint, t: Token) {
    1 <= t < e.ops.next
  }

  /** A token is pending, taken by one reply or taken by the sweep, and never two of them. */
  ghost predicate Owned(e: Endpoint, t: Token) {
    && (t in e.calls <==> Issued(e, t))
    && (t in e.ops.channels <==> Issued(e, t))
    && (Issued(e, t) <==> t in e.ops.pending || t in e.completedBy || t in e.swept)
    && !(t in e.ops.pending && t in e.completedBy)
    && !(t in e.ops.pending && t in e.swept)
    && !(t in e.completedBy && t in e.swept)
    && (t in e.delivered ==> t in e.completedBy)
    && (t in e.sweeping ==> t in e.swept && e.teardown.Swept?)
    && (t in e.swept ==> PastSweep(e))
  }

  /** A channel holds a message only between its one delivery and its one receipt. */
  ghost predicate ChannelTells(e: Endpoint, t: Token)
    requires t in e.ops.channels && t in e.calls
  {
    var c, phase := e.ops.channels[t], e.calls[t].phase;
    && (t in e.ops.pending ==> c == Empty)
    && (t in e.swept ==> c.buffer == [] && c.closed == (t !in e.sweeping))
    && (t in e.completedBy ==> !c.closed)
    && (t in e.completedBy && t !in e.delivered ==> c.buffer == [] && e.reader.Completing? && e.reader.token == t)
    && (t in e.delivered ==> |c.buffer| == if Settled(phase) then 0 else 1)
    && (Settled(phase) ==> t in e.delivered)
  }

  /** The result of a call, wherever it is, is the result of the reply that took its token. */
  ghost predicate Traced(e: Endpoint, t: Token)
    requires t in e.ops.channels && t in e.calls && t in e.completedBy
  {
    var j, c, phase := e.completedBy[t], e.ops.channels[t], e.calls[t].phase;
    && j < |e.got| && IsReply(e.got[j]) && e.got[j].token == t
    && (e.reader.Completing? && e.reader.token == t ==> e.reader.result == ResultOf(e.got[j]))
    && (c.buffer != [] ==> c.buffer[0] == ResultOf(e.got[j]))
    && (Settled(phase) ==> phase == PhaseFor(ResultOf(e.got[j])))
  }

  ghost predicate TokenOk(e: Endpoint, t: Token) {
    && 1 <= e.ops.next <= TWO64
    && Owned(e, t)
    && (e.reader.Completing? && e.reader.token == t ==> t in e.completedBy && t !in e.delivered)
    && (Issued(e, t) ==> ChannelTells(e, t))
    && (Issued(e, t) && t in e.completedBy ==> Traced(e, t))
    // after the sweep no pending token has a caller waiting on it
    && (PastSweep(e) && t in e.ops.pending ==> e.calls[t].phase != Awaiting)
  }

  /**
   The second endpoint differs from the first only in parts that a token's
   bookkeeping does not look at; with its queue closed it has sent nothing more.
   */
  ghost predicate SameTokens(e: Endpoint, e': Endpoint) {
    && e'.config == e.config && e'.ops == e.ops && e'.calls == e.calls && e'.completedBy == e.completedBy
    && e'.delivered == e.delivered && e'.swept == e.swept && e'.sweeping == e.sweeping && e'.sweptAt == e.sweptAt
    && (e'.reader == e.reader || (!e'.reader.Completing? && !e.reader.Completing? && !e.reader.Gone?))
    && e.got <= e'.got && e.sent <= e'.sent && (QueueOpen(e) || e'.sent == e.sent)
    && (e'.teardown == e.teardown || (e.teardown.Open? && e'.teardown.Marked?))
  }

  lemma TokenFramed(e: Endpoint, e': Endpoint, t: Token)
    requires TokenOk(e, t) && SameTokens(e, e')
    ensures TokenOk(e', t)
  {
  }

  lemma TokenBegins(e: Endpoint, name: Name, request: Bytes, t: Token)
    requires TokenOk(e, t) && CanCall(e, BeginCall(name, request))
    ensures TokenOk(DoCall(e, BeginCall(name, request)), t)
  {
  }

  /** A call's phase may move on as long as it is settled on neither side and waits only while the queue is open. */
  lemma TokenPhase(e: Endpoint, u: Token, phase: CallPhase, t: Token)
    requires TokenOk(e, t) && u in e.calls
    requires !Settled(phase) && !Settled(e.calls[u].phase)
    requires phase == Awaiting ==> QueueOpen(e)
    ensures TokenOk(SetPhase(e, u, phase), t)
  {
  }

  lemma TokenReceives(e: Endpoint, u: Token, t: Token)
    requires TokenOk(e, t) && TokenOk(e, u) && CanCall(e, Receive(u))
    ensures TokenOk(DoCall(e, Receive(u)), t)
  {
  }

  lemma TokenSends(e: Endpoint, t: Token)
    requires TokenOk(e, t) && CanResume(e, SendResult)
    ensures TokenOk(DoResume(e, SendResult), t)
  {
  }

  lemma TokenCloses(e: Endpoint, step: CloserStep, t: Token)
    requires TokenOk(e, t) && CanClose(e, step)
    ensures TokenOk(DoClose(e, step), t)
  {
  }

  lemma TokenCompleted(e: Endpoint, f: Frame, allowed: bool, t: Token)
    requires TokenOk(e, t) && e.reader.Idle? && Resolves(e, f)
    ensures TokenOk(Digest(e, f, allowed), t)
  {
  }

  lemma TokenCalls(e: Endpoint, step: CallerStep, t: Token)
    requires TokenOk(e, t) && CanCall(e, step) && (step.Receive? ==> TokenOk(e, step.token))
    ensures TokenOk(DoCall(e, step), t)
  {
    hide TokenOk, RequestFrame;
    match step
    case BeginCall(name, request) => TokenBegins(e, name, request, t);
    case QueueRequest(u) =>
      if QueueOpen(e) {
        var pushed := Push(e, RequestFrame(e.config, u, e.calls[u]));
        TokenFramed(e, pushed, t);
        TokenPhase(pushed, u, Awaiting, t);
      } else {
        TokenPhase(e, u, Failed(QueueClosed), t);
      }
    case Receive(u) => TokenReceives(e, u, t);
    case Timeout(u) => TokenPhase(e, u, Failed(TimedOut), t);
  }

  lemma DigestSameTokens(e: Endpoint, f: Frame, allowed: bool)
    requires e.reader.Idle? && !Resolves(e, f)
    ensures SameTokens(e, Digest(e, f, allowed))
  {
  }

  lemma ActSameTokens(e: Endpoint, step: AppStep)
    requires CanAct(e, step)
    ensures SameTokens(e, DoAct(e, step))
  {
    match step
    case TryPing => if CanPush(e) {}
    case Notify(_, _) => if CanPush(e) {}
    case Close =>
  }

  lemma HandleSameTokens(e: Endpoint, k: nat, step: HandlerStep)
    requires CanHandle(e, k, step)
    ensures SameTokens(e, DoHandle(e, k, step))
  {
  }

  lemma ResumeSameTokens(e: Endpoint, step: ReaderStep)
    requires CanResume(e, step) && !step.SendResult?
    ensures SameTokens(e, DoResume(e, step))
  {
    match step
    case ReadFails =>
    case AnswerError => if e.reader.thenClose {}
    case AnswerErrorFails =>
    case ApplyNotification =>
  }

  ghost predicate TokensOk(e: Endpoint) {
    forall t: Token :: TokenOk(e, t)
  }

  lemma WriteSameTokens(e: Endpoint, step: WriterStep)
    requires CanWrite(e, step)
    ensures SameTokens(e, DoWrite(e, step))
  {
  }

  lemma GiveUpSameTokens(e: Endpoint)
    requires e.reader.Idle?
    ensures SameTokens(e, Mark(e.(reader := Gone)))
  {
  }

  /** Steps that take no token and give none out. */
  predicate Aside(e: Endpoint, peer: Endpoint, step: Step) {
    || step.App? || step.Writer? || step.Handler?
    || (step.Resume? && !step.resume.SendResult?)
    || (step.ReadFrame? && peer.wire != [] && !(Takes(e, peer.wire[0]) && Resolves(e, peer.wire[0])))
  }

  lemma AsideStep(e: Endpoint, peer: Endpoint, step: Step)
    requires Enabled(e, peer, step) && Aside(e, peer, step)
    ensures SameTokens(e, After(e, peer, step))
  {
    hide SameTokens, DoAct, DoWrite, DoHandle, DoResume, Digest;
    match step
    case App(a) => ActSameTokens(e, a);
    case Writer(w) => WriteSameTokens(e, w);
    case Handler(k, h) => HandleSameTokens(e, k, h);
    case Resume(r) => ResumeSameTokens(e, r);
    case ReadFrame(allowed) =>
      if Takes(e, peer.wire[0]) {
        DigestSameTokens(e, peer.wire[0], allowed);
      } else {
        GiveUpSameTokens(e);
      }
  }

  /** What a caller's step touches: its own call and channel, the token counter, and the queue while it is open. */
  lemma CallFrame(e: Endpoint, step: CallerStep)
    requires CanCall(e, step)
    ensures var e' := DoCall(e, step);
            var t := if step.BeginCall? then e.ops.next else step.token;
            && e' == e.(ops := e'.ops, calls := e'.calls, queue := e'.queue, sent := e'.sent)
            && e'.ops.next == e.ops.next + (if step.BeginCall? then 1 else 0)
            && e'.ops.pending == e.ops.pending + (if step.BeginCall? then {t} else {})
            && e.sent <= e'.sent && (QueueOpen(e) || e'.sent == e.sent)
            && e'.calls.Keys == e.calls.Keys + {t} && e'.ops.channels.Keys == e.ops.channels.Keys + (if step.BeginCall? then {t} else {})
            && (forall u :: u in e.calls && u != t ==> e'.calls[u] == e.calls[u])
            && (forall u :: u in e.ops.channels && u != t ==> e'.ops.channels[u] == e.ops.channels[u])
            && (!step.BeginCall? ==> e'.calls[t] == e.calls[t].(phase := e'.calls[t].phase))
  {
    hide RequestFrame;
    match step {
      case QueueRequest(_) => if QueueOpen(e) {}
      case Receive(u) => if e.ops.channels[u].buffer == [] {}
      case _ =>
    }
  }

  /** No other coroutine touches the calls. */
  lemma OnlyCallersCall(e: Endpoint, peer: Endpoint, step: Step)
    requires Enabled(e, peer, step) && !step.Caller?
    ensures After(e, peer, step).calls == e.calls
  {
    if Aside(e, peer, step) {
      AsideStep(e, peer, step);
      hide After;
    }
  }

  lemma TokenStep(e: Endpoint, peer: Endpoint, step: Step, t: Token)
    requires TokensOk(e) && Enabled(e, peer, step)
    ensures TokenOk(After(e, peer, step), t)
  {
    hide TokenOk, SameTokens, DoCall, DoAct, DoWrite, DoHandle, DoResume, DoClose, Digest;
    assert TokenOk(e, t);
    if Aside(e, peer, step) {
      AsideStep(e, peer, step);
      TokenFramed(e, After(e, peer, step), t);
    } else {
      match step
      case Caller(c) => TokenCalls(e, c, t);
      case Resume(_) => TokenSends(e, t);
      case Closer(c) => TokenCloses(e, c, t);
      case ReadFrame(allowed) => TokenCompleted(e, peer.wire[0], allowed, t);
    }
  }

  lemma TokensStep(e: Endpoint, peer: Endpoint, step: Step)
    requires TokensOk(e) && Enabled(e, peer, step)
    ensures TokensOk(After(e, peer, step))
  {
    forall t: Token ensures TokenOk(After(e, peer, step), t) {
      TokenStep(e, peer, step, t);
    }
  }
}
