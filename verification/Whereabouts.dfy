/**
 Where a call is. While both sessions are open, a call that is awaited is in
 exactly one place, and from every place but one something can still move it on:
 a request is lost only when its handler cannot even queue an error reply.
 */
module Whereabouts {
  import opened Words
  import opened StringHash
  import opened Framing
  import opened AsyncOps
  import opened Protocol
  import opened Invariant
  import opened Traffic
  import opened Soundness
  import Guarantees
  import Quiescence

  // ----- what an open endpoint owes -----

  /** The request at a position has a handler, is being declined by the reader, or has been answered. */
  ghost predicate AttendedAt(e: Endpoint, i: nat) {
    || (exists k :: 0 <= k < |e.runs| && e.runs[k].at == i)
    || (e.reader.Answering? && e.reader.at == i)
    || (exists j :: j in e.origin && e.origin[j].at == i)
  }

  ghost predicate Attended(e: Endpoint) {
    e.teardown.Open? ==> forall i :: 0 <= i < |e.got| && e.got[i].kind.Request? ==> AttendedAt(e, i)
  }

  ghost predicate SentFor(sent: seq<Frame>, t: Token) {
    exists i :: 0 <= i < |sent| && sent[i].kind.Request? && sent[i].token == t
  }

  ghost predicate AwaitedSent(e: Endpoint) {
    forall t :: InPhase(e, t, Awaiting) ==> SentFor(e.sent, t)
  }

  /** A reply that was read has taken its token, or found it taken. */
  ghost predicate RepliesTaken(e: Endpoint) {
    forall j :: 0 <= j < |e.got| && IsReply(e.got[j]) ==> e.got[j].token in e.calls && e.got[j].token !in e.ops.pending
  }

  /** The coroutines of an open session are running. */
  predicate Alert(e: Endpoint) {
    e.teardown.Open? ==> e.writing && !e.reader.Gone?
  }

  ghost predicate Diligent(e: Endpoint) {
    Attended(e) && AwaitedSent(e) && RepliesTaken(e) && Alert(e)
  }

  // ----- every step keeps it -----

  /** The second endpoint has served as the first has, and its coroutines are still at it while it is open. */
  ghost predicate SameService(e: Endpoint, e': Endpoint) {
    && e'.runs == e.runs && e'.origin == e.origin && e'.got == e.got
    && (e'.teardown.Open? ==>
          && e.teardown.Open? && e'.writing == e.writing
          && (e'.reader == e.reader || (!e.reader.Answering? && !e'.reader.Gone?)))
  }

  /** Steps that neither read a frame nor are part of serving one. */
  predicate LeavesService(e: Endpoint, peer: Endpoint, step: Step) {
    && !step.Handler? && step != Resume(AnswerError)
    && !(step.ReadFrame? && peer.wire != [] && Takes(e, peer.wire[0]))
  }

  lemma ServiceLeft(e: Endpoint, peer: Endpoint, step: Step)
    requires Enabled(e, peer, step) && LeavesService(e, peer, step)
    ensures SameService(e, After(e, peer, step))
  {
    hide DoCall, DoAct, DoHandle, DoResume, Digest;
    match step
    case Caller(c) => CallFrame(e, c);
    case App(a) => AppLeavesService(e, a);
    case Resume(r) => ReaderLeavesService(e, r);
    case _ =>
  }

  lemma AppLeavesService(e: Endpoint, step: AppStep)
    requires CanAct(e, step)
    ensures SameService(e, DoAct(e, step))
  {
  }

  lemma ReaderLeavesService(e: Endpoint, step: ReaderStep)
    requires CanResume(e, step) && !step.AnswerError?
    ensures SameService(e, DoResume(e, step))
  {
  }

  lemma HandleAttends(e: Endpoint, k: nat, step: HandlerStep)
    requires CanHandle(e, k, step) && Attended(e) && Alert(e) && TrafficOk(e)
    ensures Attended(DoHandle(e, k, step)) && Alert(DoHandle(e, k, step))
  {
    hide Outgoing, Served, Notified, OriginOk;
    var e' := DoHandle(e, k, step);
    assert forall j :: j in e.origin ==> j in e'.origin && e'.origin[j] == e.origin[j];
    forall i | AttendedAt(e, i) ensures AttendedAt(e', i) {
      if m :| 0 <= m < |e.runs| && e.runs[m].at == i {
        assert e'.runs[m].at == i;
      }
    }
  }

  lemma AnswerAttends(e: Endpoint)
    requires CanResume(e, AnswerError) && Attended(e) && Alert(e) && TrafficOk(e)
    ensures Attended(DoResume(e, AnswerError)) && Alert(DoResume(e, AnswerError))
  {
    hide DoResume, TrafficOk, Attended;
    AnswerTouches(e);
    NextIsUnanswered(e);
    OneMoreAnswer(e, DoResume(e, AnswerError), |e.sent|, Origin(e.reader.at, None));
  }

  lemma OneMoreAnswer(e: Endpoint, e': Endpoint, n: nat, o: Origin)
    requires Attended(e) && e'.runs == e.runs && e'.got == e.got && n !in e.origin && e'.origin == e.origin[n := o]
    requires e.reader.Answering? && o.at == e.reader.at && (e'.teardown.Open? ==> e.teardown.Open?)
    ensures Attended(e')
  {
    assert e'.origin[n].at == e.reader.at;
    forall i | AttendedAt(e, i) ensures AttendedAt(e', i) {
      if j :| j in e.origin && e.origin[j].at == i {
        assert e'.origin[j] == e.origin[j];
      }
    }
  }

  lemma DigestAttends(e: Endpoint, f: Frame, allowed: bool)
    requires Attended(e) && Alert(e) && e.reader.Idle?
    ensures Attended(Digest(e, f, allowed)) && Alert(Digest(e, f, allowed))
  {
    var e' := Digest(e, f, allowed);
    forall i | e.teardown.Open? && 0 <= i < |e'.got| && e'.got[i].kind.Request? ensures AttendedAt(e', i) {
      if i < |e.got| {
        assert AttendedAt(e, i);
        if k :| 0 <= k < |e.runs| && e.runs[k].at == i {
          assert e'.runs[k] == e.runs[k];
        }
      } else if Serves(e, f, allowed) {
        assert e'.runs[|e.runs|].at == i;
      }
    }
  }

  lemma AttendedStep(e: Endpoint, peer: Endpoint, step: Step)
    requires TrafficOk(e) && Enabled(e, peer, step) && Attended(e) && Alert(e)
    ensures Attended(After(e, peer, step)) && Alert(After(e, peer, step))
  {
    hide TrafficOk, AttendedAt, DoCall, DoAct, DoWrite, DoHandle, DoResume, DoClose, Digest, Takes;
    if LeavesService(e, peer, step) {
      ServiceLeft(e, peer, step);
      SameAttention(e, After(e, peer, step));
    } else {
      match step
      case Handler(k, h) => HandleAttends(e, k, h);
      case Resume(_) => AnswerAttends(e);
      case ReadFrame(allowed) => DigestAttends(e, peer.wire[0], allowed);
    }
  }

  lemma SameAttention(e: Endpoint, e': Endpoint)
    requires SameService(e, e') && Attended(e) && Alert(e)
    ensures Attended(e') && Alert(e')
  {
    assert e'.teardown.Open? ==> forall i :: AttendedAt(e, i) ==> AttendedAt(e', i);
  }

  lemma SentLonger(sent: seq<Frame>, sent': seq<Frame>, t: Token)
    requires SentFor(sent, t) && sent <= sent'
    ensures SentFor(sent', t)
  {
    var i :| 0 <= i < |sent| && sent[i].kind.Request? && sent[i].token == t;
    assert sent'[i] == sent[i];
  }

  lemma CallSends(e: Endpoint, step: CallerStep, t: Token)
    requires CanCall(e, step) && AwaitedSent(e) && InPhase(DoCall(e, step), t, Awaiting)
    ensures SentFor(DoCall(e, step).sent, t)
  {
    CallFrame(e, step);
    if InPhase(e, t, Awaiting) {
      SentLonger(e.sent, DoCall(e, step).sent, t);
    } else {
      assert step == QueueRequest(t) && QueueOpen(e);
      var f := RequestFrame(e.config, t, e.calls[t]);
      assert (e.sent + [f])[|e.sent|] == f;
    }
  }

  /** Callers apart, steps leave the calls alone, only add to what was sent, and take tokens out of the pending map. */
  lemma OthersGrow(e: Endpoint, peer: Endpoint, step: Step)
    requires Enabled(e, peer, step) && !step.Caller?
    ensures var e' := After(e, peer, step);
            && e'.calls == e.calls && e.sent <= e'.sent && e'.ops.pending <= e.ops.pending
            && (!step.ReadFrame? ==> e'.got == e.got)
  {
    hide DoAct, DoWrite, DoHandle, DoResume, DoClose, Digest;
    OnlyCallersCall(e, peer, step);
    if !step.ReadFrame? {
      StepMovesOut(e, peer, step);
    }
    if Aside(e, peer, step) {
      AsideStep(e, peer, step);
      hide After;
    } else {
      match step
      case Resume(_) => SendGrows(e);
      case Closer(c) => CloseGrows(e, c);
      case ReadFrame(allowed) => DigestGrows(e, peer.wire[0], allowed);
    }
  }

  lemma SendGrows(e: Endpoint)
    requires CanResume(e, SendResult)
    ensures DoResume(e, SendResult).ops.pending == e.ops.pending && DoResume(e, SendResult).sent == e.sent
  {
  }

  lemma CloseGrows(e: Endpoint, step: CloserStep)
    requires CanClose(e, step)
    ensures DoClose(e, step).ops.pending <= e.ops.pending && DoClose(e, step).sent == e.sent
  {
  }

  lemma DigestGrows(e: Endpoint, f: Frame, allowed: bool)
    ensures Digest(e, f, allowed).ops.pending <= e.ops.pending && e.sent <= Digest(e, f, allowed).sent
  {
  }

  lemma CallerSends(e: Endpoint, step: CallerStep)
    requires CanCall(e, step) && AwaitedSent(e) && RepliesTaken(e) && e.ops.next !in e.calls
    ensures AwaitedSent(DoCall(e, step)) && RepliesTaken(DoCall(e, step))
  {
    var e' := DoCall(e, step);
    CallFrame(e, step);
    forall t | InPhase(e', t, Awaiting) ensures SentFor(e'.sent, t) {
      CallSends(e, step, t);
    }
    hide DoCall, SentFor;
  }

  lemma StillSent(e: Endpoint, e': Endpoint)
    requires AwaitedSent(e) && e'.calls == e.calls && e.sent <= e'.sent
    ensures AwaitedSent(e')
  {
    forall t | InPhase(e', t, Awaiting) ensures SentFor(e'.sent, t) {
      assert InPhase(e, t, Awaiting);
      SentLonger(e.sent, e'.sent, t);
    }
  }

  lemma DigestTakes(e: Endpoint, f: Frame, allowed: bool)
    requires RepliesTaken(e) && (IsReply(f) ==> f.token in e.calls)
    ensures RepliesTaken(Digest(e, f, allowed))
  {
  }

  lemma CallsStep(e: Endpoint, peer: Endpoint, step: Step)
    requires Sound(e) && Sound(peer) && Flows(e, peer) && Flows(peer, e)
    requires Enabled(e, peer, step) && AwaitedSent(e) && RepliesTaken(e)
    ensures AwaitedSent(After(e, peer, step)) && RepliesTaken(After(e, peer, step))
  {
    NextIsNew(e);
    hide Sound, Flows, AwaitedSent, RepliesTaken, DoCall, DoAct, DoWrite, DoHandle, DoResume, DoClose, Digest, Takes;
    if step.Caller? {
      CallerSends(e, step.caller);
    } else {
      OthersGrow(e, peer, step);
      StillSent(e, After(e, peer, step));
      if !step.ReadFrame? {
        StillTaken(e, After(e, peer, step));
      } else if Takes(e, peer.wire[0]) {
        if IsReply(peer.wire[0]) {
          ReplyAskedFor(e, peer);
        }
        DigestTakes(e, peer.wire[0], step.allowed);
      } else {
        StillTaken(e, Mark(e.(reader := Gone)));
      }
    }
  }

  lemma StillTaken(e: Endpoint, e': Endpoint)
    requires RepliesTaken(e) && e'.calls == e.calls && e'.got == e.got && e'.ops.pending <= e.ops.pending
    ensures RepliesTaken(e')
  {
  }

  /** A reply on its way was asked for. */
  lemma ReplyAskedFor(e: Endpoint, peer: Endpoint)
    requires Sound(e) && Sound(peer) && Flows(e, peer) && Flows(peer, e) && peer.wire != [] && IsReply(peer.wire[0])
    ensures peer.wire[0].token in e.calls
  {
    hide Sound;
    var j := |e.got|;
    assert peer.sent[j] == peer.wire[0];
    Guarantees.ReplyOrigin(peer, j);
    var i := peer.origin[j].at;
    Guarantees.ReadAsSent(e, peer, i);
    Guarantees.RequestIsCalls(e, i);
  }

  lemma DiligentStep(e: Endpoint, peer: Endpoint, step: Step)
    requires Sound(e) && Sound(peer) && Flows(e, peer) && Flows(peer, e)
    requires Enabled(e, peer, step) && Diligent(e)
    ensures Diligent(After(e, peer, step))
  {
    hide Flows, TokensOk, TrafficOk, After, Attended, AwaitedSent, RepliesTaken;
    AttendedStep(e, peer, step);
    CallsStep(e, peer, step);
  }

  lemma PeerDiligent(e: Endpoint, peer: Endpoint, step: Step)
    requires Enabled(e, peer, step) && Diligent(peer)
    ensures Diligent(PeerAfter(e, peer, step))
  {
    var peer' := PeerAfter(e, peer, step);
    SameAttention(peer, peer');
    forall t | InPhase(peer', t, Awaiting) ensures SentFor(peer'.sent, t) {
      assert InPhase(peer, t, Awaiting);
    }
  }

  // ----- every reachable state -----

  lemma FreshDiligent(config: Config)
    ensures Diligent(Fresh(config))
  {
  }

  lemma {:induction false} DiligentAt(left: Config, right: Config, moves: seq<Move>, states: seq<System>, n: nat)
    requires Run(System(Fresh(left), Fresh(right)), moves, states) && n <= |moves|
    ensures SystemOk(states[n]) && Diligent(states[n].left) && Diligent(states[n].right)
  {
    hide Sound, Flows, Diligent, After, PeerAfter, Enabled, Fresh;
    FreshSound(left);
    FreshSound(right);
    FreshFlows(left, right);
    FreshFlows(right, left);
    RunOkAt(System(Fresh(left), Fresh(right)), moves, states, n);
    if n == 0 {
      FreshDiligent(left);
      FreshDiligent(right);
    } else {
      DiligentAt(left, right, moves, states, n - 1);
      var s, m := states[n - 1], moves[n - 1];
      assert CanMove(s, m) && states[n] == Next(s, m);
      DiligentStep(s.Mine(m.side), s.Peer(m.side), m.step);
      PeerDiligent(s.Mine(m.side), s.Peer(m.side), m.step);
    }
  }

  lemma BothDiligent(s: System, side: Side)
    requires Reachable(s)
    ensures Sound(s.Mine(side)) && Sound(s.Peer(side))
    ensures Flows(s.Mine(side), s.Peer(side)) && Flows(s.Peer(side), s.Mine(side))
    ensures Diligent(s.Mine(side)) && Diligent(s.Peer(side))
  {
    hide Sound, Flows, Diligent, CanMove, Next;
    var left: Config, right: Config, moves, states :|
      Run(System(Fresh(left), Fresh(right)), moves, states) && states[|moves|] == s;
    DiligentAt(left, right, moves, states, |moves|);
  }

  // ----- where an awaited call is -----

  datatype Place =
    | Asked(at: nat)      // its request is queued or on the wire
    | Serving(run: nat)   // a handler of the peer has not finished
    | Declining           // the peer's reader is about to answer it with an error
    | Replied(at: nat)    // its reply is queued or on the wire
    | HandedOver          // a completion holds its result
    | Delivered           // its channel holds its result
    | Dropped(run: nat)   // the peer's handler finished without being able to reply

  ghost predicate Unanswered(e: Endpoint, k: nat)
    requires k < |e.runs|
  {
    e.runs[k].phase.Finished? && forall j :: j in e.origin ==> e.origin[j].at != e.runs[k].at
  }

  ghost predicate IsAt(mine: Endpoint, peer: Endpoint, t: Token, p: Place) {
    match p
    case Asked(i) => |peer.got| <= i < |mine.sent| && mine.sent[i].kind.Request? && mine.sent[i].token == t
    case Serving(k) => k < |peer.runs| && peer.runs[k].request.token == t && !peer.runs[k].phase.Finished?
    case Declining => peer.reader.Answering? && peer.reader.at < |peer.got| && peer.got[peer.reader.at].token == t
    case Replied(j) => |mine.got| <= j < |peer.sent| && IsReply(peer.sent[j]) && peer.sent[j].token == t
    case HandedOver => mine.reader.Completing? && mine.reader.token == t
    case Delivered => t in mine.ops.channels && mine.ops.channels[t].buffer != []
    case Dropped(k) => k < |peer.runs| && peer.runs[k].request.token == t && Unanswered(peer, k)
  }

  /** What each place says about the one position `r` of the call's request. */
  ghost predicate Pinned(mine: Endpoint, peer: Endpoint, t: Token, r: nat, p: Place) {
    match p
    case Asked(i) => i == r && |peer.got| <= r
    case Serving(k) => k < |peer.runs| && peer.runs[k].at == r && !peer.runs[k].phase.Finished? && r < |peer.got|
    case Declining => peer.reader.Answering? && peer.reader.at == r && r < |peer.got|
    case Replied(j) => j in peer.origin && peer.origin[j].at == r && r < |peer.got| && |mine.got| <= j
    case HandedOver => ResolvedFrom(mine, peer, t, r) && t !in mine.delivered
    case Delivered => ResolvedFrom(mine, peer, t, r) && t in mine.delivered
    case Dropped(k) => k < |peer.runs| && peer.runs[k].at == r && Unanswered(peer, k) && r < |peer.got|
  }

  ghost predicate ResolvedFrom(mine: Endpoint, peer: Endpoint, t: Token, r: nat) {
    && t in mine.completedBy && mine.completedBy[t] < |mine.got|
    && mine.completedBy[t] in peer.origin && peer.origin[mine.completedBy[t]].at == r && r < |peer.got|
  }

  ghost predicate RequestAt(mine: Endpoint, t: Token, r: nat) {
    r < |mine.sent| && mine.sent[r].kind.Request? && mine.sent[r].token == t
  }

  lemma OneRequest(mine: Endpoint, t: Token, r: nat, i: nat)
    requires Sound(mine) && RequestAt(mine, t, r) && RequestAt(mine, t, i)
    ensures i == r
  {
    hide Sound;
    if i != r {
      Guarantees.RequestsDistinct(mine, i, r);
    }
  }

  /** A request read by the peer with this token is the one at r. */
  lemma ReadRequestAt(mine: Endpoint, peer: Endpoint, t: Token, r: nat, i: nat)
    requires Sound(mine) && Flows(mine, peer) && RequestAt(mine, t, r)
    requires i < |peer.got| && peer.got[i].kind.Request? && peer.got[i].token == t
    ensures i == r
  {
    hide Sound;
    Guarantees.ReadAsSent(mine, peer, i);
    OneRequest(mine, t, r, i);
  }

  /** A reply of the peer with this token answers the request at r. */
  lemma ReplyFrom(mine: Endpoint, peer: Endpoint, t: Token, r: nat, j: nat)
    requires Sound(mine) && Sound(peer) && Flows(mine, peer) && RequestAt(mine, t, r)
    requires j < |peer.sent| && IsReply(peer.sent[j]) && peer.sent[j].token == t
    ensures j in peer.origin && peer.origin[j].at == r && r < |peer.got|
  {
    hide Sound, RequestAt;
    Guarantees.ReplyOrigin(peer, j);
    ReadRequestAt(mine, peer, t, r, peer.origin[j].at);
  }

  lemma ResolvedFromRequest(mine: Endpoint, peer: Endpoint, t: Token, r: nat)
    requires Sound(mine) && Sound(peer) && Flows(mine, peer) && Flows(peer, mine)
    requires RequestAt(mine, t, r) && t in mine.completedBy
    ensures ResolvedFrom(mine, peer, t, r)
  {
    hide Sound, RequestAt;
    Guarantees.Traceable(mine, t);
    var j := mine.completedBy[t];
    Guarantees.ReadAsSent(peer, mine, j);
    ReplyFrom(mine, peer, t, r, j);
  }

  lemma ReaderRefuses(peer: Endpoint)
    requires Sound(peer) && peer.reader.Answering?
    ensures peer.reader.at < |peer.got| && peer.got[peer.reader.at].kind.Request?
  {
    hide TokensOk, Outgoing, Answered;
  }

  lemma HoldingMeansTaken(e: Endpoint, t: Token)
    requires Sound(e)
    ensures e.reader.Completing? && e.reader.token == t ==>
              t in e.completedBy && t !in e.delivered && t in e.ops.channels
    ensures t in e.ops.channels && e.ops.channels[t].buffer != [] ==> t in e.completedBy && t in e.delivered
  {
    assert TokenOk(e, t);
  }

  lemma PlacePinned(mine: Endpoint, peer: Endpoint, t: Token, r: nat, p: Place)
    requires Sound(mine) && Sound(peer) && Flows(mine, peer) && Flows(peer, mine)
    requires RequestAt(mine, t, r) && IsAt(mine, peer, t, p)
    ensures Pinned(mine, peer, t, r, p)
  {
    hide Sound, Flows;
    match p
    case Asked(i) => OneRequest(mine, t, r, i);
    case Serving(k) =>
      Guarantees.RunServesAt(peer, k);
      ReadRequestAt(mine, peer, t, r, peer.runs[k].at);
    case Dropped(k) =>
      Guarantees.RunServesAt(peer, k);
      ReadRequestAt(mine, peer, t, r, peer.runs[k].at);
    case Declining =>
      ReaderRefuses(peer);
      ReadRequestAt(mine, peer, t, r, peer.reader.at);
    case Replied(j) => ReplyFrom(mine, peer, t, r, j);
    case HandedOver =>
      HoldingMeansTaken(mine, t);
      ResolvedFromRequest(mine, peer, t, r);
    case Delivered =>
      HoldingMeansTaken(mine, t);
      ResolvedFromRequest(mine, peer, t, r);
  }

  lemma UnfinishedUnanswered(e: Endpoint, k: nat, j: nat)
    requires Sound(e) && j in e.origin
    ensures k < |e.runs| && !e.runs[k].phase.Finished? ==> e.origin[j].at != e.runs[k].at
    ensures e.reader.Answering? ==> e.origin[j].at != e.reader.at
  {
    hide TokensOk, Outgoing, Served, OriginOk;
  }

  lemma ReaderHasNoRun(e: Endpoint, k: nat)
    requires Sound(e) && e.reader.Answering? && k < |e.runs|
    ensures e.runs[k].at != e.reader.at
  {
    hide TokensOk, Outgoing, Answered;
  }

  lemma PinnedOnce(mine: Endpoint, peer: Endpoint, t: Token, r: nat, p: Place, q: Place)
    requires Sound(peer) && Pinned(mine, peer, t, r, p) && Pinned(mine, peer, t, r, q)
    ensures p == q
  {
    hide TokensOk, Outgoing, Notified, OriginOk;
  }

  predicate BothOpen(s: System) {
    s.left.teardown.Open? && s.right.teardown.Open?
  }

  lemma AwaitedOwned(e: Endpoint, t: Token)
    requires Sound(e) && e.teardown.Open? && InPhase(e, t, Awaiting)
    ensures t in e.ops.pending || t in e.completedBy
    ensures t in e.completedBy ==>
              || (e.reader.Completing? && e.reader.token == t)
              || (t in e.ops.channels && e.ops.channels[t].buffer != [])
  {
    assert TokenOk(e, t);
  }

  lemma FindPlace(mine: Endpoint, peer: Endpoint, t: Token, r: nat) returns (p: Place)
    requires Sound(mine) && Sound(peer) && Flows(mine, peer) && Flows(peer, mine)
    requires Diligent(mine) && Diligent(peer) && mine.teardown.Open? && peer.teardown.Open?
    requires InPhase(mine, t, Awaiting) && RequestAt(mine, t, r)
    ensures IsAt(mine, peer, t, p)
  {
    hide Sound, AttendedAt;
    AwaitedOwned(mine, t);
    if t in mine.completedBy {
      p := if mine.reader.Completing? && mine.reader.token == t then HandedOver else Delivered;
    } else if |peer.got| <= r {
      p := Asked(r);
    } else {
      Guarantees.ReadAsSent(mine, peer, r);
      assert AttendedAt(peer, r);
      p := FindAttention(mine, peer, t, r);
    }
  }

  lemma FindAttention(mine: Endpoint, peer: Endpoint, t: Token, r: nat) returns (p: Place)
    requires Sound(peer) && Flows(peer, mine) && RepliesTaken(mine) && t in mine.ops.pending
    requires r < |peer.got| && peer.got[r].token == t && AttendedAt(peer, r)
    ensures IsAt(mine, peer, t, p)
  {
    hide Sound;
    if j :| j in peer.origin && peer.origin[j].at == r {
      OriginIsReply(peer, j);
      if j < |mine.got| {
        Guarantees.ReadAsSent(peer, mine, j);
      }
      p := Replied(j);
    } else if peer.reader.Answering? && peer.reader.at == r {
      p := Declining;
    } else {
      var k :| 0 <= k < |peer.runs| && peer.runs[k].at == r;
      Guarantees.RunServesAt(peer, k);
      p := if peer.runs[k].phase.Finished? then Dropped(k) else Serving(k);
    }
  }

  lemma OriginIsReply(e: Endpoint, j: nat)
    requires Sound(e) && j in e.origin
    ensures j < |e.sent| && IsReply(e.sent[j]) && e.origin[j].at < |e.got| && e.sent[j].token == e.got[e.origin[j].at].token
  {
    hide TokensOk, Outgoing, Served;
  }

  /**
   In every reachable state with both sides open, an awaited call is in exactly
   one place, from the queue its request is in to the channel its result is in.
   */
  lemma CallIsSomewhere(s: System, side: Side, t: Token) returns (p: Place)
    requires Reachable(s) && BothOpen(s) && InPhase(s.Mine(side), t, Awaiting)
    ensures IsAt(s.Mine(side), s.Peer(side), t, p)
    ensures forall q :: IsAt(s.Mine(side), s.Peer(side), t, q) ==> q == p
  {
    hide Reachable, Sound, Flows, Attended, RepliesTaken, IsAt;
    var mine, peer := s.Mine(side), s.Peer(side);
    BothDiligent(s, side);
    assert SentFor(mine.sent, t);
    var r :| 0 <= r < |mine.sent| && mine.sent[r].kind.Request? && mine.sent[r].token == t;
    p := FindPlace(mine, peer, t, r);
    PlacePinned(mine, peer, t, r, p);
    forall q | IsAt(mine, peer, t, q) ensures q == p {
      PlacePinned(mine, peer, t, r, q);
      PinnedOnce(mine, peer, t, r, p, q);
    }
  }

  // ----- and it can always move on -----

  /** Steps that carry calls forward: no new work, no failure, no timeout, no close. */
  predicate Productive(step: Step) {
    || (step.Caller? && step.caller.Receive?)
    || (step.Writer? && step.writer.WriteFrame?)
    || (step.Handler? && (step.handler.HandlerDone? || step.handler.SendReply? || step.handler.SendRefusal?))
    || (step.Resume? && (step.resume.AnswerError? || step.resume.SendResult?))
    || step.ReadFrame?
  }

  ghost predicate CanProgress(s: System) {
    exists m: Move :: CanMove(s, m) && Productive(m.step)
  }

  /** The reader reads, or is held up by something that can move. */
  lemma ReaderMoves(e: Endpoint, peer: Endpoint) returns (step: Step)
    requires Sound(e) && e.teardown.Open? && Alert(e) && peer.wire != []
    ensures Enabled(e, peer, step) && Productive(step)
  {
    hide Sound;
    if e.reader.Idle? {
      step := ReadFrame(true);
    } else if e.reader.Completing? {
      step := HandOverMoves(e, peer);
    } else {
      step := RefusalMoves(e, peer);
    }
  }

  lemma RunMoves(e: Endpoint, peer: Endpoint, k: nat) returns (step: Step)
    requires Sound(e) && e.teardown.Open? && Alert(e) && k < |e.runs| && !e.runs[k].phase.Finished?
    ensures Enabled(e, peer, step) && Productive(step)
  {
    hide Sound;
    Guarantees.RunServesAt(e, k);
    match e.runs[k].phase
    case Running => step := Handler(k, HandlerDone(None));
    case Replying => step := if CanPush(e) then Handler(k, SendReply) else Writer(WriteFrame);
    case Refusing => step := if CanPush(e) then Handler(k, SendRefusal) else Writer(WriteFrame);
  }

  /** What one side still has to send is on its queue or on its wire. */
  lemma InTransit(from: Endpoint, to: Endpoint, i: nat)
    requires Flows(from, to) && |to.got| <= i < |from.sent|
    ensures from.wire != [] || from.queue != []
  {
  }

  lemma TransitMoves(s: System, from: Side)
    requires BothOpen(s) && Sound(s.Peer(from)) && Alert(s.Mine(from)) && Alert(s.Peer(from))
    requires s.Mine(from).wire != [] || s.Mine(from).queue != []
    ensures CanProgress(s)
  {
    hide Sound;
    if s.Mine(from).queue != [] {
      assert CanMove(s, Move(from, Writer(WriteFrame)));
    } else {
      var other := if from.Left? then Right else Left;
      var step := ReaderMoves(s.Peer(from), s.Mine(from));
      assert CanMove(s, Move(other, step));
    }
  }

  /** No deadlock: while both sides are open and a call is awaited, some step carries a call forward, or its reply was dropped. */
  lemma AwaitedCallMoves(s: System, side: Side, t: Token)
    requires Reachable(s) && BothOpen(s) && InPhase(s.Mine(side), t, Awaiting)
    ensures CanProgress(s) || exists k :: IsAt(s.Mine(side), s.Peer(side), t, Dropped(k))
  {
    hide Reachable, Sound, Attended, RepliesTaken, AwaitedSent;
    var mine, peer := s.Mine(side), s.Peer(side);
    var other := if side.Left? then Right else Left;
    var p := CallIsSomewhere(s, side, t);
    BothDiligent(s, side);
    hide Enabled;
    match p
    case Asked(i) =>
      InTransit(mine, peer, i);
      TransitMoves(s, side);
    case Serving(k) =>
      var step := RunMoves(peer, mine, k);
      assert CanMove(s, Move(other, step));
    case Declining =>
      var step := RefusalMoves(peer, mine);
      assert CanMove(s, Move(other, step));
    case Replied(j) =>
      InTransit(peer, mine, j);
      TransitMoves(s, other);
    case HandedOver =>
      var step := HandOverMoves(mine, peer);
      assert CanMove(s, Move(side, step));
    case Delivered =>
      DeliveredMoves(mine, peer, t);
      assert CanMove(s, Move(side, Caller(Receive(t))));
    case Dropped(k) =>
  }

  lemma RefusalMoves(e: Endpoint, peer: Endpoint) returns (step: Step)
    requires Sound(e) && e.teardown.Open? && Alert(e) && e.reader.Answering?
    ensures Enabled(e, peer, step) && Productive(step)
  {
    hide Sound;
    ReaderRefuses(e);
    step := if CanPush(e) then Resume(AnswerError) else Writer(WriteFrame);
  }

  lemma HandOverMoves(e: Endpoint, peer: Endpoint) returns (step: Step)
    requires Sound(e) && e.reader.Completing?
    ensures Enabled(e, peer, step) && Productive(step)
  {
    hide Sound;
    HoldingMeansTaken(e, e.reader.token);
    step := Resume(SendResult);
  }

  lemma DeliveredMoves(e: Endpoint, peer: Endpoint, t: Token)
    requires InPhase(e, t, Awaiting) && t in e.ops.channels && e.ops.channels[t].buffer != []
    ensures Enabled(e, peer, Caller(Receive(t)))
  {
  }

  // ----- when a reply is dropped -----

  /** A handler gives up on its error reply although the session is open. */
  predicate Forsakes(e: Endpoint, step: Step) {
    step.Handler? && step.handler.SendRefusalFails? && e.teardown.Open?
  }

  /** A step that serves nothing, reads, or has the reader answer, leaves the handlers as they are and may add one. */
  ghost predicate SameRuns(e: Endpoint, e': Endpoint) {
    && |e.runs| <= |e'.runs|
    && (forall k :: 0 <= k < |e.runs| ==> e'.runs[k] == e.runs[k])
    && (forall k :: |e.runs| <= k < |e'.runs| ==> !e'.runs[k].phase.Finished?)
    && (forall j :: j in e.origin ==> j in e'.origin && e'.origin[j] == e.origin[j])
    && (forall j :: j in e'.origin && j !in e.origin ==> e.reader.Answering? && e'.origin[j].at == e.reader.at)
    && (e'.teardown.Open? ==> e.teardown.Open?)
  }

  lemma RunsLeft(e: Endpoint, peer: Endpoint, step: Step)
    requires TrafficOk(e) && Enabled(e, peer, step) && !step.Handler?
    ensures SameRuns(e, After(e, peer, step))
  {
    hide TrafficOk, DoCall, DoAct, DoWrite, DoHandle, DoResume, DoClose, Digest;
    if LeavesService(e, peer, step) {
      ServiceLeft(e, peer, step);
    } else if step.ReadFrame? {
      DigestRuns(e, peer.wire[0], step.allowed);
    } else {
      AnswerRuns(e);
    }
  }

  lemma DigestRuns(e: Endpoint, f: Frame, allowed: bool)
    ensures SameRuns(e, Digest(e, f, allowed))
  {
  }

  lemma AnswerRuns(e: Endpoint)
    requires TrafficOk(e) && CanResume(e, AnswerError)
    ensures SameRuns(e, DoResume(e, AnswerError))
  {
    AnswerTouches(e);
    NextIsUnanswered(e);
    hide TrafficOk, DoResume;
  }

  lemma NextIsUnanswered(e: Endpoint)
    requires TrafficOk(e)
    ensures |e.sent| !in e.origin
  {
    hide Outgoing, Served, Notified, OriginOk;
  }

  lemma AnswerTouches(e: Endpoint)
    requires CanResume(e, AnswerError)
    ensures var e' := DoResume(e, AnswerError);
            && e'.runs == e.runs && e'.got == e.got && e'.origin == e.origin[|e.sent| := Origin(e.reader.at, None)]
            && (e'.teardown.Open? ==> e.teardown.Open? && e'.writing == e.writing && e'.reader.Idle?)
  {
    var f, o := ReplyTo(e.got[e.reader.at], Error, []), Origin(e.reader.at, None);
    var answered := Answer(e, f, o);
    assert answered == e.(queue := e.queue + [f], sent := e.sent + [f], origin := e.origin[|e.sent| := o]);
    hide Answer;
    if e.reader.thenClose {
      assert DoResume(e, AnswerError) == Mark(answered).(reader := Gone);
    }
  }

  /** An open endpoint gets a finished, unanswered handler only by one that forsakes its request. */
  lemma BecomesUnanswered(e: Endpoint, peer: Endpoint, step: Step, k: nat)
    requires Sound(e) && Enabled(e, peer, step) && After(e, peer, step).teardown.Open?
    requires k < |After(e, peer, step).runs| && Unanswered(After(e, peer, step), k)
    ensures (k < |e.runs| && Unanswered(e, k)) || (Forsakes(e, step) && step.run == k)
  {
    hide TrafficOk, TokensOk, DoCall, DoAct, DoWrite, DoHandle, DoResume, DoClose, Digest, Takes;
    if step.Handler? {
      HandlerBecomes(e, step.run, step.handler, k);
    } else {
      RunsLeft(e, peer, step);
    }
  }

  lemma HandlerBecomes(e: Endpoint, m: nat, step: HandlerStep, k: nat)
    requires CanHandle(e, m, step) && TrafficOk(e) && DoHandle(e, m, step).teardown.Open?
    requires k < |DoHandle(e, m, step).runs| && Unanswered(DoHandle(e, m, step), k)
    ensures k < |e.runs|
    ensures Unanswered(e, k) || (Forsakes(e, Handler(m, step)) && m == k)
  {
    hide Outgoing, Served, Notified, OriginOk;
    var e' := DoHandle(e, m, step);
    assert forall j :: j in e.origin ==> j in e'.origin && e'.origin[j] == e.origin[j];
    assert step.SendReply? || step.SendRefusal? ==> |e.sent| in e'.origin && e'.origin[|e.sent|].at == e.runs[m].at;
  }

  /** Once so, always so: nothing answers the request any more. */
  lemma UnansweredStays(e: Endpoint, peer: Endpoint, step: Step, k: nat)
    requires Sound(e) && Enabled(e, peer, step) && k < |e.runs| && Unanswered(e, k)
    ensures var e' := After(e, peer, step); k < |e'.runs| && e'.runs[k] == e.runs[k] && Unanswered(e', k)
  {
    hide TrafficOk, TokensOk, DoCall, DoAct, DoWrite, DoHandle, DoResume, DoClose, Digest, Takes;
    if step.Handler? {
      assert step.run != k;
      Guarantees.RunsOrdered(e, step.run, k);
      HandlerElsewhere(e, step.run, step.handler, k);
    } else {
      RunsLeft(e, peer, step);
      if e.reader.Answering? {
        ReaderHasNoRun(e, k);
      }
    }
  }

  lemma HandlerElsewhere(e: Endpoint, m: nat, step: HandlerStep, k: nat)
    requires CanHandle(e, m, step) && k < |e.runs| && k != m && e.runs[k].at != e.runs[m].at && Unanswered(e, k)
    ensures var e' := DoHandle(e, m, step); k < |e'.runs| && e'.runs[k] == e.runs[k] && Unanswered(e', k)
  {
  }

  lemma ForsakingLoses(e: Endpoint, k: nat)
    requires Sound(e) && CanHandle(e, k, SendRefusalFails)
    ensures Unanswered(DoHandle(e, k, SendRefusalFails), k)
  {
    hide Sound;
    var e' := DoHandle(e, k, SendRefusalFails);
    forall j | j in e'.origin ensures e'.origin[j].at != e'.runs[k].at {
      UnfinishedUnanswered(e, k, j);
    }
  }

  /** The n-th move is that step, by the given handler. */
  ghost predicate ForsakenAt(moves: seq<Move>, states: seq<System>, n: nat, side: Side, k: nat) {
    n < |moves| && n < |states| && moves[n] == Move(side, Handler(k, SendRefusalFails)) && Forsakes(states[n].Mine(side), moves[n].step)
  }

  ghost predicate LostAt(s: System, side: Side, k: nat) {
    k < |s.Mine(side).runs| && Unanswered(s.Mine(side), k)
  }

  /** One move: what was lost stays lost, what it forsakes is lost, and nothing else is lost while that side is open. */
  lemma LostMove(s: System, m: Move, side: Side, k: nat)
    requires SystemOk(s) && CanMove(s, m)
    ensures LostAt(s, side, k) ==> LostAt(Next(s, m), side, k) && Next(s, m).Mine(side).runs[k] == s.Mine(side).runs[k]
    ensures m.side == side && Forsakes(s.Mine(side), m.step) && m.step.run == k ==> LostAt(Next(s, m), side, k)
    ensures Next(s, m).Mine(side).teardown.Open? && LostAt(Next(s, m), side, k) ==>
              LostAt(s, side, k) || (m.side == side && Forsakes(s.Mine(side), m.step) && m.step.run == k)
  {
    hide Sound, Flows, Unanswered, After, Enabled;
    var e, peer := s.Mine(m.side), s.Peer(m.side);
    if m.side == side {
      if LostAt(s, side, k) {
        UnansweredStays(e, peer, m.step, k);
      }
      if Forsakes(e, m.step) && m.step.run == k {
        ForsakingStep(e, peer, m.step);
      }
      if LostAt(Next(s, m), side, k) && Next(s, m).Mine(side).teardown.Open? {
        BecomesUnanswered(e, peer, m.step, k);
      }
    } else {
      PeerSameRuns(e, peer, m.step, k);
    }
  }

  lemma ForsakingStep(e: Endpoint, peer: Endpoint, step: Step)
    requires Sound(e) && Enabled(e, peer, step) && Forsakes(e, step)
    ensures step.run < |After(e, peer, step).runs| && Unanswered(After(e, peer, step), step.run)
  {
    hide Sound;
    ForsakingLoses(e, step.run);
  }

  lemma PeerSameRuns(e: Endpoint, peer: Endpoint, step: Step, k: nat)
    requires Enabled(e, peer, step)
    ensures var peer' := PeerAfter(e, peer, step);
            && peer'.runs == peer.runs && peer'.teardown == peer.teardown
            && (k < |peer.runs| ==> Unanswered(peer', k) == Unanswered(peer, k))
  {
  }

  /** While a side is open, the handlers that finished without an answer are exactly those that forsook their request. */
  lemma {:induction false} LostIffForsaken(
      left: Config, right: Config, moves: seq<Move>, states: seq<System>, n: nat, side: Side, k: nat)
    requires Run(System(Fresh(left), Fresh(right)), moves, states) && n <= |moves|
    ensures (exists i :: 0 <= i < n && ForsakenAt(moves, states, i, side, k)) ==> LostAt(states[n], side, k)
    ensures states[n].Mine(side).teardown.Open? && LostAt(states[n], side, k) ==>
              exists i :: 0 <= i < n && ForsakenAt(moves, states, i, side, k)
  {
    hide SystemOk, Diligent, LostAt, CanMove, Next;
    if n == 0 {
      NothingLost(left, right, side, k);
    } else {
      LostIffForsaken(left, right, moves, states, n - 1, side, k);
      DiligentAt(left, right, moves, states, n - 1);
      var s, m := states[n - 1], moves[n - 1];
      assert CanMove(s, m) && states[n] == Next(s, m);
      LostMove(s, m, side, k);
      OpenBefore(s, m, side);
      if m.side == side && Forsakes(s.Mine(side), m.step) && m.step.run == k {
        assert ForsakenAt(moves, states, n - 1, side, k);
      }
    }
  }

  lemma NothingLost(left: Config, right: Config, side: Side, k: nat)
    ensures !LostAt(System(Fresh(left), Fresh(right)), side, k)
  {
  }

  lemma OpenBefore(s: System, m: Move, side: Side)
    requires SystemOk(s) && CanMove(s, m)
    ensures Next(s, m).Mine(side).teardown.Open? ==> s.Mine(side).teardown.Open?
  {
    hide TokensOk, TrafficOk, Flows, DoCall, DoAct, DoWrite, DoHandle, DoResume, DoClose, Digest;
    var e, peer := s.Mine(m.side), s.Peer(m.side);
    if m.step.Handler? {
      HandleSameTokens(e, m.step.run, m.step.handler);
    } else {
      RunsLeft(e, peer, m.step);
    }
  }

  /** Handlers give up on their error reply only when the session is closing. */
  ghost predicate Reliable(moves: seq<Move>, states: seq<System>) {
    |states| == |moves| + 1 && forall i :: 0 <= i < |moves| ==> !Forsakes(states[i].Mine(moves[i].side), moves[i].step)
  }

  /** Finished handlers have answered. */
  ghost predicate AllReplied(e: Endpoint) {
    forall k :: 0 <= k < |e.runs| ==> !Unanswered(e, k)
  }

  lemma ForsakenFrom(moves: seq<Move>, states: seq<System>)
    requires |states| == |moves| + 1
    ensures Reliable(moves, states) <==> forall i: nat, side, k :: !ForsakenAt(moves, states, i, side, k)
  {
    if !Reliable(moves, states) {
      var i :| 0 <= i < |moves| && Forsakes(states[i].Mine(moves[i].side), moves[i].step);
      assert ForsakenAt(moves, states, i, moves[i].side, moves[i].step.run);
    }
  }

  /**
   Of every run that ends with both sides open: no handler ever forsook its request
   if and only if every handler that has finished has answered.
   */
  lemma ReliableIff(left: Config, right: Config, moves: seq<Move>, states: seq<System>)
    requires Run(System(Fresh(left), Fresh(right)), moves, states) && BothOpen(states[|moves|])
    ensures Reliable(moves, states) <==> AllReplied(states[|moves|].left) && AllReplied(states[|moves|].right)
  {
    hide Fresh, CanMove, Next, Unanswered, ForsakenAt, Reliable, AllReplied, LostAt;
    var s, n := states[|moves|], |moves|;
    ForsakenFrom(moves, states);
    AllRepliedIs(s, Left);
    AllRepliedIs(s, Right);
    if Reliable(moves, states) {
      forall side: Side, k: nat ensures !LostAt(s, side, k) {
        LostIffForsaken(left, right, moves, states, n, side, k);
      }
    } else {
      var i: nat, side: Side, k: nat :| ForsakenAt(moves, states, i, side, k);
      LostIffForsaken(left, right, moves, states, n, side, k);
      ForsakenBounded(moves, states, side, k);
      assert side == Left || side == Right;
    }
  }

  lemma AllRepliedIs(s: System, side: Side)
    ensures AllReplied(s.Mine(side)) <==> forall k: nat :: !LostAt(s, side, k)
  {
    if k :| 0 <= k < |s.Mine(side).runs| && Unanswered(s.Mine(side), k) {
      assert LostAt(s, side, k);
    }
  }

  lemma ForsakenBounded(moves: seq<Move>, states: seq<System>, side: Side, k: nat)
    ensures forall i: nat :: ForsakenAt(moves, states, i, side, k) ==> i < |moves|
  {
  }

  /**
   No call is lost: when no handler forsakes its request, no awaited call is ever
   dropped while both sides are open, and some step carries a call forward as long
   as one is awaited.
   */
  lemma NoCallLost(left: Config, right: Config, moves: seq<Move>, states: seq<System>, side: Side, t: Token)
    requires Run(System(Fresh(left), Fresh(right)), moves, states) && Reliable(moves, states) && BothOpen(states[|moves|])
    ensures var s := states[|moves|];
            && (forall k :: !IsAt(s.Mine(side), s.Peer(side), t, Dropped(k)))
            && (InPhase(s.Mine(side), t, Awaiting) ==> CanProgress(s))
  {
    hide Fresh, CanProgress, Reliable, CanMove, Next;
    var s := states[|moves|];
    assert Reachable(s);
    ReliableIff(left, right, moves, states);
    if InPhase(s.Mine(side), t, Awaiting) {
      AwaitedCallMoves(s, side, t);
    }
  }

  // ----- a dropped call waits in vain -----

  /** A call that is dropped and awaited stays both, until its own timeout or a close on its side. */
  lemma DroppedStays(s: System, m: Move, side: Side, t: Token, k: nat)
    requires Reachable(s) && CanMove(s, m) && s.Mine(side).teardown.Open? && m != Move(side, Caller(Timeout(t)))
    requires InPhase(s.Mine(side), t, Awaiting) && IsAt(s.Mine(side), s.Peer(side), t, Dropped(k))
    ensures var s' := Next(s, m);
            InPhase(s'.Mine(side), t, Awaiting) && IsAt(s'.Mine(side), s'.Peer(side), t, Dropped(k))
  {
    hide Reachable, Sound, Flows, Diligent, Unanswered, After, Enabled;
    var mine, peer := s.Mine(side), s.Peer(side);
    var other := if side.Left? then Right else Left;
    BothDiligent(s, side);
    LostMove(s, m, other, k);
    if m.side == side {
      NothingToReceive(mine, peer, t, k);
      OpenChannel(mine, t);
      StillAwaiting(mine, peer, m.step, t);
    }
  }

  /** A dropped call's channel is open and empty while its side is open. */
  lemma NothingToReceive(mine: Endpoint, peer: Endpoint, t: Token, k: nat)
    requires Sound(mine) && Sound(peer) && Flows(mine, peer) && Flows(peer, mine) && Diligent(mine)
    requires mine.teardown.Open? && InPhase(mine, t, Awaiting) && IsAt(mine, peer, t, Dropped(k))
    ensures !CanCall(mine, Receive(t))
  {
    hide Sound, Flows, Attended, RepliesTaken, Unanswered;
    assert SentFor(mine.sent, t);
    var r :| 0 <= r < |mine.sent| && mine.sent[r].kind.Request? && mine.sent[r].token == t;
    if t in mine.ops.channels && mine.ops.channels[t].buffer != [] {
      PlacePinned(mine, peer, t, r, Dropped(k));
      PlacePinned(mine, peer, t, r, Delivered);
      PinnedOnce(mine, peer, t, r, Dropped(k), Delivered);
      assert false;
    }
    OpenChannel(mine, t);
  }

  lemma OpenChannel(e: Endpoint, t: Token)
    requires Sound(e) && e.teardown.Open? && t in e.calls
    ensures t < e.ops.next && t in e.ops.channels && !e.ops.channels[t].closed
  {
    assert TokenOk(e, t);
  }

  lemma StillAwaiting(e: Endpoint, peer: Endpoint, step: Step, t: Token)
    requires Enabled(e, peer, step) && InPhase(e, t, Awaiting) && !CanCall(e, Receive(t))
    requires step != Caller(Timeout(t)) && t < e.ops.next
    ensures InPhase(After(e, peer, step), t, Awaiting)
  {
    hide DoCall, DoAct, DoWrite, DoHandle, DoResume, DoClose, Digest;
    if step.Caller? {
      CallFrame(e, step.caller);
    } else {
      OnlyCallersCall(e, peer, step);
    }
  }

  /** So, from the moment it is dropped, the caller waits for its timeout or for a close on its side. */
  lemma {:induction false} DroppedCallWaits(
      left: Config, right: Config, moves: seq<Move>, states: seq<System>, i: nat, n: nat, side: Side, t: Token, k: nat)
    requires Run(System(Fresh(left), Fresh(right)), moves, states) && i <= n <= |moves|
    requires InPhase(states[i].Mine(side), t, Awaiting) && IsAt(states[i].Mine(side), states[i].Peer(side), t, Dropped(k))
    requires forall j :: i <= j < n ==> states[j].Mine(side).teardown.Open? && moves[j] != Move(side, Caller(Timeout(t)))
    ensures InPhase(states[n].Mine(side), t, Awaiting) && IsAt(states[n].Mine(side), states[n].Peer(side), t, Dropped(k))
  {
    hide Fresh, CanMove, Next, InPhase, IsAt;
    if i < n {
      DroppedCallWaits(left, right, moves, states, i, n - 1, side, t, k);
      RunPrefix(left, right, moves, states, n - 1);
      assert CanMove(states[n - 1], moves[n - 1]) && states[n] == Next(states[n - 1], moves[n - 1]);
      DroppedStays(states[n - 1], moves[n - 1], side, t, k);
    }
  }

  lemma RunPrefix(left: Config, right: Config, moves: seq<Move>, states: seq<System>, n: nat)
    requires Run(System(Fresh(left), Fresh(right)), moves, states) && n <= |moves|
    ensures Reachable(states[n])
  {
    hide CanMove, Next;
    assert Run(System(Fresh(left), Fresh(right)), moves[..n], states[..n + 1]);
  }

  // ----- otherwise every call can finish -----

  /** No call is awaited, or a side has begun to close. */
  ghost predicate NobodyWaits(s: System) {
    BothOpen(s) ==> forall side: Side, t: Token :: !InPhase(s.Mine(side), t, Awaiting)
  }

  lemma ExtendReliable(moves: seq<Move>, states: seq<System>, m: Move, s': System)
    requires Reliable(moves, states) && Productive(m.step)
    ensures Reliable(moves + [m], states + [s'])
  {
  }

  lemma ProductiveUsesWork(s: System, m: Move)
    requires SystemOk(s) && CanMove(s, m) && Productive(m.step)
    ensures Quiescence.Total(Next(s, m)) < Quiescence.Total(s)
  {
    hide After, PeerAfter, Enabled, Quiescence.Work;
    Quiescence.MineTokensOk(s, m.side);
    hide SystemOk;
    Quiescence.StepWorks(s.Mine(m.side), s.Peer(m.side), m.step);
  }

  /**
   Every call can be answered: from any state of a reliable run, at most as many
   productive moves as there is work lead to a state in which no call is awaited
   or a side has begun to close.
   */
  lemma {:induction false} CallsCanFinish(left: Config, right: Config, moves: seq<Move>, states: seq<System>)
      returns (moves': seq<Move>, states': seq<System>)
    requires Run(System(Fresh(left), Fresh(right)), moves, states) && Reliable(moves, states)
    ensures Run(System(Fresh(left), Fresh(right)), moves', states') && Reliable(moves', states')
    ensures moves <= moves' && forall i :: |moves| <= i < |moves'| ==> Productive(moves'[i].step)
    ensures |moves'| - |moves| <= Quiescence.Total(states[|moves|]) && NobodyWaits(states'[|moves'|])
    decreases Quiescence.Total(states[|moves|])
  {
    hide Fresh, CanMove, Next, Reliable, Productive, Quiescence.Total, SystemOk, Diligent;
    var start, s := System(Fresh(left), Fresh(right)), states[|moves|];
    moves', states' := moves, states;
    if !NobodyWaits(s) {
      var side: Side, t: Token :| InPhase(s.Mine(side), t, Awaiting);
      NoCallLost(left, right, moves, states, side, t);
      var m: Move :| CanMove(s, m) && Productive(m.step);
      DiligentAt(left, right, moves, states, |moves|);
      ProductiveUsesWork(s, m);
      OneMoreMove(start, moves, states, m);
      ExtendReliable(moves, states, m, Next(s, m));
      moves', states' := CallsCanFinish(left, right, moves + [m], states + [Next(s, m)]);
    }
  }

  lemma {:induction false} ProductiveWork(left: Config, right: Config, moves: seq<Move>, states: seq<System>, n: nat, m: nat)
    requires Run(System(Fresh(left), Fresh(right)), moves, states) && n <= m <= |moves|
    requires forall i :: n <= i < |moves| ==> Productive(moves[i].step)
    ensures m - n + Quiescence.Total(states[m]) <= Quiescence.Total(states[n])
  {
    hide Fresh, CanMove, Next, Productive, Quiescence.Total, SystemOk, Diligent;
    if n < m {
      ProductiveWork(left, right, moves, states, n, m - 1);
      DiligentAt(left, right, moves, states, m - 1);
      assert CanMove(states[m - 1], moves[m - 1]) && states[m] == Next(states[m - 1], moves[m - 1]);
      ProductiveUsesWork(states[m - 1], moves[m - 1]);
    }
  }

  /**
   And every call does finish, in whatever order productive moves are made: there
   are at most as many as there is work, and where no more can be made no call is
   awaited or a side has begun to close.
   */
  lemma CallsFinish(left: Config, right: Config, moves: seq<Move>, states: seq<System>, n: nat)
    requires Run(System(Fresh(left), Fresh(right)), moves, states) && Reliable(moves, states) && n <= |moves|
    requires forall i :: n <= i < |moves| ==> Productive(moves[i].step)
    ensures |moves| - n <= Quiescence.Total(states[n])
    ensures CanProgress(states[|moves|]) || NobodyWaits(states[|moves|])
  {
    hide Fresh, CanMove, Next, Reliable, Productive, CanProgress, Quiescence.Total;
    ProductiveWork(left, right, moves, states, n, |moves|);
    var s := states[|moves|];
    if !NobodyWaits(s) {
      var side: Side, t: Token :| InPhase(s.Mine(side), t, Awaiting);
      NoCallLost(left, right, moves, states, side, t);
    }
  }

  // ----- a run in which one is -----

  function DropMoves(name: Name, request: Bytes): seq<Move> {
    [Move(Left, Caller(BeginCall(name, request))), Move(Left, Caller(QueueRequest(1))), Move(Left, Writer(WriteFrame)),
     Move(Right, ReadFrame(true)), Move(Right, Handler(0, HandlerDone(None))), Move(Right, Handler(0, SendRefusalFails))]
  }

  /** The system after the first n of those moves; f is the call's request frame. */
  function DropAt(left: Config, right: Config, name: Name, request: Bytes, f: Frame, n: nat): System {
    var l, r := Fresh(left), Fresh(right);
    var begun := l.(ops := Create(NoOps), calls := map[1 := Call(name, request, Registered)]);
    var queued := begun.(calls := map[1 := Call(name, request, Awaiting)], queue := [f], sent := [f]);
    var written := queued.(queue := [], wire := [f]);
    var run := HandlerRun(0, f, None, Running);
    var read := r.(got := [f], runs := [run]);
    if n == 0 then System(l, r)
    else if n == 1 then System(begun, r)
    else if n == 2 then System(queued, r)
    else if n == 3 then System(written, r)
    else if n == 4 then System(written.(wire := []), read)
    else if n == 5 then System(written.(wire := []), read.(runs := [run.(phase := Refusing)]))
    else System(written.(wire := []), read.(runs := [run.(phase := Finished)]))
  }

  lemma DropAsks(left: Config, right: Config, name: Name, request: Bytes, f: Frame, n: nat)
    requires |request| < TWO64 && n < 3 && f == RequestFrame(left, 1, Call(name, request, Registered))
    ensures var s, m := DropAt(left, right, name, request, f, n), DropMoves(name, request)[n];
            CanMove(s, m) && Next(s, m) == DropAt(left, right, name, request, f, n + 1)
  {
    hide RequestFrame, DoHandle, DoResume, DoClose, Digest;
  }

  lemma DropReads(left: Config, right: Config, name: Name, request: Bytes, f: Frame)
    requires f.kind == Request && |f.body| <= right.limit
    ensures var s, m := DropAt(left, right, name, request, f, 3), DropMoves(name, request)[3];
            CanMove(s, m) && Next(s, m) == DropAt(left, right, name, request, f, 4)
  {
    hide DoCall, DoAct, DoWrite, DoHandle, DoResume, DoClose, Digest;
    FirstRequest(right, f);
    assert [f][1..] == [];
  }

  lemma FirstRequest(config: Config, f: Frame)
    requires f.kind == Request && |f.body| <= config.limit
    ensures Digest(Fresh(config), f, true) == Fresh(config).(got := [f], runs := [HandlerRun(0, f, None, Running)])
  {
    assert [] + [f] == [f];
  }

  lemma DropForsakes(left: Config, right: Config, name: Name, request: Bytes, f: Frame, n: nat)
    requires 4 <= n < 6
    ensures var s, m := DropAt(left, right, name, request, f, n), DropMoves(name, request)[n];
            CanMove(s, m) && Next(s, m) == DropAt(left, right, name, request, f, n + 1)
  {
    hide DoCall, DoAct, DoWrite, DoResume, DoClose, Digest;
  }

  /** Given up on while its queue was open, a request is lost: the caller waits, both sides stay open and nothing moves. */
  lemma ForsakenCallIsLost(left: Config, right: Config, name: Name, request: Bytes) returns (states: seq<System>)
    requires |request| < TWO64 && |request| <= right.limit
    ensures Run(System(Fresh(left), Fresh(right)), DropMoves(name, request), states)
    ensures var s := states[6];
            BothOpen(s) && InPhase(s.left, 1, Awaiting) && IsAt(s.left, s.right, 1, Dropped(0)) && !CanProgress(s)
  {
    var f := RequestFrame(left, 1, Call(name, request, Registered));
    assert f.token == 1 && f.kind == Request && f.body == request;
    hide *;
    states := seq(7, n requires 0 <= n < 7 => DropAt(left, right, name, request, f, n));
    DropRuns(left, right, name, request, f, states);
    DropEnds(left, right, name, request, f);
    NothingMoves(left, right, name, request, f);
  }

  lemma DropRuns(left: Config, right: Config, name: Name, request: Bytes, f: Frame, states: seq<System>)
    requires |request| < TWO64 && |request| <= right.limit && f == RequestFrame(left, 1, Call(name, request, Registered))
    requires f.kind == Request && f.body == request
    requires |states| == 7 && forall n :: 0 <= n < 7 ==> states[n] == DropAt(left, right, name, request, f, n)
    ensures Run(System(Fresh(left), Fresh(right)), DropMoves(name, request), states)
  {
    hide RequestFrame, CanMove, Next, Fresh;
    var moves := DropMoves(name, request);
    assert states[0] == System(Fresh(left), Fresh(right));
    hide DropAt;
    forall i | 0 <= i < 6 ensures CanMove(states[i], moves[i]) && states[i + 1] == Next(states[i], moves[i]) {
      if i < 3 {
        DropAsks(left, right, name, request, f, i);
      } else if i == 3 {
        DropReads(left, right, name, request, f);
      } else {
        DropForsakes(left, right, name, request, f, i);
      }
    }
  }

  lemma DropEnds(left: Config, right: Config, name: Name, request: Bytes, f: Frame)
    requires f.token == 1
    ensures var s := DropAt(left, right, name, request, f, 6);
            BothOpen(s) && InPhase(s.left, 1, Awaiting) && IsAt(s.left, s.right, 1, Dropped(0))
  {
  }

  lemma NothingMoves(left: Config, right: Config, name: Name, request: Bytes, f: Frame)
    ensures !CanProgress(DropAt(left, right, name, request, f, 6))
  {
    var s := DropAt(left, right, name, request, f, 6);
    forall m: Move | Productive(m.step) ensures !CanMove(s, m) {
      assert s.Mine(m.side).queue == [] && s.Mine(m.side).wire == [];
    }
  }
}
