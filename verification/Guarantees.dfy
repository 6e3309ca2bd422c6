/** What the session protocol promises, in every reachable state of two endpoints. */
module Guarantees {
  import opened Words
  import opened StringHash
  import opened Framing
  import opened AsyncOps
  import opened Protocol
  import opened Invariant
  import opened Traffic
  import opened Soundness

  lemma SidesOk(s: System, side: Side)
    requires Reachable(s)
    ensures Sound(s.Mine(side)) && Sound(s.Peer(side))
    ensures Flows(s.Mine(side), s.Peer(side)) && Flows(s.Peer(side), s.Mine(side))
  {
    hide Sound, Flows, Reachable;
    ReachableOk(s);
  }

  /** What a reader has taken is the beginning of what its peer's queue accepted. */
  lemma ReadAsSent(from: Endpoint, to: Endpoint, i: nat)
    requires Flows(from, to) && i < |to.got|
    ensures i < |from.sent| && from.sent[i] == to.got[i]
  {
  }

  lemma Traceable(e: Endpoint, t: Token)
    requires Sound(e) && t in e.completedBy
    ensures Issued(e, t) && t in e.calls && t in e.ops.channels && Traced(e, t)
  {
    assert TokenOk(e, t);
  }

  lemma SettledIsCompleted(e: Endpoint, t: Token)
    requires Sound(e) && t in e.calls && Settled(e.calls[t].phase)
    ensures t in e.completedBy
  {
    assert TokenOk(e, t);
  }

  lemma ReplyOrigin(e: Endpoint, j: nat)
    requires Sound(e) && j < |e.sent| && IsReply(e.sent[j])
    ensures j in e.origin && OriginOk(e.sent[j], e.got, e.runs, e.origin[j])
  {
    hide TokensOk, Outgoing, Served;
  }

  lemma RequestIsCalls(e: Endpoint, i: nat)
    requires Sound(e) && i < |e.sent| && e.sent[i].kind.Request?
    ensures IsRequestOf(e.config, e.calls, e.sent[i])
  {
    hide TokensOk, Answered, Served, RequestFrame;
  }

  /**
   A reply that resolved a call was sent by the peer in answer to that call's
   own request: position i of what was sent, position j of what came back.
   */
  lemma ResolvedByOwnRequest(s: System, side: Side, t: Token) returns (i: nat, j: nat)
    requires Reachable(s) && t in s.Mine(side).completedBy
    ensures var mine, peer := s.Mine(side), s.Peer(side);
            && t in mine.calls && t < TWO64
            && j == mine.completedBy[t] && j < |mine.got| && j < |peer.sent| && peer.sent[j] == mine.got[j]
            && j in peer.origin && peer.origin[j].at == i && OriginOk(peer.sent[j], peer.got, peer.runs, peer.origin[j])
            && i < |peer.got| && peer.got[i] == RequestFrame(mine.config, t, mine.calls[t])
  {
    hide Reachable, Sound, Flows, RequestFrame;
    var mine, peer := s.Mine(side), s.Peer(side);
    SidesOk(s, side);
    Traceable(mine, t);
    j := mine.completedBy[t];
    ReadAsSent(peer, mine, j);
    ReplyOrigin(peer, j);
    i := peer.origin[j].at;
    ReadAsSent(mine, peer, i);
    RequestIsCalls(mine, i);
  }

  /**
   End-to-end correlation: a call that returned a buffer returned the output of
   the handler run spawned for exactly its own request, and that run is the only
   one its request ever had.
   */
  lemma Correlation(s: System, side: Side, t: Token) returns (k: nat)
    requires Reachable(s) && t in s.Mine(side).calls && s.Mine(side).calls[t].phase.Returned?
    ensures var mine, peer := s.Mine(side), s.Peer(side);
            && k < |peer.runs| && t < TWO64
            && peer.runs[k].request == RequestFrame(mine.config, t, mine.calls[t])
            && peer.runs[k].output == Some(mine.calls[t].phase.body)
            && forall m :: 0 <= m < |peer.runs| && peer.runs[m].request.token == t ==> m == k
  {
    hide Reachable, Sound, Flows, RequestFrame;
    var mine, peer := s.Mine(side), s.Peer(side);
    SidesOk(s, side);
    SettledIsCompleted(mine, t);
    Traceable(mine, t);
    var i, j := ResolvedByOwnRequest(s, side, t);
    k := peer.origin[j].run.value;
    RunServesAt(peer, k);
    RequestFrameToken(mine.config, t, mine.calls[t]);
    forall m | 0 <= m < |peer.runs| && peer.runs[m].request.token == t ensures m == k {
      RunsDistinct(s, side, k, m);
    }
  }

  lemma RequestFrameToken(config: Config, t: Token, call: Call)
    requires t < TWO64
    ensures RequestFrame(config, t, call).token == t
  {
  }

  lemma RunServesAt(e: Endpoint, k: nat)
    requires Sound(e) && k < |e.runs|
    ensures RunOk(e.got, e.runs[k])
  {
    hide TokensOk, Outgoing, Answered;
  }

  lemma RunsOrdered(e: Endpoint, k: nat, m: nat)
    requires Sound(e) && k < |e.runs| && m < |e.runs| && k != m
    ensures e.runs[k].at != e.runs[m].at
  {
    hide TokensOk, Outgoing, Answered;
  }

  lemma RequestsDistinct(e: Endpoint, i: nat, j: nat)
    requires Sound(e) && i < |e.sent| && j < |e.sent| && i != j
    requires e.sent[i].kind.Request? && e.sent[j].kind.Request?
    ensures e.sent[i].token != e.sent[j].token
  {
    hide TokensOk, Answered, Served, RequestFrame;
  }

  /** At most once: no two handler runs serve the same call. */
  lemma RunsDistinct(s: System, side: Side, k: nat, m: nat)
    requires Reachable(s) && k < |s.Peer(side).runs| && m < |s.Peer(side).runs|
    requires s.Peer(side).runs[k].request.token == s.Peer(side).runs[m].request.token
    ensures k == m
  {
    hide Reachable, Sound, Flows;
    if k != m {
      var mine, peer := s.Mine(side), s.Peer(side);
      SidesOk(s, side);
      RunServesAt(peer, k);
      RunServesAt(peer, m);
      RunsOrdered(peer, k, m);
      ReadAsSent(mine, peer, peer.runs[k].at);
      ReadAsSent(mine, peer, peer.runs[m].at);
      RequestsDistinct(mine, peer.runs[k].at, peer.runs[m].at);
    }
  }

  /** Every handler run serves a call its peer really made. */
  lemma RunServesCall(s: System, side: Side, k: nat)
    requires Reachable(s) && k < |s.Peer(side).runs|
    ensures IsRequestOf(s.Mine(side).config, s.Mine(side).calls, s.Peer(side).runs[k].request)
  {
    hide Reachable, Sound, Flows, IsRequestOf;
    var mine, peer := s.Mine(side), s.Peer(side);
    SidesOk(s, side);
    RunServesAt(peer, k);
    ReadAsSent(mine, peer, peer.runs[k].at);
    RequestIsCalls(mine, peer.runs[k].at);
  }

  /** A call that failed remotely was answered by an error frame, sent for its own request, carrying no output. */
  lemma RemoteFailureIsOwn(s: System, side: Side, t: Token) returns (i: nat, j: nat)
    requires Reachable(s) && InPhase(s.Mine(side), t, Failed(Remote))
    ensures var mine, peer := s.Mine(side), s.Peer(side);
            && t < TWO64 && i < |peer.got| && peer.got[i] == RequestFrame(mine.config, t, mine.calls[t])
            && j < |peer.sent| && peer.sent[j].kind.Error? && j in peer.origin && peer.origin[j].at == i
  {
    hide Reachable, Sound, Flows, RequestFrame;
    SidesOk(s, side);
    SettledIsCompleted(s.Mine(side), t);
    Traceable(s.Mine(side), t);
    i, j := ResolvedByOwnRequest(s, side, t);
  }

  lemma OriginsDistinct(e: Endpoint, i: nat, j: nat)
    requires Sound(e) && i in e.origin && j in e.origin && i != j
    ensures e.origin[i].at != e.origin[j].at
  {
    hide TokensOk, Outgoing, Served, OriginOk;
  }

  /** At most one reply: no two replies an endpoint queues answer the same request or carry the same token. */
  lemma AtMostOneReply(s: System, side: Side, i: nat, j: nat)
    requires Reachable(s) && i < |s.Mine(side).sent| && j < |s.Mine(side).sent| && i != j
    requires IsReply(s.Mine(side).sent[i]) && IsReply(s.Mine(side).sent[j])
    ensures var mine := s.Mine(side);
            && i in mine.origin && j in mine.origin && mine.origin[i].at != mine.origin[j].at
            && mine.sent[i].token != mine.sent[j].token
  {
    hide Reachable, Sound, Flows;
    var mine, peer := s.Mine(side), s.Peer(side);
    SidesOk(s, side);
    ReplyOrigin(mine, i);
    ReplyOrigin(mine, j);
    OriginsDistinct(mine, i, j);
    ReadAsSent(peer, mine, mine.origin[i].at);
    ReadAsSent(peer, mine, mine.origin[j].at);
    RequestsDistinct(peer, mine.origin[i].at, mine.origin[j].at);
  }

  // ----- tokens -----

  /** The pending set is what was issued, less what replies took, less what the sweep took; no token is in two of them. */
  lemma OneOwnerPerToken(s: System, side: Side)
    requires Reachable(s)
    ensures var e := s.Mine(side);
            && (forall t: Token :: t in e.calls <==> Issued(e, t))
            && e.ops.pending == e.calls.Keys - e.completedBy.Keys - e.swept
            && e.completedBy.Keys !! e.swept
            && e.delivered <= e.completedBy.Keys
  {
    hide Reachable;
    SidesOk(s, side);
    var e := s.Mine(side);
    forall t: Token ensures Owned(e, t) && (t in e.calls <==> Issued(e, t)) {
      assert TokenOk(e, t);
    }
    hide Sound, TokenOk;
    assert forall t :: t in e.calls ==> Owned(e, t);
    assert forall t :: t in e.ops.pending ==> Owned(e, t);
    assert forall t :: t in e.completedBy ==> Owned(e, t);
    assert forall t :: t in e.delivered ==> Owned(e, t);
  }

  /** What has left the pending map stays out, and what took it stays what took it. */
  ghost predicate TokenKept(e: Endpoint, e': Endpoint, t: Token) {
    && (t !in e.ops.pending ==> t !in e'.ops.pending)
    && (t in e.completedBy ==> t in e'.completedBy && e'.completedBy[t] == e.completedBy[t])
    && (t in e.swept ==> t in e'.swept)
    && (t in e.delivered ==> t in e'.delivered)
  }

  /**
   A token leaves the pending map once and for good, taken by one reply or one
   sweep for ever after; a timeout takes nothing out of the map.
   */
  lemma TokenLeavesOnce(s: System, m: Move, side: Side, t: Token)
    requires Reachable(s) && CanMove(s, m) && Issued(s.Mine(side), t)
    ensures TokenKept(s.Mine(side), Next(s, m).Mine(side), t)
    ensures m.step.Caller? && m.step.caller.Timeout? ==> Next(s, m).Mine(side).ops == s.Mine(side).ops
  {
    var e, peer := s.Mine(m.side), s.Peer(m.side);
    SidesOk(s, side);
    assert m.side == side ==> TokenOk(e, t);
    hide Reachable, Sound, Flows, After, Enabled;
    if m.side == side {
      OwnedToken(e, t);
      hide TokenOk, Owned, TokenKept;
      StepKeepsToken(e, peer, m.step, t);
      if m.step.Caller? && m.step.caller.Timeout? {
        TimeoutKeepsOps(e, peer, m.step);
      }
    } else {
      PeerKeepsToken(s.Peer(side), s.Mine(side), m.step, t);
    }
  }

  lemma OwnedToken(e: Endpoint, t: Token)
    requires TokenOk(e, t)
    ensures Owned(e, t)
  {
  }

  lemma TimeoutKeepsOps(e: Endpoint, peer: Endpoint, step: Step)
    requires Enabled(e, peer, step) && step.Caller? && step.caller.Timeout?
    ensures After(e, peer, step).ops == e.ops
  {
  }

  lemma PeerKeepsToken(e: Endpoint, peer: Endpoint, step: Step, t: Token)
    requires Enabled(e, peer, step)
    ensures TokenKept(peer, PeerAfter(e, peer, step), t) && PeerAfter(e, peer, step).ops == peer.ops
  {
  }

  lemma SameTokensKept(e: Endpoint, e': Endpoint, t: Token)
    requires SameTokens(e, e')
    ensures TokenKept(e, e', t)
  {
  }

  lemma StepKeepsToken(e: Endpoint, peer: Endpoint, step: Step, t: Token)
    requires Enabled(e, peer, step) && Owned(e, t) && Issued(e, t)
    ensures TokenKept(e, After(e, peer, step), t)
  {
    hide DoCall, DoAct, DoWrite, DoHandle, DoResume, DoClose, Digest, TokenKept, SameTokens;
    if Aside(e, peer, step) {
      AsideStep(e, peer, step);
      SameTokensKept(e, After(e, peer, step), t);
    } else {
      match step
      case Caller(c) => CallKeepsToken(e, c, t);
      case Resume(_) => SendKeepsToken(e, t);
      case Closer(c) => CloseKeepsToken(e, c, t);
      case ReadFrame(allowed) => DigestKeepsToken(e, peer.wire[0], allowed, t);
    }
  }

  lemma CallKeepsToken(e: Endpoint, step: CallerStep, t: Token)
    requires CanCall(e, step) && Issued(e, t)
    ensures TokenKept(e, DoCall(e, step), t)
  {
    CallFrame(e, step);
    hide DoCall;
  }

  lemma SendKeepsToken(e: Endpoint, t: Token)
    requires CanResume(e, SendResult)
    ensures TokenKept(e, DoResume(e, SendResult), t)
  {
  }

  lemma CloseKeepsToken(e: Endpoint, step: CloserStep, t: Token)
    requires CanClose(e, step)
    ensures TokenKept(e, DoClose(e, step), t)
  {
  }

  lemma DigestKeepsToken(e: Endpoint, f: Frame, allowed: bool, t: Token)
    requires Owned(e, t)
    ensures TokenKept(e, Digest(e, f, allowed), t)
  {
  }

  /** A completion about to send finds its channel open and empty: the capacity-1 send never waits, and it is the channel's only one. */
  lemma SendNeverBlocks(s: System, side: Side)
    requires Reachable(s) && s.Mine(side).reader.Completing?
    ensures var e := s.Mine(side); var t := e.reader.token;
            && CanResume(e, SendResult) && e.ops.channels[t] == Empty
            && t !in e.delivered && t !in e.ops.pending
  {
    hide Reachable;
    SidesOk(s, side);
    assert TokenOk(s.Mine(side), s.Mine(side).reader.token);
  }

  lemma ChannelHoldsAtMostOne(s: System, side: Side, t: Token)
    requires Reachable(s) && t in s.Mine(side).ops.channels
    ensures |s.Mine(side).ops.channels[t].buffer| <= 1
  {
    hide Reachable;
    SidesOk(s, side);
    assert TokenOk(s.Mine(side), t);
  }

  /**
   No caller is stranded by teardown: once close() has swept the pending calls, a
   caller still waiting can be resumed at once, or will be as soon as the sweep
   closes its channel or the completion that owns its token sends.
   */
  lemma NoCallerStranded(s: System, side: Side, t: Token)
    requires Reachable(s) && PastSweep(s.Mine(side)) && InPhase(s.Mine(side), t, Awaiting)
    ensures var e := s.Mine(side);
            || CanCall(e, Receive(t))
            || CanClose(e, CloseChannel(t))
            || (e.reader.Completing? && e.reader.token == t && CanResume(e, SendResult))
    ensures s.Mine(side).teardown.StreamShut? && !s.Mine(side).reader.Completing? ==> CanCall(s.Mine(side), Receive(t))
  {
    hide Reachable;
    SidesOk(s, side);
    assert TokenOk(s.Mine(side), t);
  }

  // ----- notifications -----

  /** The receiver applies, in order and without gaps, a beginning of the notifications the sender's queue accepted. */
  lemma NotificationOrder(s: System, side: Side)
    requires Reachable(s)
    ensures s.Peer(side).applied <= Accepted(s.Mine(side).attempts)
  {
    hide Reachable, TokensOk, Outgoing, Served, Answered;
    var mine, peer := s.Mine(side), s.Peer(side);
    SidesOk(s, side);
    assert mine.sent == peer.got + (mine.wire + mine.queue);
    NotificationsAppend(peer.got, mine.wire + mine.queue);
    assert Accepted(mine.attempts) == peer.applied + (peer.strand + Notifications(mine.wire + mine.queue));
  }

  // ----- outcomes -----

  /** Once a call has returned or failed, its outcome, its name and its request never change: a late reply goes nowhere. */
  lemma OutcomeFinal(s: System, m: Move, side: Side, t: Token)
    requires CanMove(s, m) && t in s.Mine(side).calls && 1 <= t < s.Mine(side).ops.next
    ensures var before, after := s.Mine(side), Next(s, m).Mine(side);
            && t in after.calls
            && after.calls[t].name == before.calls[t].name && after.calls[t].request == before.calls[t].request
            && (before.calls[t].phase.Returned? || before.calls[t].phase.Failed? ==> after.calls[t].phase == before.calls[t].phase)
  {
    var e, peer := s.Mine(m.side), s.Peer(m.side);
    if m.side == side {
      StepKeepsOutcome(e, peer, m.step, t);
    }
  }

  lemma StepKeepsOutcome(e: Endpoint, peer: Endpoint, step: Step, t: Token)
    requires Enabled(e, peer, step) && t in e.calls && 1 <= t < e.ops.next
    ensures var after := After(e, peer, step);
            && t in after.calls
            && after.calls[t].name == e.calls[t].name && after.calls[t].request == e.calls[t].request
            && (e.calls[t].phase.Returned? || e.calls[t].phase.Failed? ==> after.calls[t].phase == e.calls[t].phase)
  {
    hide DoCall, DoAct, DoWrite, DoHandle, DoResume, DoClose, Digest;
    if step.Caller? {
      CallKeepsOutcome(e, step.caller, t);
    } else {
      OnlyCallersCall(e, peer, step);
    }
  }

  lemma CallKeepsOutcome(e: Endpoint, step: CallerStep, t: Token)
    requires CanCall(e, step) && t in e.calls && 1 <= t < e.ops.next
    ensures var after := DoCall(e, step);
            && t in after.calls
            && after.calls[t].name == e.calls[t].name && after.calls[t].request == e.calls[t].request
            && (e.calls[t].phase.Returned? || e.calls[t].phase.Failed? ==> after.calls[t].phase == e.calls[t].phase)
  {
    CallFrame(e, step);
    hide DoCall;
  }
}
