/**
 Down to bytes: the frame-level wire of the protocol is the byte stream of
 Framing, in every reachable state. The two levels differ in one place: an
 oversized request is taken whole at frame level, where the byte-level reader
 stops at its header. That frame is always the last one taken.
 */
module Stream {
  import opened Words
  import opened StringHash
  import opened Framing
  import opened AsyncOps
  import opened Protocol
  import opened Invariant
  import opened Traffic
  import opened Soundness
  import Guarantees

  /** The frames an endpoint has written to the stream so far. */
  function Written(from: Endpoint, to: Endpoint): seq<Frame> {
    to.got + from.wire
  }

  lemma SentWellFormed(e: Endpoint, i: nat)
    requires Sound(e) && i < |e.sent|
    ensures WellFormed(e.sent[i])
  {
    hide TokensOk, Answered, Served, RequestFrame;
  }

  /** Everything a session puts on the wire fits its header, so the byte form is always defined. */
  lemma WrittenIsSized(s: System, side: Side)
    requires Reachable(s)
    ensures AllSized(Written(s.Mine(side), s.Peer(side))) && AllWellFormed(Written(s.Mine(side), s.Peer(side)))
    ensures Written(s.Mine(side), s.Peer(side)) <= s.Mine(side).sent
  {
    hide Reachable, Sound;
    var mine, peer := s.Mine(side), s.Peer(side);
    Guarantees.SidesOk(s, side);
    forall i | 0 <= i < |Written(mine, peer)| ensures WellFormed(Written(mine, peer)[i]) {
      assert mine.sent[i] == Written(mine, peer)[i];
      SentWellFormed(mine, i);
    }
  }

  // ----- an oversized frame is the last -----

  predicate Oversized(e: Endpoint, f: Frame) {
    !Bodiless(f.kind) && |f.body| > e.config.limit
  }

  /** The reader is done, or will be once it has answered the request at a position. */
  predicate Leaving(reader: Reader, at: nat) {
    reader.Gone? || (reader.Answering? && reader.at == at && reader.thenClose)
  }

  ghost predicate OversizedLast(e: Endpoint) {
    forall i :: 0 <= i < |e.got| && Oversized(e, e.got[i]) ==> i == |e.got| - 1 && Leaving(e.reader, i)
  }

  lemma DigestLast(e: Endpoint, f: Frame, allowed: bool)
    requires OversizedLast(e) && e.reader.Idle? && Takes(e, f)
    ensures OversizedLast(Digest(e, f, allowed))
  {
  }

  lemma HandlerKeepsReader(e: Endpoint, k: nat, step: HandlerStep)
    requires CanHandle(e, k, step)
    ensures DoHandle(e, k, step).reader == e.reader
  {
  }

  lemma AppKeepsReader(e: Endpoint, step: AppStep)
    requires CanAct(e, step)
    ensures DoAct(e, step).reader == e.reader
  {
  }

  lemma ResumeLeaves(e: Endpoint, step: ReaderStep, i: nat)
    requires CanResume(e, step) && Leaving(e.reader, i)
    ensures Leaving(DoResume(e, step).reader, i)
  {
  }

  /** Only its own steps move the reader, and one that is leaving leaves. */
  lemma ReaderLeaves(e: Endpoint, peer: Endpoint, step: Step, i: nat)
    requires Enabled(e, peer, step) && Leaving(e.reader, i) && !step.ReadFrame?
    ensures Leaving(After(e, peer, step).reader, i)
  {
    hide Leaving, DoCall, DoAct, DoHandle, DoResume;
    match step
    case Caller(c) => CallFrame(e, c);
    case App(a) => AppKeepsReader(e, a);
    case Handler(k, h) => HandlerKeepsReader(e, k, h);
    case Resume(r) => ResumeLeaves(e, r, i);
    case _ =>
  }

  lemma SameConfig(e: Endpoint, peer: Endpoint, step: Step)
    requires Enabled(e, peer, step)
    ensures After(e, peer, step).config == e.config
  {
    hide DoCall, DoAct, DoWrite, DoHandle;
    if Aside(e, peer, step) {
      AsideStep(e, peer, step);
      hide After;
    } else if step.Caller? {
      CallFrame(e, step.caller);
    }
  }

  lemma LastStep(e: Endpoint, peer: Endpoint, step: Step)
    requires Enabled(e, peer, step) && OversizedLast(e)
    ensures OversizedLast(After(e, peer, step))
  {
    hide DoCall, DoAct, DoWrite, DoHandle, DoResume, DoClose, Digest, Leaving;
    var e' := After(e, peer, step);
    SameConfig(e, peer, step);
    if step.ReadFrame? {
      NoneOversized(e);
      if Takes(e, peer.wire[0]) {
        DigestLast(e, peer.wire[0], step.allowed);
      }
    } else {
      StepMovesOut(e, peer, step);
      forall i | 0 <= i < |e.got| && Oversized(e, e.got[i]) ensures Leaving(e'.reader, i) {
        ReaderLeaves(e, peer, step, i);
      }
    }
  }

  lemma NoneOversized(e: Endpoint)
    requires OversizedLast(e) && e.reader.Idle?
    ensures forall i :: 0 <= i < |e.got| ==> !Oversized(e, e.got[i])
  {
  }

  lemma {:induction false} LastAt(left: Config, right: Config, moves: seq<Move>, states: seq<System>, n: nat)
    requires Run(System(Fresh(left), Fresh(right)), moves, states) && n <= |moves|
    ensures OversizedLast(states[n].left) && OversizedLast(states[n].right)
  {
    hide After, Enabled;
    if n > 0 {
      LastAt(left, right, moves, states, n - 1);
      var s, m := states[n - 1], moves[n - 1];
      assert CanMove(s, m) && states[n] == Next(s, m);
      LastStep(s.Mine(m.side), s.Peer(m.side), m.step);
    }
  }

  /** In every reachable state a frame over a reader's limit is the last frame that reader ever takes. */
  lemma OversizedIsLast(s: System, side: Side)
    requires Reachable(s)
    ensures OversizedLast(s.Mine(side))
  {
    hide Fresh, CanMove, Next, OversizedLast;
    var left: Config, right: Config, moves, states :|
      Run(System(Fresh(left), Fresh(right)), moves, states) && states[|moves|] == s;
    LastAt(left, right, moves, states, |moves|);
  }

  // ----- the two levels agree -----

  lemma PrefixLength(fs: seq<Frame>, k: nat)
    requires AllSized(fs) && k < |fs|
    ensures |EncodeAll(fs[..k])| + |EncodeFrame(fs[k])| == |EncodeAll(fs[..k + 1])| <= |EncodeAll(fs)|
  {
    hide EncodeFrame;
    assert fs[..k + 1] == fs[..k] + [fs[k]] && fs == fs[..k + 1] + fs[k + 1..];
    assert EncodeAll([fs[k]]) == EncodeFrame(fs[k]);
    EncodeAllAppends(fs[..k], [fs[k]]);
    EncodeAllAppends(fs[..k + 1], fs[k + 1..]);
  }

  /** The frames an endpoint has taken whole: all but an oversized request at the end. */
  function Whole(e: Endpoint): nat {
    if e.got != [] && Oversized(e, e.got[|e.got| - 1]) then |e.got| - 1 else |e.got|
  }

  /** Once the bytes of what the frame-level reader took have arrived, the byte-level reader has got as far and, at an oversized request, no further. */
  lemma LevelsAgree(fs: seq<Frame>, e: Endpoint, n: nat, k: nat, r: Reading)
    requires AllSized(fs) && AllWellFormed(fs) && e.got <= fs && OversizedLast(e)
    requires ReadsTo(fs, n, e.config.limit, k, r) && AllSized(e.got) && |EncodeAll(e.got)| <= n
    ensures Whole(e) <= k
    ensures Whole(e) < |e.got| ==> k == Whole(e) && r.why.TooBig?
  {
    hide EncodeAll, EncodeFrame;
    if k < |e.got| {
      assert fs[..k] == e.got[..k] && fs[k] == e.got[k];
      PrefixLength(e.got, k);
      SizeOfFrame(fs[k]);
    }
    if Whole(e) < k {
      assert fs[..k][Whole(e)] == fs[Whole(e)];
    }
  }

  lemma SizeOfFrame(f: Frame)
    requires Sized(f)
    ensures |EncodeFrame(f)| >= HEADER_BYTES
  {
  }

  /**
   In every reachable state, however many of the written bytes have arrived: the
   byte-level reader takes from them the beginning of what the queue accepted, up to
   the last complete frame or the first over the receiver's limit; and it has kept
   pace with the frame-level reader.
   */
  lemma BytesCarryFrames(s: System, side: Side, n: nat) returns (k: nat)
    requires Reachable(s) && AllSized(Written(s.Mine(side), s.Peer(side)))
    requires n <= |EncodeAll(Written(s.Mine(side), s.Peer(side)))|
    ensures var mine, peer := s.Mine(side), s.Peer(side);
            var r := ReadAll(EncodeAll(Written(mine, peer))[..n], peer.config.limit);
            && k <= |mine.sent| && r.frames == mine.sent[..k]
            && ReadsTo(Written(mine, peer), n, peer.config.limit, k, r)
            && AllSized(peer.got)
            && (|EncodeAll(peer.got)| <= n ==> Whole(peer) <= k && (Whole(peer) < |peer.got| ==> k == Whole(peer) && r.why.TooBig?))
  {
    hide Reachable, EncodeAll, ReadAll, StopsAt, OversizedLast;
    var mine, peer := s.Mine(side), s.Peer(side);
    var other := if side.Left? then Right else Left;
    var fs := Written(mine, peer);
    WrittenIsSized(s, side);
    OversizedIsLast(s, other);
    k := ReadAnyPrefix(fs, n, peer.config.limit);
    assert fs[..k] == mine.sent[..k];
    assert forall i :: 0 <= i < |peer.got| ==> fs[i] == peer.got[i];
    if |EncodeAll(peer.got)| <= n {
      LevelsAgree(fs, peer, n, k, ReadAll(EncodeAll(fs)[..n], peer.config.limit));
    }
  }
}
