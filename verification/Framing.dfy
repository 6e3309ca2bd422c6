/**
 The byte layer of a session: what msg_writer puts on the stream and what
 msg_reader takes off it. A frame is a header of five 64-bit words (magic, body
 size, message type shifted left by 32, call id, user token) and then the body.
 */
module Framing {
  import opened Words

  const MAGIC: Word := 0xBADC0FFEE
  const HEADER_BYTES := 40

  datatype Kind = Nop | Request | Response | Notification | Error | Ping | Pong

  function Code(k: Kind): (c: nat) {
    match k
    case Nop => 0
    case Request => 1
    case Response => 2
    case Notification => 3
    case Error => 4
    case Ping => 5
    case Pong => 6
  }

  /** The reader's switch over the message type; anything else is a framing violation. */
  function KindOf(code: nat): Option<Kind> {
    if code == 0 then Some(Nop)
    else if code == 1 then Some(Request)
    else if code == 2 then Some(Response)
    else if code == 3 then Some(Notification)
    else if code == 4 then Some(Error)
    else if code == 5 then Some(Ping)
    else if code == 6 then Some(Pong)
    else None
  }

  /** The keepalive kinds, whose body the reader never reads. */
  predicate Bodiless(k: Kind) {
    k.Nop? || k.Ping? || k.Pong?
  }

  datatype Frame = Frame(kind: Kind, callId: Word, token: Word, body: Bytes)

  /** The body length fits the header's size word. */
  predicate Sized(f: Frame) {
    |f.body| < TWO64
  }

  /** What a session writes: the length fits, and keepalives have no body. */
  predicate WellFormed(f: Frame) {
    Sized(f) && (Bodiless(f.kind) ==> f.body == [])
  }

  /** What the receiver takes off the wire whole: bounded body, no body on keepalives. */
  predicate Readable(f: Frame, limit: nat) {
    if Bodiless(f.kind) then f.body == [] else |f.body| <= limit
  }

  function Header(f: Frame): seq<Word>
    requires Sized(f)
  {
    [MAGIC, |f.body|, Code(f.kind) * TWO32, f.callId, f.token]
  }

  function EncodeWords(ws: seq<Word>): (s: Bytes)
    ensures |s| == 8 * |ws|
  {
    if ws == [] then [] else ToLittle(ws[0], 8) + EncodeWords(ws[1..])
  }

  function EncodeFrame(f: Frame): (s: Bytes)
    requires Sized(f)
    ensures |s| == HEADER_BYTES + |f.body|
  {
    EncodeWords(Header(f)) + f.body
  }

  ghost predicate AllSized(fs: seq<Frame>) {
    forall i :: 0 <= i < |fs| ==> Sized(fs[i])
  }

  ghost predicate AllReadable(fs: seq<Frame>, limit: nat) {
    forall i :: 0 <= i < |fs| ==> Readable(fs[i], limit)
  }

  /** The byte stream of a sequence of write items, in queue order. */
  ghost function EncodeAll(fs: seq<Frame>): (s: Bytes)
    requires AllSized(fs)
  {
    if fs == [] then [] else EncodeFrame(fs[0]) + EncodeAll(fs[1..])
  }

  function HeaderWord(s: Bytes, i: nat): (w: Word)
    requires i < 5 && |s| >= HEADER_BYTES
  {
    Pow256Of8();
    FromLittle(s[8 * i..8 * i + 8])
  }

  datatype Reason = Eof | BadMagic | UnknownKind | TooBig(kind: Kind, callId: Word, token: Word)

  datatype Read = Got(frame: Frame, rest: Bytes) | Stop(why: Reason)

  /** One iteration of the reader loop on the bytes still to come. */
  function ReadOne(s: Bytes, limit: nat): (r: Read)
    ensures r.Got? ==> Readable(r.frame, limit) && |r.rest| < |s|
  {
    if |s| < HEADER_BYTES then Stop(Eof)
    else if HeaderWord(s, 0) != MAGIC then Stop(BadMagic)
    else
      var size, callId, token := HeaderWord(s, 1), HeaderWord(s, 3), HeaderWord(s, 4);
      match KindOf(HeaderWord(s, 2) / TWO32)
      case None => Stop(UnknownKind)
      case Some(kind) =>
        if Bodiless(kind) then Got(Frame(kind, callId, token, []), s[HEADER_BYTES..])
        else if size > limit then Stop(TooBig(kind, callId, token))
        else if |s| < HEADER_BYTES + size then Stop(Eof)
        else Got(Frame(kind, callId, token, s[HEADER_BYTES..HEADER_BYTES + size]), s[HEADER_BYTES + size..])
  }

  datatype Reading = Reading(frames: seq<Frame>, why: Reason)

  /** The whole reader loop: the frames taken and why it stopped. */
  function ReadAll(s: Bytes, limit: nat): Reading
    decreases |s|
  {
    match ReadOne(s, limit)
    case Stop(why) => Reading([], why)
    case Got(f, rest) =>
      var more := ReadAll(rest, limit);
      Reading([f] + more.frames, more.why)
  }

  // ----- round trip -----

  lemma {:induction false} EncodeWordsAt(ws: seq<Word>, i: nat)
    requires i < |ws|
    ensures EncodeWords(ws)[8 * i..8 * i + 8] == ToLittle(ws[i], 8)
  {
    if i > 0 {
      EncodeWordsAt(ws[1..], i - 1);
      assert EncodeWords(ws)[8 * i..8 * i + 8] == EncodeWords(ws[1..])[8 * (i - 1)..8 * (i - 1) + 8];
    }
  }

  /** Where things are on the wire, byte by byte: magic, size, type in the upper half of its word, call id, token, body. */
  lemma HeaderLayout(f: Frame)
    requires Sized(f)
    ensures var s := EncodeFrame(f);
            var code := match f.kind
                        case Nop => 0 case Request => 1 case Response => 2 case Notification => 3
                        case Error => 4 case Ping => 5 case Pong => 6;
            && s[0..8] == [0xEE, 0xFF, 0xC0, 0xAD, 0x0B, 0, 0, 0]
            && s[8..16] == ToLittle(|f.body|, 8)
            && s[16..24] == [0, 0, 0, 0, code, 0, 0, 0]
            && s[24..32] == ToLittle(f.callId, 8)
            && s[32..40] == ToLittle(f.token, 8)
            && s[40..] == f.body
  {
    var h := EncodeWords(Header(f));
    forall i | 0 <= i < 5 ensures EncodeFrame(f)[8 * i..8 * i + 8] == ToLittle(Header(f)[i], 8) {
      EncodeWordsAt(Header(f), i);
      assert EncodeFrame(f)[8 * i..8 * i + 8] == h[8 * i..8 * i + 8];
    }
    hide ToLittle, EncodeWords;
    assert EncodeFrame(f)[8 * 0..8 * 0 + 8] == ToLittle(Header(f)[0], 8);
    assert EncodeFrame(f)[8 * 1..8 * 1 + 8] == ToLittle(Header(f)[1], 8);
    assert EncodeFrame(f)[8 * 2..8 * 2 + 8] == ToLittle(Header(f)[2], 8);
    assert EncodeFrame(f)[8 * 3..8 * 3 + 8] == ToLittle(Header(f)[3], 8);
    assert EncodeFrame(f)[8 * 4..8 * 4 + 8] == ToLittle(Header(f)[4], 8);
    MagicBytes();
    TypeBytes(Code(f.kind));
  }

  lemma MagicBytes()
    ensures ToLittle(0xBADC0FFEE, 8) == [0xEE, 0xFF, 0xC0, 0xAD, 0x0B, 0, 0, 0]
  {
    assert ToLittle(0, 3) == [0, 0, 0];
    assert ToLittle(0x0B, 4) == [0x0B, 0, 0, 0];
    assert ToLittle(0xBADC0, 6) == [0xC0, 0xAD] + ToLittle(0x0B, 4);
  }

  lemma TypeBytes(code: nat)
    requires code < 256
    ensures ToLittle(code * TWO32, 8) == [0, 0, 0, 0, code, 0, 0, 0]
  {
    assert ToLittle(0, 3) == [0, 0, 0];
    assert ToLittle(code, 4) == [code, 0, 0, 0];
    assert ToLittle(code * 0x1_0000, 6) == [0, 0] + ToLittle(code, 4);
  }

  lemma HeaderWordOf(f: Frame, tail: Bytes, i: nat)
    requires Sized(f) && i < 5
    ensures HeaderWord(EncodeFrame(f) + tail, i) == Header(f)[i]
  {
    var h := EncodeWords(Header(f));
    EncodeWordsAt(Header(f), i);
    assert (EncodeFrame(f) + tail)[8 * i..8 * i + 8] == h[8 * i..8 * i + 8];
    WordRoundTrip(Header(f)[i]);
  }

  /**
   Reading any written frame: the frame itself and the position just past it when it
   is readable; a keepalive with a body is taken without it, leaving the body to be
   read as the next header; anything else is too big.
   */
  lemma ReadOneOfFrame(f: Frame, tail: Bytes, limit: nat)
    requires Sized(f)
    ensures Readable(f, limit) ==> ReadOne(EncodeFrame(f) + tail, limit) == Got(f, tail)
    ensures !Readable(f, limit) ==>
              ReadOne(EncodeFrame(f) + tail, limit) ==
              if Bodiless(f.kind) then Got(f.(body := []), f.body + tail) else Stop(TooBig(f.kind, f.callId, f.token))
  {
    var s := EncodeFrame(f) + tail;
    HeaderWordOf(f, tail, 0);
    HeaderWordOf(f, tail, 1);
    HeaderWordOf(f, tail, 2);
    HeaderWordOf(f, tail, 3);
    HeaderWordOf(f, tail, 4);
    assert Code(f.kind) * TWO32 / TWO32 == Code(f.kind);
    assert KindOf(Code(f.kind)) == Some(f.kind);
    assert s[HEADER_BYTES..HEADER_BYTES + |f.body|] == f.body;
    assert s[HEADER_BYTES + |f.body|..] == tail && s[HEADER_BYTES..] == f.body + tail;
  }

  lemma UpperHalf(w: Bytes)
    requires |w| == 8
    ensures FromLittle(w) / TWO32 == FromLittle(w[4..])
  {
    var low := FromLittle(w[..4]);
    assert low < Pow256(4) == TWO32;
    assert w == w[..4] + w[4..];
    FromLittleAppends(w[..4], w[4..]);
    assert FromLittle(w) == low + TWO32 * FromLittle(w[4..]);
  }

  lemma Associates(x: nat, y: nat, z: nat)
    ensures x * (y * z) == (x * y) * z
  {
  }

  lemma {:induction false} FromLittleAppends(a: Bytes, b: Bytes)
    ensures FromLittle(a + b) == FromLittle(a) + Pow256(|a|) * FromLittle(b)
  {
    if a == [] {
      assert a + b == b;
    } else {
      FromLittleAppends(a[1..], b);
      assert (a + b)[1..] == a[1..] + b;
      Associates(256, Pow256(|a| - 1), FromLittle(b));
    }
  }

  lemma IsMagic(s: Bytes)
    requires |s| >= HEADER_BYTES
    ensures HeaderWord(s, 0) == 0xBADC0FFEE <==> s[0..8] == [0xEE, 0xFF, 0xC0, 0xAD, 0x0B, 0, 0, 0]
  {
    MagicBytes();
    Pow256Of8();
    LittleRoundTrip(0xBADC0FFEE, 8);
    LittleRoundTripBack(s[0..8]);
  }

  /** One turn of the reader on any bytes whatever, field by field. */
  lemma ReadOneIs(s: Bytes, limit: nat)
    ensures var r := ReadOne(s, limit);
            if |s| < 40 then r == Stop(Eof)
            else if s[0..8] != [0xEE, 0xFF, 0xC0, 0xAD, 0x0B, 0, 0, 0] then r == Stop(BadMagic)
            else
              var size, code := FromLittle(s[8..16]), FromLittle(s[20..24]);
              if code > 6 then r == Stop(UnknownKind)
              else if code == 0 || code >= 5 then
                r.Got? && r.frame.body == [] && r.rest == s[40..] && FieldsAre(r.frame.kind, r.frame.callId, r.frame.token, s)
              else if size > limit then
                r.Stop? && r.why.TooBig? && FieldsAre(r.why.kind, r.why.callId, r.why.token, s)
              else if |s| < 40 + size then r == Stop(Eof)
              else
                r.Got? && |r.frame.body| == size && r.frame.body + r.rest == s[40..]
                && FieldsAre(r.frame.kind, r.frame.callId, r.frame.token, s)
  {
    if |s| >= 40 {
      IsMagic(s);
      UpperHalf(s[16..24]);
      assert s[16..24][4..] == s[20..24];
      hide FromLittle;
      assert HeaderWord(s, 1) == FromLittle(s[8..16]) && HeaderWord(s, 2) == FromLittle(s[16..24]);
    }
  }

  /** The kind, call id and token that the header's bytes name. */
  predicate FieldsAre(kind: Kind, callId: Word, token: Word, s: Bytes)
    requires |s| >= 40
  {
    && FromLittle(s[20..24]) == (match kind
                                 case Nop => 0 case Request => 1 case Response => 2 case Notification => 3
                                 case Error => 4 case Ping => 5 case Pong => 6)
    && callId == FromLittle(s[24..32]) && token == FromLittle(s[32..40])
  }

  lemma ReadOneOfNothing(limit: nat)
    ensures ReadOne([], limit) == Stop(Eof)
  {
  }

  lemma ReadAllStep(s: Bytes, limit: nat)
    ensures match ReadOne(s, limit)
            case Stop(why) => ReadAll(s, limit) == Reading([], why)
            case Got(f, rest) =>
              ReadAll(s, limit) == Reading([f] + ReadAll(rest, limit).frames, ReadAll(rest, limit).why)
  {
  }

  lemma ReadAllCons(f: Frame, tail: Bytes, limit: nat)
    requires Sized(f) && Readable(f, limit)
    ensures ReadAll(EncodeFrame(f) + tail, limit) ==
            Reading([f] + ReadAll(tail, limit).frames, ReadAll(tail, limit).why)
  {
    ReadOneOfFrame(f, tail, limit);
    ReadAllStep(EncodeFrame(f) + tail, limit);
  }

  /** After the frames, the loop stands at the first byte of whatever follows. */
  lemma {:induction false} ReadAllAppends(fs: seq<Frame>, tail: Bytes, limit: nat)
    requires AllSized(fs) && AllReadable(fs, limit)
    ensures ReadAll(EncodeAll(fs) + tail, limit) ==
            Reading(fs + ReadAll(tail, limit).frames, ReadAll(tail, limit).why)
  {
    hide ReadOne, ReadAll;
    if fs == [] {
      assert EncodeAll(fs) + tail == tail;
      assert fs + ReadAll(tail, limit).frames == ReadAll(tail, limit).frames;
    } else {
      var rest := EncodeAll(fs[1..]) + tail;
      ReadAllAppends(fs[1..], tail, limit);
      ReadAllCons(fs[0], rest, limit);
      assert EncodeAll(fs) + tail == EncodeFrame(fs[0]) + rest;
      var more := ReadAll(tail, limit).frames;
      assert [fs[0]] + (fs[1..] + more) == fs + more;
    }
  }

  /** A proper prefix of one frame yields no frame: the reader stops inside it. */
  lemma PartialFrame(f: Frame, n: nat, limit: nat)
    requires Sized(f) && Readable(f, limit) && n < |EncodeFrame(f)|
    ensures ReadOne(EncodeFrame(f)[..n], limit) == Stop(Eof)
  {
    var s := EncodeFrame(f)[..n];
    if n >= HEADER_BYTES {
      forall i: nat | i < 5 ensures HeaderWord(s, i) == Header(f)[i] {
        HeaderWordOf(f, [], i);
        assert EncodeFrame(f) + [] == EncodeFrame(f);
        assert s[8 * i..8 * i + 8] == EncodeFrame(f)[8 * i..8 * i + 8];
      }
      assert Code(f.kind) * TWO32 / TWO32 == Code(f.kind);
    }
  }

  /** A frame over the limit ends the reading as soon as its header is there. */
  lemma OversizedStops(f: Frame, s: Bytes, limit: nat)
    requires WellFormed(f) && !Readable(f, limit) && |s| >= HEADER_BYTES && s[..HEADER_BYTES] == EncodeWords(Header(f))
    ensures ReadOne(s, limit) == Stop(TooBig(f.kind, f.callId, f.token))
  {
    forall i: nat | i < 5 ensures HeaderWord(s, i) == Header(f)[i] {
      EncodeWordsAt(Header(f), i);
      assert s[8 * i..8 * i + 8] == s[..HEADER_BYTES][8 * i..8 * i + 8];
      WordRoundTrip(Header(f)[i]);
    }
    assert Code(f.kind) * TWO32 / TWO32 == Code(f.kind);
  }

  ghost predicate AllWellFormed(fs: seq<Frame>) {
    forall i :: 0 <= i < |fs| ==> WellFormed(fs[i])
  }

  /** Whether n bytes of the stream reach past the header of frame k, and the receiver refuses to take it. */
  ghost predicate StopsAt(fs: seq<Frame>, k: nat, n: nat, limit: nat)
    requires AllSized(fs)
  {
    k < |fs| && !Readable(fs[k], limit) && n >= |EncodeAll(fs[..k])| + HEADER_BYTES
  }

  /** What reading the first n bytes of a stream of frames gives: the frames before the k-th, and the reason to stop there. */
  ghost predicate ReadsTo(fs: seq<Frame>, n: nat, limit: nat, k: nat, r: Reading)
    requires AllSized(fs)
  {
    && k <= |fs| && r.frames == fs[..k] && AllReadable(fs[..k], limit) && |EncodeAll(fs[..k])| <= n
    && (StopsAt(fs, k, n, limit) ==> r.why == TooBig(fs[k].kind, fs[k].callId, fs[k].token))
    && (!StopsAt(fs, k, n, limit) ==> r.why == Eof && (k < |fs| ==> n < |EncodeAll(fs[..k])| + |EncodeFrame(fs[k])|))
  }

  lemma ReadOfShort(s: Bytes, limit: nat)
    requires |s| < HEADER_BYTES
    ensures ReadOne(s, limit) == Stop(Eof)
  {
  }

  lemma ReadsNothing(fs: seq<Frame>, n: nat, limit: nat)
    requires AllSized(fs) && AllWellFormed(fs) && n <= |EncodeAll(fs)|
    requires fs == [] || n < |EncodeFrame(fs[0])| || !Readable(fs[0], limit)
    ensures ReadsTo(fs, n, limit, 0, ReadAll(EncodeAll(fs)[..n], limit))
  {
    hide ReadOne, ReadAll;
    var s := EncodeAll(fs)[..n];
    ReadAllStep(s, limit);
    assert fs[..0] == [];
    if n < HEADER_BYTES {
      ReadOfShort(s, limit);
    } else if !Readable(fs[0], limit) {
      assert s[..HEADER_BYTES] == EncodeWords(Header(fs[0]));
      OversizedStops(fs[0], s, limit);
    } else {
      assert s == EncodeFrame(fs[0])[..n];
      PartialFrame(fs[0], n, limit);
    }
  }

  lemma ReadsOneMore(fs: seq<Frame>, n: nat, limit: nat, k: nat)
    requires fs != [] && AllSized(fs) && Readable(fs[0], limit) && |EncodeFrame(fs[0])| <= n <= |EncodeAll(fs)|
    requires var m := n - |EncodeFrame(fs[0])|; ReadsTo(fs[1..], m, limit, k, ReadAll(EncodeAll(fs[1..])[..m], limit))
    ensures ReadsTo(fs, n, limit, k + 1, ReadAll(EncodeAll(fs)[..n], limit))
  {
    hide ReadOne, ReadAll, EncodeFrame;
    var m := n - |EncodeFrame(fs[0])|;
    assert EncodeAll(fs)[..n] == EncodeFrame(fs[0]) + EncodeAll(fs[1..])[..m];
    ReadAllCons(fs[0], EncodeAll(fs[1..])[..m], limit);
    assert fs[..k + 1] == [fs[0]] + fs[1..][..k];
    assert fs[..k + 1][1..] == fs[1..][..k];
    assert |EncodeAll(fs[..k + 1])| == |EncodeFrame(fs[0])| + |EncodeAll(fs[1..][..k])|;
  }

  /**
   Framing, cut anywhere: whatever prefix of the written bytes has arrived, the
   reader has taken exactly the frames that are complete in it, in order, up to the
   first that is over its limit.
   */
  lemma {:induction false} ReadAnyPrefix(fs: seq<Frame>, n: nat, limit: nat) returns (k: nat)
    requires AllSized(fs) && AllWellFormed(fs) && n <= |EncodeAll(fs)|
    ensures ReadsTo(fs, n, limit, k, ReadAll(EncodeAll(fs)[..n], limit))
  {
    hide ReadAll, EncodeFrame, ReadsTo;
    if fs == [] || n < |EncodeFrame(fs[0])| || !Readable(fs[0], limit) {
      k := 0;
      ReadsNothing(fs, n, limit);
    } else {
      var j := ReadAnyPrefix(fs[1..], n - |EncodeFrame(fs[0])|, limit);
      k := j + 1;
      ReadsOneMore(fs, n, limit, j);
    }
  }

  /** When every frame is within the limit, exactly the complete ones. */
  lemma ReadOfPrefix(fs: seq<Frame>, n: nat, limit: nat) returns (k: nat)
    requires AllSized(fs) && AllReadable(fs, limit) && n <= |EncodeAll(fs)|
    ensures k <= |fs| && ReadAll(EncodeAll(fs)[..n], limit) == Reading(fs[..k], Eof)
    ensures |EncodeAll(fs[..k])| <= n
    ensures k < |fs| ==> n < |EncodeAll(fs[..k])| + |EncodeFrame(fs[k])|
  {
    hide ReadAll, EncodeFrame;
    k := ReadAnyPrefix(fs, n, limit);
  }

  /** The reader recovers what was written, exactly when every frame is readable. */
  lemma {:induction false} RoundTripIff(fs: seq<Frame>, limit: nat)
    requires AllSized(fs)
    ensures ReadAll(EncodeAll(fs), limit).frames == fs <==> AllReadable(fs, limit)
  {
    hide ReadOne, ReadAll;
    if AllReadable(fs, limit) {
      ReadAllAppends(fs, [], limit);
      assert EncodeAll(fs) + [] == EncodeAll(fs);
      ReadOneOfNothing(limit);
      ReadAllStep([], limit);
      assert fs + [] == fs;
    } else {
      ReadOneOfFrame(fs[0], EncodeAll(fs[1..]), limit);
      ReadAllStep(EncodeAll(fs), limit);
      if Readable(fs[0], limit) {
        RoundTripIff(fs[1..], limit);
        assert fs == [fs[0]] + fs[1..];
      }
    }
  }

  /** So two readable streams with the same bytes carry the same frames. */
  lemma EncodingInjective(fs: seq<Frame>, gs: seq<Frame>, limit: nat)
    requires AllSized(fs) && AllSized(gs) && AllReadable(fs, limit) && AllReadable(gs, limit)
    requires EncodeAll(fs) == EncodeAll(gs)
    ensures fs == gs
  {
    RoundTripIff(fs, limit);
    RoundTripIff(gs, limit);
  }

  lemma {:induction false} EncodeAllAppends(fs: seq<Frame>, gs: seq<Frame>)
    requires AllSized(fs) && AllSized(gs)
    ensures AllSized(fs + gs) && EncodeAll(fs + gs) == EncodeAll(fs) + EncodeAll(gs)
  {
    hide EncodeFrame;
    if fs == [] {
      assert fs + gs == gs;
    } else {
      EncodeAllAppends(fs[1..], gs);
      assert (fs + gs)[1..] == fs[1..] + gs;
    }
  }

  // ----- the loops themselves -----

  ghost function Flatten(chunks: seq<Bytes>): Bytes {
    if chunks == [] then [] else chunks[0] + Flatten(chunks[1..])
  }

  /** The receiving half of the stream: bytes arrive in pieces of any size until end of file. */
  class ByteStream {
    var chunks: seq<Bytes>

    constructor (arriving: seq<Bytes>)
      ensures chunks == arriving
    {
      chunks := arriving;
    }

    ghost function Pending(): Bytes
      reads this
    {
      Flatten(chunks)
    }

    /** async_read with transfer_exactly: the next n bytes, or failure at end of file. */
    method ReadExactly(n: nat) returns (ok: bool, data: Bytes)
      modifies this
      ensures ok <==> |old(Pending())| >= n
      ensures ok ==> data == old(Pending())[..n] && Pending() == old(Pending())[n..]
    {
      ghost var all := Pending();
      data := [];
      while |data| < n && chunks != []
        invariant |data| <= n
        invariant data + Pending() == all
        decreases |chunks|, n - |data|
      {
        var chunk, need := chunks[0], n - |data|;
        if |chunk| <= need {
          data, chunks := data + chunk, chunks[1..];
        } else {
          ghost var before := data;
          data, chunks := data + chunk[..need], [chunk[need..]] + chunks[1..];
          assert Pending() == chunk[need..] + Flatten(chunks[1..]);
          assert chunk == chunk[..need] + chunk[need..];
        }
      }
      ok := |data| == n;
      if ok {
        assert all[..n] == data;
      } else {
        assert all == data;
      }
    }
  }

  /** What the reader does with one frame; `Refuse` is the rate gate's error reply. */
  datatype Event =
    | Alive(kind: Kind)
    | Serve(request: Frame)
    | Refuse(callId: Word, token: Word)
    | Resolve(token: Word, result: Bytes)
    | Notify(callId: Word, payload: Bytes)
    | Fail(token: Word)

  function EventOf(f: Frame, allowed: bool): Event {
    match f.kind
    case Request => if allowed then Serve(f) else Refuse(f.callId, f.token)
    case Response => Resolve(f.token, f.body)
    case Notification => Notify(f.callId, f.body)
    case Error => Fail(f.token)
    case _ => Alive(f.kind)
  }

  /** `gate(i)` is the token bucket's verdict on the i-th frame, were it a request. */
  ghost function EventsOf(fs: seq<Frame>, gate: nat -> bool): seq<Event> {
    seq(|fs|, i requires 0 <= i < |fs| => EventOf(fs[i], gate(i)))
  }

  datatype Taken = Item(frame: Frame) | Halt(why: Reason)

  /** One turn of the reader loop: a header, then as much body as its kind and size call for. */
  method ReadFrame(stream: ByteStream, limit: nat) returns (taken: Taken)
    modifies stream
    ensures match ReadOne(old(stream.Pending()), limit)
            case Stop(why) => taken == Halt(why)
            case Got(f, rest) => taken == Item(f) && stream.Pending() == rest
  {
    ghost var s := stream.Pending();
    var ok, header := stream.ReadExactly(HEADER_BYTES);
    if !ok {
      return Halt(Eof);
    }
    HeaderPrefix(s, header);
    if HeaderWord(header, 0) != MAGIC {
      return Halt(BadMagic);
    }
    var size, callId, token := HeaderWord(header, 1), HeaderWord(header, 3), HeaderWord(header, 4);
    var kind := KindOf(HeaderWord(header, 2) / TWO32);
    if kind.None? {
      return Halt(UnknownKind);
    }
    var body: Bytes := [];
    if !Bodiless(kind.value) {
      if size > limit {
        return Halt(TooBig(kind.value, callId, token));
      }
      ok, body := stream.ReadExactly(size);
      if !ok {
        return Halt(Eof);
      }
      assert s[HEADER_BYTES..][..size] == s[HEADER_BYTES..HEADER_BYTES + size];
      assert s[HEADER_BYTES..][size..] == s[HEADER_BYTES + size..];
    }
    return Item(Frame(kind.value, callId, token, body));
  }

  /**
   msg_reader as a loop over the stream. However the bytes are chunked, and
   whether a request body is handed on or drained, the events are those of the
   frames ReadAll finds in the concatenated bytes.
   */
  method MsgReader(stream: ByteStream, limit: nat, gate: nat -> bool) returns (events: seq<Event>, why: Reason)
    modifies stream
    ensures why == ReadAll(old(stream.Pending()), limit).why
    ensures events == EventsOf(ReadAll(old(stream.Pending()), limit).frames, gate)
  {
    hide ReadOne, ReadAll;
    ghost var whole := ReadAll(stream.Pending(), limit);
    ghost var done: seq<Frame> := [];
    events := [];
    while true
      invariant whole.frames == done + ReadAll(stream.Pending(), limit).frames
      invariant whole.why == ReadAll(stream.Pending(), limit).why
      invariant events == EventsOf(done, gate)
      decreases |stream.Pending()|
    {
      ghost var s := stream.Pending();
      ReadAllStep(s, limit);
      var taken := ReadFrame(stream, limit);
      match taken {
        case Halt(reason) =>
          assert whole.frames == done;
          return events, reason;
        case Item(frame) =>
          ghost var more := ReadAll(stream.Pending(), limit).frames;
          assert done + ([frame] + more) == (done + [frame]) + more;
          events := events + [EventOf(frame, gate(|events|))];
          done := done + [frame];
      }
    }
  }

  lemma HeaderPrefix(s: Bytes, header: Bytes)
    requires |s| >= HEADER_BYTES && header == s[..HEADER_BYTES]
    ensures forall i: nat :: i < 5 ==> HeaderWord(header, i) == HeaderWord(s, i)
  {
    forall i: nat | i < 5 ensures HeaderWord(header, i) == HeaderWord(s, i) {
      assert header[8 * i..8 * i + 8] == s[8 * i..8 * i + 8];
    }
  }

  /** msg_writer: drains the queue, header then body for each item. */
  method MsgWriter(items: seq<Frame>) returns (stream: Bytes)
    requires AllSized(items)
    ensures stream == EncodeAll(items)
  {
    stream := [];
    for i := 0 to |items|
      invariant AllSized(items[..i]) && stream == EncodeAll(items[..i])
    {
      stream := stream + EncodeWords(Header(items[i]));
      stream := stream + items[i].body;
      EncodeAllAppends(items[..i], [items[i]]);
      assert items[..i + 1] == items[..i] + [items[i]];
      assert EncodeAll([items[i]]) == EncodeFrame(items[i]);
    }
    assert items[..|items|] == items;
  }
}
