/**
 The wire format of message bodies and the bounded decoder. A message is one
 byte naming the stream's byte order, then the arguments in turn: fixed-width
 integers, and containers as an 8-byte count followed by their elements. The
 host is little-endian.
 */
module Archive {
  import opened Words

  // ----- values and their types -----

  datatype Type =
    | TInt(width: nat)
    | TString
    | TVector(element: Type)
    | TTuple(parts: seq<Type>)

  datatype Value =
    | VInt(n: nat)
    | VString(text: Bytes)
    | VVector(elements: seq<Value>)
    | VTuple(fields: seq<Value>)

  ghost predicate HasType(v: Value, t: Type)
    decreases v
  {
    match (v, t)
    case (VInt(n), TInt(w)) => n < Pow256(w)
    case (VString(text), TString) => |text| < TWO64
    case (VVector(vs), TVector(e)) => |vs| < TWO64 && forall i :: 0 <= i < |vs| ==> HasType(vs[i], e)
    case (VTuple(vs), TTuple(ts)) => |vs| == |ts| && forall i :: 0 <= i < |vs| ==> HasType(vs[i], ts[i])
    case _ => false
  }

  // ----- encoding -----

  /** An integer in the stream's byte order. */
  function Ordered(s: Bytes, little: bool): (r: Bytes)
    ensures |r| == |s|
  {
    if little then s else Reversed(s)
  }

  ghost function EncodeInt(n: nat, width: nat, little: bool): (s: Bytes)
    ensures |s| == width
  {
    Ordered(ToLittle(n, width), little)
  }

  ghost function Save(v: Value, t: Type, little: bool): Bytes
    requires HasType(v, t)
    decreases v
  {
    match v
    case VInt(n) => EncodeInt(n, t.width, little)
    case VString(text) => EncodeInt(|text|, 8, little) + text
    case VVector(vs) => EncodeInt(|vs|, 8, little) + SaveAll(vs, seq(|vs|, _ => t.element), little)
    case VTuple(vs) => SaveAll(vs, t.parts, little)
  }

  ghost predicate HaveTypes(vs: seq<Value>, ts: seq<Type>) {
    |vs| == |ts| && forall i :: 0 <= i < |vs| ==> HasType(vs[i], ts[i])
  }

  ghost function SaveAll(vs: seq<Value>, ts: seq<Type>, little: bool): Bytes
    requires HaveTypes(vs, ts)
    decreases vs
  {
    if vs == [] then [] else Save(vs[0], ts[0], little) + SaveAll(vs[1..], ts[1..], little)
  }

  /** A whole message; the first byte is 1 for a little-endian stream and 0 otherwise. */
  ghost function Encode(v: Value, t: Type, little: bool): Bytes
    requires HasType(v, t)
  {
    [if little then 1 else 0] + Save(v, t, little)
  }

  // ----- the bounded decoder -----

  const SLACK := 64

  /** The result of loading one value, and the container counts let through on the way. */
  datatype Load<T> = Load(result: Option<(T, nat)>, counts: seq<nat>)

  /** Reads `width` bytes at `pos` as one integer, reordering them when the stream is not little-endian. */
  function LoadInt(s: Bytes, pos: nat, width: nat, convert: bool): Option<(nat, nat)> {
    if pos + width > |s| then None
    else Some((FromLittle(Ordered(s[pos..pos + width], !convert)), pos + width))
  }

  /** The size-tag guard: a count beyond what the remaining bytes could back is refused. */
  function LoadCount(s: Bytes, pos: nat, convert: bool): Option<(nat, nat)> {
    match LoadInt(s, pos, 8, convert)
    case None => None
    case Some((n, p)) => if n > Remaining(s, p) + SLACK then None else Some((n, p))
  }

  function Remaining(s: Bytes, pos: nat): nat {
    if |s| > pos then |s| - pos else 0
  }

  function LoadValue(t: Type, s: Bytes, pos: nat, convert: bool): Load<Value>
    decreases t, 0, 0
  {
    match t
    case TInt(width) =>
      (match LoadInt(s, pos, width, convert)
       case None => Load(None, [])
       case Some((n, p)) => Load(Some((VInt(n), p)), []))
    case TString =>
      (match LoadCount(s, pos, convert)
       case None => Load(None, [])
       case Some((n, p)) =>
         Load(if p + n > |s| then None else Some((VString(s[p..p + n]), p + n)), [n]))
    case TVector(e) =>
      (match LoadCount(s, pos, convert)
       case None => Load(None, [])
       case Some((n, p)) =>
         var more := LoadElements(e, n, s, p, convert);
         Load(match more.result case None => None case Some((vs, q)) => Some((VVector(vs), q)),
              [n] + more.counts))
    case TTuple(ts) =>
      var more := LoadParts(ts, s, pos, convert);
      Load(match more.result case None => None case Some((vs, q)) => Some((VTuple(vs), q)), more.counts)
  }

  function LoadElements(e: Type, n: nat, s: Bytes, pos: nat, convert: bool): Load<seq<Value>>
    decreases e, 1, n
  {
    if n == 0 then Load(Some(([], pos)), [])
    else
      var first := LoadValue(e, s, pos, convert);
      if first.result.None? then Load(None, first.counts)
      else Join(first, LoadElements(e, n - 1, s, first.result.value.1, convert))
  }

  function LoadParts(ts: seq<Type>, s: Bytes, pos: nat, convert: bool): Load<seq<Value>>
    decreases ts, 1, 0
  {
    if ts == [] then Load(Some(([], pos)), [])
    else
      var first := LoadValue(ts[0], s, pos, convert);
      if first.result.None? then Load(None, first.counts)
      else Join(first, LoadParts(ts[1..], s, first.result.value.1, convert))
  }

  function Join(first: Load<Value>, more: Load<seq<Value>>): Load<seq<Value>>
    requires first.result.Some?
  {
    Load(match more.result case None => None case Some((vs, q)) => Some(([first.result.value.0] + vs, q)),
         first.counts + more.counts)
  }

  /** decode: an empty buffer and any refusal on the way give None. */
  function Decode(t: Type, s: Bytes): Option<Value> {
    if s == [] then None
    else match LoadValue(t, s, 1, s[0] != 1).result case None => None case Some((v, _)) => Some(v)
  }

  // ----- round trip through the guard -----

  /** Every container's count, as the guard sees it with `after` bytes following the value. */
  ghost predicate Admissible(v: Value, t: Type, little: bool, after: nat)
    requires HasType(v, t)
    decreases v
  {
    match v
    case VInt(_) => true
    case VString(_) => true
    case VVector(vs) =>
      var ts := seq(|vs|, _ => t.element);
      |vs| <= |SaveAll(vs, ts, little)| + after + SLACK && AllAdmissible(vs, ts, little, after)
    case VTuple(vs) => AllAdmissible(vs, t.parts, little, after)
  }

  ghost predicate AllAdmissible(vs: seq<Value>, ts: seq<Type>, little: bool, after: nat)
    requires HaveTypes(vs, ts)
    decreases vs
  {
    vs != [] ==>
      && Admissible(vs[0], ts[0], little, |SaveAll(vs[1..], ts[1..], little)| + after)
      && AllAdmissible(vs[1..], ts[1..], little, after)
  }

  lemma LoadSavedInt(s: Bytes, pos: nat, n: nat, width: nat, little: bool, post: Bytes)
    requires pos <= |s| && n < Pow256(width) && s[pos..] == EncodeInt(n, width, little) + post
    ensures LoadInt(s, pos, width, !little) == Some((n, pos + width))
    ensures s[pos + width..] == post && |s| == pos + width + |post|
  {
    assert s[pos..pos + width] == s[pos..][..width] == EncodeInt(n, width, little);
    assert s[pos + width..] == s[pos..][width..];
    ReversedTwice(ToLittle(n, width));
    LittleRoundTrip(n, width);
  }

  lemma LoadSavedCount(s: Bytes, pos: nat, n: nat, little: bool, post: Bytes)
    requires pos <= |s| && n < TWO64 && s[pos..] == EncodeInt(n, 8, little) + post
    ensures LoadCount(s, pos, !little) == if n <= |post| + SLACK then Some((n, pos + 8)) else None
    ensures s[pos + 8..] == post && |s| == pos + 8 + |post|
  {
    Pow256Of8();
    LoadSavedInt(s, pos, n, 8, little, post);
  }

  lemma LoadSavedString(text: Bytes, s: Bytes, pos: nat, little: bool, post: Bytes)
    requires |text| < TWO64 && pos <= |s| && s[pos..] == EncodeInt(|text|, 8, little) + text + post
    ensures LoadValue(TString, s, pos, !little).result == Some((VString(text), |s| - |post|))
  {
    hide LoadInt, LoadCount, EncodeInt;
    assert s[pos..] == EncodeInt(|text|, 8, little) + (text + post);
    LoadSavedCount(s, pos, |text|, little, text + post);
    assert s[pos + 8..pos + 8 + |text|] == s[pos + 8..][..|text|] == text;
  }

  lemma {:induction false} LoadSavedVector(vs: seq<Value>, e: Type, s: Bytes, pos: nat, little: bool, post: Bytes)
    requires HasType(VVector(vs), TVector(e)) && pos <= |s| && s[pos..] == Save(VVector(vs), TVector(e), little) + post
    ensures LoadValue(TVector(e), s, pos, !little).result ==
            if Admissible(VVector(vs), TVector(e), little, |post|) then Some((VVector(vs), |s| - |post|)) else None
    decreases vs, 1
  {
    hide LoadInt, LoadCount, EncodeInt, LoadElements, AllAdmissible, SaveAll;
    var ts := seq(|vs|, _ => e);
    var rest := SaveAll(vs, ts, little) + post;
    assert s[pos..] == EncodeInt(|vs|, 8, little) + rest;
    LoadSavedCount(s, pos, |vs|, little, rest);
    if |vs| <= |rest| + SLACK {
      LoadSavedElements(vs, ts, e, s, pos + 8, little, post);
    }
  }

  /** Loading what was saved gives it back, ending where it ended, or is refused by the guard; never anything else. */
  lemma {:induction false} LoadSaved(v: Value, t: Type, s: Bytes, pos: nat, little: bool, post: Bytes)
    requires HasType(v, t) && pos <= |s| && s[pos..] == Save(v, t, little) + post
    ensures LoadValue(t, s, pos, !little).result ==
            if Admissible(v, t, little, |post|) then Some((v, |s| - |post|)) else None
    decreases v, 0
  {
    hide LoadInt, LoadCount, EncodeInt, LoadElements, AllAdmissible, SaveAll;
    match v
    case VInt(n) =>
      LoadSavedInt(s, pos, n, t.width, little, post);
    case VString(text) =>
      LoadSavedString(text, s, pos, little, post);
    case VVector(vs) =>
      LoadSavedVector(vs, t.element, s, pos, little, post);
    case VTuple(vs) =>
      LoadSavedParts(vs, t.parts, s, pos, little, post);
  }

  lemma {:induction false} LoadSavedParts(vs: seq<Value>, ts: seq<Type>, s: Bytes, pos: nat, little: bool, post: Bytes)
    requires HaveTypes(vs, ts) && pos <= |s| && s[pos..] == SaveAll(vs, ts, little) + post
    ensures LoadParts(ts, s, pos, !little).result ==
            if AllAdmissible(vs, ts, little, |post|) then Some((vs, |s| - |post|)) else None
    decreases vs, 0
  {
    hide Save, LoadValue, Admissible, HasType;
    if vs != [] {
      var rest := SaveAll(vs[1..], ts[1..], little) + post;
      assert s[pos..] == Save(vs[0], ts[0], little) + rest;
      LoadSaved(vs[0], ts[0], s, pos, little, rest);
      if Admissible(vs[0], ts[0], little, |rest|) {
        assert s[|s| - |rest|..] == rest;
        LoadSavedParts(vs[1..], ts[1..], s, |s| - |rest|, little, post);
        assert vs == [vs[0]] + vs[1..];
      }
    }
  }

  lemma {:induction false} LoadSavedElements(vs: seq<Value>, ts: seq<Type>, e: Type, s: Bytes, pos: nat, little: bool, post: Bytes)
    requires HaveTypes(vs, ts) && (forall i :: 0 <= i < |ts| ==> ts[i] == e) && pos <= |s|
    requires s[pos..] == SaveAll(vs, ts, little) + post
    ensures LoadElements(e, |vs|, s, pos, !little).result ==
            if AllAdmissible(vs, ts, little, |post|) then Some((vs, |s| - |post|)) else None
    decreases vs, 0
  {
    hide Save, LoadValue, Admissible, HasType;
    if vs != [] {
      var rest := SaveAll(vs[1..], ts[1..], little) + post;
      assert s[pos..] == Save(vs[0], ts[0], little) + rest;
      LoadSaved(vs[0], e, s, pos, little, rest);
      if Admissible(vs[0], e, little, |rest|) {
        assert s[|s| - |rest|..] == rest;
        LoadSavedElements(vs[1..], ts[1..], e, s, |s| - |rest|, little, post);
        assert vs == [vs[0]] + vs[1..];
      }
    }
  }

  /** For either byte order, decoding an encoding returns the value exactly when no container trips the guard. */
  lemma RoundTripIff(v: Value, t: Type, little: bool)
    requires HasType(v, t)
    ensures Decode(t, Encode(v, t, little)) == if Admissible(v, t, little, 0) then Some(v) else None
  {
    var s := Encode(v, t, little);
    assert s[1..] == Save(v, t, little) + [];
    LoadSaved(v, t, s, 1, little, []);
  }

  /** The fewest bytes a value of the type takes on the wire. */
  function MinSize(t: Type): nat {
    match t
    case TInt(width) => width
    case TString => 8
    case TVector(_) => 8
    case TTuple(ts) => MinSizes(ts)
  }

  function MinSizes(ts: seq<Type>): nat {
    if ts == [] then 0 else MinSize(ts[0]) + MinSizes(ts[1..])
  }

  /** Every container element takes at least one byte. */
  predicate Solid(t: Type) {
    match t
    case TInt(_) => true
    case TString => true
    case TVector(e) => MinSize(e) >= 1 && Solid(e)
    case TTuple(ts) => forall i :: 0 <= i < |ts| ==> Solid(ts[i])
  }

  lemma {:induction false} SavedAtLeast(v: Value, t: Type, little: bool)
    requires HasType(v, t)
    ensures |Save(v, t, little)| >= MinSize(t)
    decreases v
  {
    if v.VTuple? {
      SavedAllAtLeast(v.fields, t.parts, little);
    }
  }

  lemma {:induction false} SavedAllAtLeast(vs: seq<Value>, ts: seq<Type>, little: bool)
    requires HaveTypes(vs, ts)
    ensures |SaveAll(vs, ts, little)| >= MinSizes(ts)
    decreases vs
  {
    if vs != [] {
      SavedAtLeast(vs[0], ts[0], little);
      SavedAllAtLeast(vs[1..], ts[1..], little);
    }
  }

  lemma {:induction false} ElementsBackTheirCount(vs: seq<Value>, ts: seq<Type>, little: bool)
    requires HaveTypes(vs, ts) && forall i :: 0 <= i < |ts| ==> MinSize(ts[i]) >= 1
    ensures |vs| <= |SaveAll(vs, ts, little)|
  {
    if vs != [] {
      SavedAtLeast(vs[0], ts[0], little);
      ElementsBackTheirCount(vs[1..], ts[1..], little);
    }
  }

  lemma {:induction false} SolidAdmissible(v: Value, t: Type, little: bool, after: nat)
    requires HasType(v, t) && Solid(t)
    ensures Admissible(v, t, little, after)
    decreases v
  {
    match v
    case VInt(_) =>
    case VString(_) =>
    case VVector(vs) =>
      var ts := seq(|vs|, _ => t.element);
      ElementsBackTheirCount(vs, ts, little);
      SolidAllAdmissible(vs, ts, little, after);
    case VTuple(vs) =>
      SolidAllAdmissible(vs, t.parts, little, after);
  }

  lemma {:induction false} SolidAllAdmissible(vs: seq<Value>, ts: seq<Type>, little: bool, after: nat)
    requires HaveTypes(vs, ts) && forall i :: 0 <= i < |ts| ==> Solid(ts[i])
    ensures AllAdmissible(vs, ts, little, after)
    decreases vs
  {
    if vs != [] {
      SolidAdmissible(vs[0], ts[0], little, |SaveAll(vs[1..], ts[1..], little)| + after);
      SolidAllAdmissible(vs[1..], ts[1..], little, after);
    }
  }

  /** When container elements take at least a byte each, every value survives the round trip. */
  lemma RoundTrip(v: Value, t: Type, little: bool)
    requires HasType(v, t) && Solid(t)
    ensures Decode(t, Encode(v, t, little)) == Some(v)
  {
    RoundTripIff(v, t, little);
    SolidAdmissible(v, t, little, 0);
  }

  // ----- and only then -----

  /** A value of the type that takes as few bytes as any. */
  function Default(t: Type): Value {
    match t
    case TInt(_) => VInt(0)
    case TString => VString([])
    case TVector(_) => VVector([])
    case TTuple(ts) => VTuple(Defaults(ts))
  }

  function Defaults(ts: seq<Type>): (vs: seq<Value>)
    ensures |vs| == |ts|
  {
    if ts == [] then [] else [Default(ts[0])] + Defaults(ts[1..])
  }

  lemma {:induction false} DefaultSize(t: Type, little: bool)
    ensures HasType(Default(t), t) && |Save(Default(t), t, little)| == MinSize(t)
    decreases t, 1
  {
    match t
    case TInt(_) =>
    case TString =>
    case TVector(e) =>
    case TTuple(ts) => DefaultSizes(ts, little);
  }

  lemma {:induction false} DefaultSizes(ts: seq<Type>, little: bool)
    ensures HaveTypes(Defaults(ts), ts) && |SaveAll(Defaults(ts), ts, little)| == MinSizes(ts)
    decreases ts, 2
  {
    if ts != [] {
      DefaultSize(ts[0], little);
      DefaultSizes(ts[1..], little);
      ConsTyped(Default(ts[0]), ts[0], Defaults(ts[1..]), ts[1..], little);
      assert [ts[0]] + ts[1..] == ts;
    }
  }

  lemma ConsTyped(v: Value, t: Type, vs: seq<Value>, ts: seq<Type>, little: bool)
    requires HasType(v, t) && HaveTypes(vs, ts)
    ensures HaveTypes([v] + vs, [t] + ts)
    ensures SaveAll([v] + vs, [t] + ts, little) == Save(v, t, little) + SaveAll(vs, ts, little)
    ensures forall after: nat ::
              AllAdmissible([v] + vs, [t] + ts, little, after) <==>
              Admissible(v, t, little, |SaveAll(vs, ts, little)| + after) && AllAdmissible(vs, ts, little, after)
  {
    hide Save, HasType, Admissible;
    assert ([v] + vs)[1..] == vs && ([t] + ts)[1..] == ts;
  }

  /** More bytes than any nest of minimal values of the type takes. */
  function Bulk(t: Type): nat {
    match t
    case TInt(width) => width
    case TString => 8
    case TVector(e) => 8 + Bulk(e)
    case TTuple(ts) => Bulks(ts)
  }

  function Bulks(ts: seq<Type>): nat {
    if ts == [] then 0 else Bulk(ts[0]) + Bulks(ts[1..])
  }

  lemma {:induction false} MinSizeWithinBulk(t: Type)
    ensures MinSize(t) <= Bulk(t)
    decreases t, 1
  {
    if t.TTuple? {
      MinSizesWithinBulks(t.parts);
    }
  }

  lemma {:induction false} MinSizesWithinBulks(ts: seq<Type>)
    ensures MinSizes(ts) <= Bulks(ts)
    decreases ts, 2
  {
    if ts != [] {
      MinSizeWithinBulk(ts[0]);
      MinSizesWithinBulks(ts[1..]);
    }
  }

  /** Many minimal elements that take no bytes. */
  lemma {:induction false} CopiesTakeNoBytes(e: Type, n: nat, little: bool)
    requires MinSize(e) == 0
    ensures HaveTypes(seq(n, _ => Default(e)), seq(n, _ => e))
    ensures SaveAll(seq(n, _ => Default(e)), seq(n, _ => e), little) == []
  {
    if n > 0 {
      DefaultSize(e, little);
      CopiesTakeNoBytes(e, n - 1, little);
      var vs, ts := seq(n - 1, _ => Default(e)), seq(n - 1, _ => e);
      ConsTyped(Default(e), e, vs, ts, little);
      assert seq(n, _ => Default(e)) == [Default(e)] + vs && seq(n, _ => e) == [e] + ts;
    }
  }

  lemma LooseVector(e: Type, after: nat, little: bool) returns (v: Value)
    requires MinSize(e) == 0 && after + 65 < TWO64
    ensures HasType(v, TVector(e)) && !Admissible(v, TVector(e), little, after)
  {
    var n := after + 65;
    v := VVector(seq(n, _ => Default(e)));
    CopiesTakeNoBytes(e, n, little);
    assert seq(|v.elements|, _ => e) == seq(n, _ => e);
    hide SaveAll, AllAdmissible;
    forall i | 0 <= i < n ensures HasType(v.elements[i], e) {
      assert HasType(seq(n, _ => Default(e))[i], seq(n, _ => e)[i]);
    }
  }

  lemma OneElement(u: Value, e: Type, after: nat, little: bool)
    requires HasType(u, e) && !Admissible(u, e, little, after)
    ensures HasType(VVector([u]), TVector(e)) && !Admissible(VVector([u]), TVector(e), little, after)
  {
    assert seq(1, _ => e) == [e] && seq(|[u]|, _ => e) == [e];
    ConsTyped(u, e, [], [], little);
    assert [u] + [] == [u] && [e] + [] == [e];
    assert SaveAll([], [], little) == [];
    assert !AllAdmissible([u], [e], little, after);
    hide AllAdmissible, SaveAll;
  }

  lemma {:induction false} UnsolidValue(t: Type, after: nat, little: bool) returns (v: Value)
    requires !Solid(t) && Bulk(t) + after + 65 < TWO64
    ensures HasType(v, t) && !Admissible(v, t, little, after)
    decreases t, 1
  {
    match t {
      case TVector(e) =>
        if MinSize(e) == 0 {
          v := LooseVector(e, after, little);
        } else {
          var u := UnsolidValue(e, after, little);
          OneElement(u, e, after, little);
          v := VVector([u]);
        }
      case TTuple(ts) =>
        var vs := UnsolidValues(ts, after, little);
        v := VTuple(vs);
    }
  }

  lemma {:induction false} UnsolidValues(ts: seq<Type>, after: nat, little: bool) returns (vs: seq<Value>)
    requires (exists i :: 0 <= i < |ts| && !Solid(ts[i])) && Bulks(ts) + after + 65 < TWO64
    ensures HaveTypes(vs, ts) && !AllAdmissible(vs, ts, little, after)
    decreases ts, 2
  {
    hide Save, SaveAll, Admissible, AllAdmissible, HasType;
    var rest := ts[1..];
    assert [ts[0]] + rest == ts;
    if Solid(ts[0]) {
      var i :| 0 <= i < |ts| && !Solid(ts[i]);
      assert rest[i - 1] == ts[i];
      var tail := UnsolidValues(rest, after, little);
      DefaultSize(ts[0], little);
      ConsTyped(Default(ts[0]), ts[0], tail, rest, little);
      vs := [Default(ts[0])] + tail;
    } else {
      DefaultSizes(rest, little);
      MinSizesWithinBulks(rest);
      var u := UnsolidValue(ts[0], MinSizes(rest) + after, little);
      ConsTyped(u, ts[0], Defaults(rest), rest, little);
      vs := [u] + Defaults(rest);
    }
  }

  /**
   Every value of a type survives the round trip if and only if, everywhere in the
   type, container elements take at least a byte.
   */
  lemma EveryValueSurvivesIff(t: Type, little: bool)
    requires Bulk(t) + 65 < TWO64
    ensures (forall v :: HasType(v, t) ==> Decode(t, Encode(v, t, little)) == Some(v)) <==> Solid(t)
  {
    hide Decode, Encode, HasType, Admissible;
    if Solid(t) {
      forall v | HasType(v, t) ensures Decode(t, Encode(v, t, little)) == Some(v) {
        RoundTrip(v, t, little);
      }
    } else {
      var v := UnsolidValue(t, 0, little);
      RoundTripIff(v, t, little);
    }
  }

  /** A container of elements that take no bytes, at the end of a message, is accepted up to 64 of them. */
  lemma EmptyElementsIff(n: nat, little: bool)
    requires n < TWO64
    ensures var t, v := TVector(TTuple([])), VVector(seq(n, _ => VTuple([])));
            HasType(v, t) && Decode(t, Encode(v, t, little)) == if n <= 64 then Some(v) else None
  {
    var t, v := TVector(TTuple([])), VVector(seq(n, _ => VTuple([])));
    var vs, ts := seq(n, _ => VTuple([])), seq(n, _ => TTuple([]));
    EmptyElementsTakeNoBytes(vs, ts, little);
    assert v.elements == vs && seq(|v.elements|, _ => t.element) == ts;
    EmptyElementsAdmissible(vs, ts, little, 0);
    RoundTripIff(v, t, little);
  }

  lemma {:induction false} EmptyElementsAdmissible(vs: seq<Value>, ts: seq<Type>, little: bool, after: nat)
    requires |vs| == |ts| && HaveTypes(vs, ts) && forall i :: 0 <= i < |vs| ==> vs[i] == VTuple([]) && ts[i] == TTuple([])
    ensures AllAdmissible(vs, ts, little, after)
  {
    if vs != [] {
      assert AllAdmissible([], [], little, |SaveAll(vs[1..], ts[1..], little)| + after);
      EmptyElementsAdmissible(vs[1..], ts[1..], little, after);
    }
  }

  lemma {:induction false} EmptyElementsTakeNoBytes(vs: seq<Value>, ts: seq<Type>, little: bool)
    requires |vs| == |ts| && forall i :: 0 <= i < |vs| ==> vs[i] == VTuple([]) && ts[i] == TTuple([])
    ensures HaveTypes(vs, ts) && SaveAll(vs, ts, little) == []
  {
    if vs != [] {
      EmptyElementsTakeNoBytes(vs[1..], ts[1..], little);
    }
  }

  /** The wire form of a small message, byte for byte, in either order. */
  lemma KnownEncoding(little: bool)
    ensures var t, v := TTuple([TInt(2), TString]), VTuple([VInt(258), VString([97, 98])]);
            HasType(v, t) &&
            Encode(v, t, little) == if little then [1, 2, 1, 2, 0, 0, 0, 0, 0, 0, 0, 97, 98]
                                    else [0, 1, 2, 0, 0, 0, 0, 0, 0, 0, 2, 97, 98]
  {
    hide Save, SaveAll, HasType;
    var u, v := VInt(258), VString([97, 98]);
    SmallParts(little);
    SavePair(u, TInt(2), v, TString, little);
    SaveTuple([u, v], [TInt(2), TString], little);
  }

  lemma SaveTuple(vs: seq<Value>, ts: seq<Type>, little: bool)
    requires HaveTypes(vs, ts)
    ensures HasType(VTuple(vs), TTuple(ts)) && Save(VTuple(vs), TTuple(ts), little) == SaveAll(vs, ts, little)
  {
    hide SaveAll;
  }

  lemma SavePair(u: Value, t: Type, v: Value, r: Type, little: bool)
    requires HasType(u, t) && HasType(v, r)
    ensures HaveTypes([u, v], [t, r]) && SaveAll([u, v], [t, r], little) == Save(u, t, little) + Save(v, r, little)
  {
    hide Save, HasType;
    assert [u, v][1..] == [v] && [t, r][1..] == [r];
    assert [v][1..] == [] && [r][1..] == [];
    assert SaveAll([v], [r], little) == Save(v, r, little) + SaveAll([], [], little);
    assert SaveAll([], [], little) == [];
  }

  lemma SmallParts(little: bool)
    ensures HasType(VInt(258), TInt(2)) && HasType(VString([97, 98]), TString)
    ensures Save(VInt(258), TInt(2), little) == if little then [2, 1] else [1, 2]
    ensures Save(VString([97, 98]), TString, little) ==
            if little then [2, 0, 0, 0, 0, 0, 0, 0, 97, 98] else [0, 0, 0, 0, 0, 0, 0, 2, 97, 98]
  {
    assert Pow256(2) == 65536;
    SmallNumber();
    SmallCount();
    hide ToLittle, Reversed, Pow256;
  }

  lemma SmallNumber()
    ensures ToLittle(258, 2) == [2, 1] && Reversed([2, 1]) == [1, 2]
  {
    assert ToLittle(1, 1) == [1];
    assert [2, 1][1..] == [1] && [1][1..] == [];
  }

  lemma SmallCount()
    ensures ToLittle(2, 8) == [2, 0, 0, 0, 0, 0, 0, 0]
    ensures Reversed([2, 0, 0, 0, 0, 0, 0, 0]) == [0, 0, 0, 0, 0, 0, 0, 2]
  {
    Zeros(7);
    hide Reversed;
    var count: Bytes := [2, 0, 0, 0, 0, 0, 0, 0];
    assert ToLittle(2, 8) == [2] + ToLittle(0, 7);
    forall k | 0 <= k < 8 ensures Reversed(count)[k] == [0, 0, 0, 0, 0, 0, 0, 2][k] {
      ReversedAt(count, k);
    }
  }

  lemma {:induction false} Zeros(k: nat)
    ensures ToLittle(0, k) == seq(k, _ => 0)
  {
    if k > 0 {
      Zeros(k - 1);
    }
  }

  // ----- what comes out was there -----

  lemma LoadedInt(s: Bytes, pos: nat, width: nat, convert: bool)
    requires LoadInt(s, pos, width, convert).Some?
    ensures var (n, p) := LoadInt(s, pos, width, convert).value;
            && p == pos + width <= |s| && n < Pow256(width) && s[pos..p] == EncodeInt(n, width, !convert)
  {
    hide FromLittle, ToLittle, Reversed;
    var block := s[pos..pos + width];
    LittleRoundTripBack(Ordered(block, !convert));
    ReversedTwice(block);
  }

  lemma LoadedCount(s: Bytes, pos: nat, convert: bool)
    requires LoadCount(s, pos, convert).Some?
    ensures var (n, p) := LoadCount(s, pos, convert).value;
            && p == pos + 8 <= |s| && n < TWO64 && s[pos..p] == EncodeInt(n, 8, !convert)
  {
    Pow256Of8();
    LoadedInt(s, pos, 8, convert);
  }

  /** From any bytes: a value that was loaded is of the type, and the bytes it was loaded from are its encoding. */
  ghost predicate Loaded(v: Value, t: Type, s: Bytes, pos: nat, p: nat, convert: bool) {
    HasType(v, t) && pos <= p <= |s| && s[pos..p] == Save(v, t, !convert)
  }

  ghost predicate LoadedAll(vs: seq<Value>, ts: seq<Type>, s: Bytes, pos: nat, p: nat, convert: bool) {
    HaveTypes(vs, ts) && pos <= p <= |s| && s[pos..p] == SaveAll(vs, ts, !convert)
  }

  lemma SplitSlice(s: Bytes, a: nat, b: nat, c: nat)
    requires a <= b <= c <= |s|
    ensures s[a..c] == s[a..b] + s[b..c]
  {
  }

  lemma LoadedString(s: Bytes, pos: nat, convert: bool)
    requires pos <= |s| && LoadValue(TString, s, pos, convert).result.Some?
    ensures var (v, p) := LoadValue(TString, s, pos, convert).result.value; Loaded(v, TString, s, pos, p, convert)
  {
    hide LoadInt, LoadCount, EncodeInt;
    LoadedCount(s, pos, convert);
    var (n, p) := LoadCount(s, pos, convert).value;
    SplitSlice(s, pos, p, p + n);
  }

  lemma LoadedVector(vs: seq<Value>, e: Type, s: Bytes, pos: nat, p: nat, q: nat, convert: bool)
    requires pos <= p <= |s| && |vs| < TWO64 && s[pos..p] == EncodeInt(|vs|, 8, !convert)
    requires LoadedAll(vs, seq(|vs|, _ => e), s, p, q, convert)
    ensures Loaded(VVector(vs), TVector(e), s, pos, q, convert)
  {
    hide EncodeInt, SaveAll;
    SplitSlice(s, pos, p, q);
  }

  lemma {:induction false} LoadedIsSaved(t: Type, s: Bytes, pos: nat, convert: bool)
    requires pos <= |s| && LoadValue(t, s, pos, convert).result.Some?
    ensures var (v, p) := LoadValue(t, s, pos, convert).result.value; Loaded(v, t, s, pos, p, convert)
    decreases t, 1, 0
  {
    hide LoadInt, LoadCount, EncodeInt, LoadElements, LoadParts, SaveAll;
    match t
    case TInt(width) => LoadedInt(s, pos, width, convert);
    case TString => LoadedString(s, pos, convert);
    case TVector(e) =>
      LoadedCount(s, pos, convert);
      var (n, p) := LoadCount(s, pos, convert).value;
      ElementsAreSaved(e, n, s, p, convert);
      var (vs, q) := LoadElements(e, n, s, p, convert).result.value;
      hide Loaded, LoadedAll;
      LoadedVector(vs, e, s, pos, p, q, convert);
    case TTuple(ts) => PartsAreSaved(ts, s, pos, convert);
  }

  lemma {:induction false} ElementsAreSaved(e: Type, n: nat, s: Bytes, pos: nat, convert: bool)
    requires pos <= |s| && LoadElements(e, n, s, pos, convert).result.Some?
    ensures var (vs, p) := LoadElements(e, n, s, pos, convert).result.value;
            |vs| == n && LoadedAll(vs, seq(n, _ => e), s, pos, p, convert)
    decreases e, 2, n
  {
    if n == 0 {
      assert s[pos..pos] == [];
    } else {
      LoadedIsSaved(e, s, pos, convert);
      var (v, mid) := LoadValue(e, s, pos, convert).result.value;
      ElementsAreSaved(e, n - 1, s, mid, convert);
      var (vs, p) := LoadElements(e, n - 1, s, mid, convert).result.value;
      hide LoadValue, Loaded;
      JoinSaved(v, e, vs, seq(n - 1, _ => e), s, pos, mid, p, convert);
      assert seq(n, _ => e) == [e] + seq(n - 1, _ => e);
    }
  }

  lemma {:induction false} PartsAreSaved(ts: seq<Type>, s: Bytes, pos: nat, convert: bool)
    requires pos <= |s| && LoadParts(ts, s, pos, convert).result.Some?
    ensures var (vs, p) := LoadParts(ts, s, pos, convert).result.value; LoadedAll(vs, ts, s, pos, p, convert)
    decreases ts, 2, 0
  {
    if ts == [] {
      assert s[pos..pos] == [];
    } else {
      LoadedIsSaved(ts[0], s, pos, convert);
      var (v, mid) := LoadValue(ts[0], s, pos, convert).result.value;
      PartsAreSaved(ts[1..], s, mid, convert);
      var (vs, p) := LoadParts(ts[1..], s, mid, convert).result.value;
      hide LoadValue, Loaded;
      JoinSaved(v, ts[0], vs, ts[1..], s, pos, mid, p, convert);
      assert ts == [ts[0]] + ts[1..];
    }
  }

  lemma JoinSaved(v: Value, t: Type, vs: seq<Value>, ts: seq<Type>, s: Bytes, pos: nat, mid: nat, p: nat, convert: bool)
    requires Loaded(v, t, s, pos, mid, convert) && LoadedAll(vs, ts, s, mid, p, convert)
    ensures LoadedAll([v] + vs, [t] + ts, s, pos, p, convert)
  {
    hide Save, HasType;
    SplitSlice(s, pos, mid, p);
    assert ([v] + vs)[1..] == vs && ([t] + ts)[1..] == ts;
    assert forall i :: 0 <= i < |vs| ==> HasType(vs[i], ts[i]);
  }

  // ----- more bytes behind a value -----

  lemma {:induction false} AdmissibleMore(v: Value, t: Type, little: bool, after: nat, more: nat)
    requires HasType(v, t) && Admissible(v, t, little, after) && after <= more
    ensures Admissible(v, t, little, more)
    decreases v
  {
    match v
    case VInt(_) =>
    case VString(_) =>
    case VVector(vs) => AllAdmissibleMore(vs, seq(|vs|, _ => t.element), little, after, more);
    case VTuple(vs) => AllAdmissibleMore(vs, t.parts, little, after, more);
  }

  lemma {:induction false} AllAdmissibleMore(vs: seq<Value>, ts: seq<Type>, little: bool, after: nat, more: nat)
    requires HaveTypes(vs, ts) && AllAdmissible(vs, ts, little, after) && after <= more
    ensures AllAdmissible(vs, ts, little, more)
    decreases vs
  {
    if vs != [] {
      var rest := |SaveAll(vs[1..], ts[1..], little)|;
      AdmissibleMore(vs[0], ts[0], little, rest + after, rest + more);
      AllAdmissibleMore(vs[1..], ts[1..], little, after, more);
    }
  }

  /**
   The decoder on any bytes: a value comes out if and only if the bytes after the
   first begin with its encoding and no container in it trips the guard, given what
   follows.
   */
  lemma DecodeIff(t: Type, s: Bytes, v: Value)
    ensures Decode(t, s) == Some(v) <==>
            (s != [] && HasType(v, t) && var little := s[0] == 1;
             Save(v, t, little) <= s[1..] && Admissible(v, t, little, |s| - 1 - |Save(v, t, little)|))
  {
    hide LoadValue, Save, Admissible, HasType;
    if s != [] {
      var little := s[0] == 1;
      if Decode(t, s) == Some(v) {
        LoadedIsSaved(t, s, 1, !little);
        var p := LoadValue(t, s, 1, !little).result.value.1;
        assert s[1..] == s[1..p] + s[p..];
      }
      if HasType(v, t) && Save(v, t, little) <= s[1..] {
        var post := s[1 + |Save(v, t, little)|..];
        assert s[1..] == Save(v, t, little) + post;
        LoadSaved(v, t, s, 1, little, post);
      }
    }
  }

  /** So no message cut short decodes. */
  lemma TruncatedNeverDecodes(v: Value, t: Type, little: bool, n: nat)
    requires HasType(v, t) && n < |Encode(v, t, little)|
    ensures Decode(t, Encode(v, t, little)[..n]) == None
  {
    hide Save, Admissible, HasType, Decode;
    var whole := Encode(v, t, little);
    var cut := whole[..n];
    if u: Value :| Decode(t, cut) == Some(u) {
      DecodeIff(t, cut, u);
      assert cut[0] == whole[0] && cut[1..] <= whole[1..];
      var size := |Save(u, t, little)|;
      assert Save(u, t, little) <= whole[1..];
      AdmissibleMore(u, t, little, n - 1 - size, |whole| - 1 - size);
      DecodeIff(t, whole, u);
      RoundTripIff(v, t, little);
      assert false;
    }
  }

  // ----- arbitrary bytes -----

  /** The k-th count let through, from a load that starts at `pos`, leaves room for k prefixes and the slack. */
  ghost predicate Bounded(counts: seq<nat>, s: Bytes, pos: nat) {
    && pos + 8 * |counts| <= |s|
    && forall k :: 0 <= k < |counts| ==> counts[k] <= |s| - pos - 8 * (k + 1) + SLACK
  }

  ghost predicate WellBounded<T>(l: Load<T>, s: Bytes, pos: nat) {
    && Bounded(l.counts, s, pos)
    && (l.result.Some? ==> pos + 8 * |l.counts| <= l.result.value.1 <= |s|)
  }

  lemma {:induction false} ValueBounded(t: Type, s: Bytes, pos: nat, convert: bool)
    requires pos <= |s|
    ensures WellBounded(LoadValue(t, s, pos, convert), s, pos)
    decreases t, 0, 0
  {
    match t
    case TInt(_) =>
    case TString =>
    case TVector(e) =>
      var count := LoadCount(s, pos, convert);
      if count.Some? {
        var (n, p) := count.value;
        ElementsBounded(e, n, s, p, convert);
        BoundedCons(n, LoadElements(e, n, s, p, convert).counts, s, pos);
      }
    case TTuple(ts) =>
      PartsBounded(ts, s, pos, convert);
  }

  lemma BoundedCons(n: nat, counts: seq<nat>, s: Bytes, pos: nat)
    requires pos + 8 <= |s| && n <= |s| - pos - 8 + SLACK && Bounded(counts, s, pos + 8)
    ensures Bounded([n] + counts, s, pos)
  {
    forall k | 0 <= k < |counts| + 1 ensures ([n] + counts)[k] <= |s| - pos - 8 * (k + 1) + SLACK {
      if k > 0 {
        assert counts[k - 1] <= |s| - (pos + 8) - 8 * (k - 1 + 1) + SLACK;
      }
    }
  }

  lemma BoundedAppend(a: seq<nat>, b: seq<nat>, s: Bytes, pos: nat, mid: nat)
    requires Bounded(a, s, pos) && Bounded(b, s, mid) && mid >= pos + 8 * |a|
    ensures Bounded(a + b, s, pos)
  {
    forall k | 0 <= k < |a| + |b| ensures (a + b)[k] <= |s| - pos - 8 * (k + 1) + SLACK {
      if k >= |a| {
        assert b[k - |a|] <= |s| - mid - 8 * (k - |a| + 1) + SLACK;
      }
    }
  }

  lemma {:induction false} ElementsBounded(e: Type, n: nat, s: Bytes, pos: nat, convert: bool)
    requires pos <= |s|
    ensures WellBounded(LoadElements(e, n, s, pos, convert), s, pos)
    decreases e, 1, n
  {
    if n > 0 {
      ValueBounded(e, s, pos, convert);
      var first := LoadValue(e, s, pos, convert);
      if first.result.Some? {
        var p := first.result.value.1;
        ElementsBounded(e, n - 1, s, p, convert);
        BoundedAppend(first.counts, LoadElements(e, n - 1, s, p, convert).counts, s, pos, p);
      }
    }
  }

  lemma {:induction false} PartsBounded(ts: seq<Type>, s: Bytes, pos: nat, convert: bool)
    requires pos <= |s|
    ensures WellBounded(LoadParts(ts, s, pos, convert), s, pos)
    decreases ts, 1, 0
  {
    if ts != [] {
      ValueBounded(ts[0], s, pos, convert);
      var first := LoadValue(ts[0], s, pos, convert);
      if first.result.Some? {
        var p := first.result.value.1;
        PartsBounded(ts[1..], s, p, convert);
        BoundedAppend(first.counts, LoadParts(ts[1..], s, p, convert).counts, s, pos, p);
      }
    }
  }

  function Sum(xs: seq<nat>): nat {
    if xs == [] then 0 else Sum(xs[..|xs| - 1]) + xs[|xs| - 1]
  }

  /** The most elements k counts can ask for in an N-byte message. */
  function MostElements(size: nat, k: nat): int {
    k * (size + 63) - 4 * k * (k + 1)
  }

  lemma {:induction false} SumBounded(counts: seq<nat>, s: Bytes)
    requires Bounded(counts, s, 1)
    ensures Sum(counts) <= MostElements(|s|, |counts|)
  {
    if counts != [] {
      var init := counts[..|counts| - 1];
      SumBounded(init, s);
      assert counts[|counts| - 1] <= |s| - 1 - 8 * |counts| + SLACK;
      MostElementsStep(|s|, |init|);
    }
  }

  lemma MostElementsStep(size: nat, k: nat)
    ensures MostElements(size, k + 1) == MostElements(size, k) + size + 63 - 8 * (k + 1)
  {
    assert (k + 1) * (size + 63) == k * (size + 63) + (size + 63);
    assert (k + 1) * (k + 2) == k * (k + 1) + 2 * (k + 1);
  }

  lemma {:induction false} MostElementsMonotone(size: nat, j: nat, k: nat)
    requires j <= k && 8 * k <= size
    ensures MostElements(size, j) <= MostElements(size, k)
  {
    if j < k {
      MostElementsMonotone(size, j, k - 1);
      MostElementsStep(size, k - 1);
    }
  }

  /**
   On any bytes and for any type, the container counts a decode acts on are few,
   each is bounded by the bytes left, and together they are bounded by a closed
   expression in the message size alone.
   */
  lemma DecodeAllocationBounded(t: Type, s: Bytes)
    requires s != []
    ensures var counts, most := LoadValue(t, s, 1, s[0] != 1).counts, (|s| - 1) / 8;
            && |counts| <= most
            && (forall k :: 0 <= k < |counts| ==> counts[k] <= |s| - 1 - 8 * (k + 1) + SLACK)
            && Sum(counts) <= MostElements(|s|, most)
  {
    ValueBounded(t, s, 1, s[0] != 1);
    var counts := LoadValue(t, s, 1, s[0] != 1).counts;
    SumBounded(counts, s);
    MostElementsMonotone(|s|, |counts|, (|s| - 1) / 8);
  }

  // ----- the archive object -----

  /** The bytes that n elements of a width take. */
  function Span(n: nat, width: nat): nat {
    if n == 0 then 0 else width + Span(n - 1, width)
  }

  /** A block of integers, each brought into the host's byte order. */
  function Reorder(block: Bytes, width: nat, convert: bool): (r: Bytes)
    requires width > 0
    ensures |r| == |block|
  {
    if |block| < width then block
    else Ordered(block[..width], !convert) + Reorder(block[width..], width, convert)
  }

  /** swap_bytes: reverses one element in place. */
  method SwapBytes(a: array<Byte>, lo: nat, width: nat)
    requires lo + width <= a.Length
    modifies a
    ensures a[lo..lo + width] == Reversed(old(a[lo..lo + width]))
    ensures a[..lo] == old(a[..lo]) && a[lo + width..] == old(a[lo + width..])
  {
    hide Reversed;
    ghost var was := a[lo..lo + width];
    for i := 0 to width / 2
      invariant forall m :: lo <= m < lo + i || lo + width - i <= m < lo + width ==> a[m] == was[width - 1 - (m - lo)]
      invariant forall m :: lo + i <= m < lo + width - i ==> a[m] == was[m - lo]
      invariant a[..lo] == old(a[..lo]) && a[lo + width..] == old(a[lo + width..])
    {
      a[lo + i], a[lo + width - 1 - i] := a[lo + width - 1 - i], a[lo + i];
    }
    ghost var now := a[lo..lo + width];
    forall k | 0 <= k < width ensures now[k] == was[width - 1 - k] {
      assert now[k] == a[lo + k];
    }
    SwappedIsReversed(was, now);
  }

  lemma SwappedIsReversed(was: Bytes, now: Bytes)
    requires |now| == |was| && forall k :: 0 <= k < |was| ==> now[k] == was[|was| - 1 - k]
    ensures now == Reversed(was)
  {
    forall k | 0 <= k < |was| ensures now[k] == Reversed(was)[k] {
      ReversedAt(was, k);
    }
  }

  method SwapElements(a: array<Byte>, width: nat, count: nat)
    requires width > 0 && a.Length == Span(count, width)
    modifies a
    ensures a[..] == Reorder(old(a[..]), width, true)
  {
    hide Reorder, Reversed;
    ghost var raw := a[..];
    var i := 0;
    assert raw[0..] == raw && a[..0] == [];
    for k := 0 to count
      invariant i + Span(count - k, width) == a.Length
      invariant 0 <= i <= a.Length && a[i..] == raw[i..]
      invariant a[..i] + Reorder(raw[i..], width, true) == Reorder(raw, width, true)
    {
      ghost var front, rest := a[..i], raw[i..];
      ReorderStep(front, rest, width);
      assert rest[..width] == a[i..i + width];
      SwapBytes(a, i, width);
      assert a[i + width..] == rest[width..] == raw[i + width..];
      assert a[..i + width] == front + a[i..i + width];
      i := i + width;
    }
    assert raw[i..] == [] && a[..i] == a[..];
    ReorderNothing(width);
  }

  lemma ReorderStep(front: Bytes, rest: Bytes, width: nat)
    requires 0 < width <= |rest|
    ensures front + Reorder(rest, width, true) ==
            (front + Reversed(rest[..width])) + Reorder(rest[width..], width, true)
  {
  }

  lemma ReorderNothing(width: nat)
    requires width > 0
    ensures Reorder([], width, true) == []
  {
  }

  class InputArchive {
    const buffer: Bytes
    var pos: nat
    var convert: bool

    /** Consumes the byte-order byte; only 1 means little-endian. */
    constructor (buffer: Bytes)
      requires buffer != []
      ensures this.buffer == buffer && pos == 1 && convert == (buffer[0] != 1)
    {
      this.buffer := buffer;
      pos := 1;
      convert := buffer[0] != 1;
    }

    /** Reads `count` elements into fresh memory and swaps them one by one when the byte orders differ. */
    method LoadBinary(width: nat, count: nat) returns (data: Option<array<Byte>>)
      requires width > 0
      modifies this`pos
      ensures data.Some? <==> old(pos) + Span(count, width) <= |buffer|
      ensures data.Some? ==>
                && fresh(data.value) && pos == old(pos) + Span(count, width)
                && data.value[..] == Reorder(buffer[old(pos)..old(pos) + Span(count, width)], width, convert)
    {
      var size := Span(count, width);
      if pos + size > |buffer| {
        return None;
      }
      var raw := buffer[pos..pos + size];
      var a := new Byte[size](i requires 0 <= i < |raw| => raw[i]);
      assert a[..] == raw;
      pos := pos + size;
      if convert {
        SwapElements(a, width, count);
      } else {
        SameOrder(raw, width);
      }
      return Some(a);
    }

    /** A container count, refused when the rest of the buffer could not back it. */
    method LoadSizeTag() returns (n: Option<nat>)
      modifies this`pos
      ensures match LoadCount(buffer, old(pos), convert)
              case None => n == None
              case Some((m, p)) => n == Some(m) && pos == p
    {
      var data := LoadBinary(8, 1);
      if data.None? {
        return None;
      }
      assert Reorder(buffer[old(pos)..old(pos) + 8], 8, convert) == Ordered(buffer[old(pos)..old(pos) + 8], !convert) by {
        var block := buffer[old(pos)..old(pos) + 8];
        assert block[..8] == block && block[8..] == [];
      }
      var size := FromLittle(data.value[..]);
      var remaining := if |buffer| > pos then |buffer| - pos else 0;
      if size > remaining + SLACK {
        return None;
      }
      return Some(size);
    }
  }

  lemma {:induction false} SameOrder(block: Bytes, width: nat)
    requires width > 0
    ensures Reorder(block, width, false) == block
  {
    if |block| >= width {
      SameOrder(block[width..], width);
    }
  }

  function IntsOf(block: Bytes, width: nat): seq<Value>
    requires width > 0
  {
    if |block| < width then [] else [VInt(FromLittle(block[..width]))] + IntsOf(block[width..], width)
  }

  /** A block, reordered and cut into integers, one element at a time. */
  lemma IntsOfBlock(block: Bytes, width: nat, convert: bool)
    requires 0 < width <= |block|
    ensures IntsOf(Reorder(block, width, convert), width) ==
            [VInt(FromLittle(Ordered(block[..width], !convert)))] + IntsOf(Reorder(block[width..], width, convert), width)
  {
    hide FromLittle, Ordered;
    var first := Ordered(block[..width], !convert);
    var rest := Reorder(block[width..], width, convert);
    assert Reorder(block, width, convert) == first + rest;
    assert (first + rest)[..width] == first && (first + rest)[width..] == rest;
  }

  lemma LoadIntElement(width: nat, n: nat, s: Bytes, pos: nat, convert: bool, more: seq<Value>, end: nat)
    requires n > 0 && pos + width <= |s|
    requires LoadElements(TInt(width), n - 1, s, pos + width, convert) == Load(Some((more, end)), [])
    ensures LoadElements(TInt(width), n, s, pos, convert) ==
            Load(Some(([VInt(FromLittle(Ordered(s[pos..pos + width], !convert)))] + more, end)), [])
  {
    hide FromLittle, Ordered;
  }

  lemma SliceSplits(s: Bytes, lo: nat, width: nat, hi: nat)
    requires lo + width <= hi <= |s|
    ensures s[lo..hi][..width] == s[lo..lo + width] && s[lo..hi][width..] == s[lo + width..hi]
  {
  }

  /** Loading a vector of integers as one block gives what loading it element by element gives. */
  lemma {:induction false} BlockMatchesElements(width: nat, n: nat, s: Bytes, pos: nat, convert: bool)
    requires width > 0 && pos + Span(n, width) <= |s|
    ensures LoadElements(TInt(width), n, s, pos, convert) ==
            Load(Some((IntsOf(Reorder(s[pos..pos + Span(n, width)], width, convert), width), pos + Span(n, width))), [])
  {
    if n > 0 {
      var end := pos + Span(n, width);
      assert end == pos + width + Span(n - 1, width);
      hide *;
      BlockMatchesElements(width, n - 1, s, pos + width, convert);
      SliceSplits(s, pos, width, end);
      IntsOfBlock(s[pos..end], width, convert);
      LoadIntElement(width, n, s, pos, convert, IntsOf(Reorder(s[pos + width..end], width, convert), width), end);
    }
  }
}
