/**
 The 64-bit string hash that turns a method name into a call id. The code widens
 a plain `char` before mixing it in, so its sign decides the upper bits: `signed`
 says whether the platform's plain `char` is signed.
 */
module StringHash {
  import opened Words

  const BASIS: bv64 := 14695981039346656037

  type Name = seq<bv8>

  function TimesPrime(x: bv64): bv64 {
    x * 1099511628211
  }

  /** Multiplication by the inverse of the prime modulo 2^64. */
  function DividePrime(x: bv64): bv64 {
    x * 14886173955864302971
  }

  function Xor(x: bv64, y: bv64): bv64 {
    x ^ y
  }

  function Widen(c: bv8, signed: bool): bv64 {
    if signed && c >= 128 then (c as bv64) | 0xFFFF_FFFF_FFFF_FF00 else c as bv64
  }

  function Mix(h: bv64, c: bv8, signed: bool): bv64 {
    TimesPrime(Xor(h, Widen(c, signed)))
  }

  /** The length-counted recursion. */
  function HashFrom(s: Name, h: bv64, signed: bool): bv64 {
    if s == [] then h else HashFrom(s[1..], Mix(h, s[0], signed), signed)
  }

  function Hash(s: Name, signed: bool): bv64 {
    HashFrom(s, BASIS, signed)
  }

  /** The hash as the word that keys the dispatch table and travels in frame headers. */
  function CallId(s: Name, signed: bool): (w: Word) {
    Hash(s, signed) as int
  }

  /** The NUL-terminated recursion, on memory that holds a NUL. */
  function StringHashFrom(memory: Name, h: bv64, signed: bool): bv64
    requires 0 in memory
  {
    if memory[0] == 0 then h else StringHashFrom(memory[1..], Mix(h, memory[0], signed), signed)
  }

  /** FNV-1a as section 2 of draft-eastlake-fnv gives it: offset basis, exclusive or of each octet, FNV prime. */
  function Fnv1a(s: Name): bv64 {
    if s == [] then 0xcbf29ce484222325 else Fnv1aStep(Fnv1a(s[..|s| - 1]), s[|s| - 1])
  }

  function Fnv1aStep(h: bv64, octet: bv8): bv64 {
    TimesFnvPrime(h ^ (octet as bv64))
  }

  function TimesFnvPrime(x: bv64): bv64 {
    x * 0x100000001b3
  }

  // ----- each step is a bijection -----

  lemma InverseOfProduct(x: bv64)
    ensures DividePrime(x * 1099511628211) == x
  {
  }

  lemma TimesPrimeIs(x: bv64)
    ensures TimesPrime(x) == x * 1099511628211
  {
  }

  lemma PrimeInvertible(x: bv64)
    ensures DividePrime(TimesPrime(x)) == x
  {
    hide TimesPrime, DividePrime;
    InverseOfProduct(x);
    TimesPrimeIs(x);
  }

  lemma XorCancels(x: bv64, w: bv64)
    ensures Xor(Xor(x, w), w) == x
    ensures Xor(Xor(w, x), w) == x
  {
  }

  lemma WidenInjective(c: bv8, d: bv8, signed: bool)
    ensures Widen(c, signed) == Widen(d, signed) ==> c == d
  {
  }

  lemma MixIs(h: bv64, c: bv8, signed: bool)
    ensures Mix(h, c, signed) == TimesPrime(Xor(h, Widen(c, signed)))
  {
    hide TimesPrime, Xor, Widen;
  }

  lemma MixInjectiveInState(g: bv64, h: bv64, c: bv8, signed: bool)
    ensures Mix(g, c, signed) == Mix(h, c, signed) <==> g == h
  {
    hide *;
    var w := Widen(c, signed);
    MixIs(g, c, signed);
    MixIs(h, c, signed);
    PrimeInvertible(Xor(g, w));
    PrimeInvertible(Xor(h, w));
    XorCancels(g, w);
    XorCancels(h, w);
  }

  lemma ProductInjective(h: bv64, v: bv64, w: bv64)
    ensures TimesPrime(Xor(h, v)) == TimesPrime(Xor(h, w)) <==> v == w
  {
    hide *;
    PrimeInvertible(Xor(h, v));
    PrimeInvertible(Xor(h, w));
    XorCancels(v, h);
    XorCancels(w, h);
  }

  /** Appending the same text neither creates nor removes a collision. */
  lemma {:induction false} SameSuffix(s: Name, g: bv64, h: bv64, signed: bool)
    ensures HashFrom(s, g, signed) == HashFrom(s, h, signed) <==> g == h
  {
    hide Mix;
    if s != [] {
      MixInjectiveInState(g, h, s[0], signed);
      SameSuffix(s[1..], Mix(g, s[0], signed), Mix(h, s[0], signed), signed);
    }
  }

  lemma {:induction false} HashAppends(s: Name, t: Name, h: bv64, signed: bool)
    ensures HashFrom(s + t, h, signed) == HashFrom(t, HashFrom(s, h, signed), signed)
  {
    hide Mix;
    if s == [] {
      assert s + t == t;
    } else {
      HashAppends(s[1..], t, Mix(h, s[0], signed), signed);
      assert (s + t)[1..] == s[1..] + t;
    }
  }

  /** Two names that differ in exactly one character never share a call id. */
  lemma NearMissNamesDiffer(before: Name, c: bv8, d: bv8, after: Name, signed: bool)
    requires c != d
    ensures Hash(before + [c] + after, signed) != Hash(before + [d] + after, signed)
  {
    hide Mix, Widen, TimesPrime, Xor;
    SplitHash(before, c, after, signed);
    SplitHash(before, d, after, signed);
    var h := HashFrom(before, BASIS, signed);
    MixIs(h, c, signed);
    MixIs(h, d, signed);
    WidenInjective(c, d, signed);
    ProductInjective(h, Widen(c, signed), Widen(d, signed));
    SameSuffix(after, Mix(h, c, signed), Mix(h, d, signed), signed);
  }

  lemma SplitHash(before: Name, c: bv8, after: Name, signed: bool)
    ensures Hash(before + [c] + after, signed) ==
            HashFrom(after, Mix(HashFrom(before, BASIS, signed), c, signed), signed)
  {
    hide Mix;
    HashAppends(before + [c], after, BASIS, signed);
    HashAppends(before, [c], BASIS, signed);
    var h := HashFrom(before, BASIS, signed);
    assert HashFrom([c], h, signed) == Mix(h, c, signed) by {
      assert [c][1..] == [];
    }
  }

  // ----- the forms agree -----

  /** On memory holding a NUL-free name, a NUL and anything after, the two recursions agree. */
  lemma {:induction false} StringFormAgrees(s: Name, junk: Name, h: bv64, signed: bool)
    requires 0 !in s
    ensures StringHashFrom(s + [0] + junk, h, signed) == HashFrom(s, h, signed)
  {
    hide Mix;
    var memory := s + [0] + junk;
    assert memory[|s|] == 0;
    if s != [] {
      assert memory[1..] == s[1..] + [0] + junk;
      StringFormAgrees(s[1..], junk, Mix(h, s[0], signed), signed);
    }
  }

  predicate Ascii(s: Name) {
    forall i :: 0 <= i < |s| ==> s[i] < 128
  }

  lemma XorIs(x: bv64, y: bv64)
    ensures Xor(x, y) == x ^ y
  {
  }

  lemma SamePrime(x: bv64)
    ensures TimesPrime(x) == TimesFnvPrime(x)
  {
  }

  lemma MixIsFnv1aStep(h: bv64, c: bv8)
    ensures TimesPrime(Xor(h, c as bv64)) == Fnv1aStep(h, c)
  {
    hide TimesPrime, TimesFnvPrime, Xor;
    XorIs(h, c as bv64);
    SamePrime(h ^ (c as bv64));
  }

  lemma {:induction false} AsciiIsFnv1a(s: Name, signed: bool)
    requires !signed || Ascii(s)
    ensures Hash(s, signed) == Fnv1a(s)
  {
    if s != [] {
      var init, last := s[..|s| - 1], s[|s| - 1];
      assert s == init + [last];
      hide TimesPrime, TimesFnvPrime, Xor, Fnv1aStep;
      MixIsFnv1aStep(Fnv1a(init), last);
      AsciiIsFnv1a(init, signed);
      HashAppends(init, [last], BASIS, signed);
      assert [last][1..] == [];
    }
  }

  /** Values worked out by hand: the empty name, an ASCII name, and one octet outside ASCII under either sign. */
  lemma KnownHashes(signed: bool)
    ensures Hash([], signed) == 0xcbf29ce484222325
    ensures Hash([97], signed) == 0xaf63dc4c8601ec8c && CallId([97], signed) == 0xaf63dc4c8601ec8c
    ensures Hash([102, 111, 111, 98, 97, 114], signed) == 0x85944171f73967e8
    ensures Hash([0xe9], true) == 0x509c33b379fe2ea4 && Hash([0xe9], false) == 0xaf64644c8602d3a4
  {
    KnownMixes(signed);
    hide Mix;
    OneLetter(97, BASIS, signed);
    OneLetter(0xe9, BASIS, true);
    OneLetter(0xe9, BASIS, false);
    assert [102, 111, 111, 98, 97, 114] == [102] + [111, 111, 98, 97, 114];
    Letters([111, 111, 98, 97, 114], 102, BASIS, signed);
    assert [111, 111, 98, 97, 114] == [111] + [111, 98, 97, 114] && [111, 98, 97, 114] == [111] + [98, 97, 114];
    assert [98, 97, 114] == [98] + [97, 114] && [97, 114] == [97] + [114];
    Letters([111, 98, 97, 114], 111, 0xaf63db4c8601ead9, signed);
    Letters([98, 97, 114], 111, 0x8985907b541d342, signed);
    Letters([97, 114], 98, 0xdcb27518fed9d577, signed);
    Letters([114], 97, 0xdd120e790c2512af, signed);
    OneLetter(114, 0xcac165afa2fef40a, signed);
  }

  lemma KnownMixes(signed: bool)
    ensures Mix(BASIS, 97, signed) == 0xaf63dc4c8601ec8c
    ensures Mix(BASIS, 102, signed) == 0xaf63db4c8601ead9
    ensures Mix(0xaf63db4c8601ead9, 111, signed) == 0x8985907b541d342
    ensures Mix(0x8985907b541d342, 111, signed) == 0xdcb27518fed9d577
    ensures Mix(0xdcb27518fed9d577, 98, signed) == 0xdd120e790c2512af
    ensures Mix(0xdd120e790c2512af, 97, signed) == 0xcac165afa2fef40a
    ensures Mix(0xcac165afa2fef40a, 114, signed) == 0x85944171f73967e8
    ensures Mix(BASIS, 0xe9, true) == 0x509c33b379fe2ea4
    ensures Mix(BASIS, 0xe9, false) == 0xaf64644c8602d3a4
  {
  }

  lemma OneLetter(c: bv8, h: bv64, signed: bool)
    ensures HashFrom([c], h, signed) == Mix(h, c, signed)
  {
    hide Mix;
    assert [c][1..] == [];
  }

  lemma Letters(rest: Name, c: bv8, h: bv64, signed: bool)
    ensures HashFrom([c] + rest, h, signed) == HashFrom(rest, Mix(h, c, signed), signed)
  {
    hide Mix;
    assert ([c] + rest)[1..] == rest;
  }

  /** Peers whose plain `char` differs in sign agree on every ASCII name. */
  lemma AsciiNamesPortable(s: Name)
    requires Ascii(s)
    ensures Hash(s, true) == Hash(s, false)
  {
    AsciiIsFnv1a(s, true);
    AsciiIsFnv1a(s, false);
  }

  lemma SignMatters(c: bv8)
    requires c >= 128
    ensures Widen(c, true) != Widen(c, false)
  {
  }

  /** They disagree on every name with one character outside ASCII. */
  lemma OneHighCharNotPortable(before: Name, c: bv8, after: Name)
    requires Ascii(before) && Ascii(after) && c >= 128
    ensures Hash(before + [c] + after, true) != Hash(before + [c] + after, false)
  {
    hide Mix, TimesPrime, Xor, Widen;
    SplitHash(before, c, after, true);
    SplitHash(before, c, after, false);
    AsciiNamesPortable(before);
    var h := HashFrom(before, BASIS, true);
    MixIs(h, c, true);
    MixIs(h, c, false);
    SignMatters(c);
    ProductInjective(h, Widen(c, true), Widen(c, false));
    SignIrrelevant(after, Mix(h, c, false));
    SameSuffix(after, Mix(h, c, true), Mix(h, c, false), true);
  }

  /** So the hash is FNV-1a on every name if and only if plain `char` is unsigned. */
  lemma HashIsFnv1aIff(signed: bool)
    ensures (forall s: Name :: Hash(s, signed) == Fnv1a(s)) <==> !signed
  {
    hide Hash, Fnv1a;
    if signed {
      var high: Name := [] + [200] + [];
      OneHighCharNotPortable([], 200, []);
      AsciiIsFnv1a(high, false);
      assert Hash(high, signed) != Fnv1a(high);
    } else {
      forall s: Name ensures Hash(s, signed) == Fnv1a(s) {
        AsciiIsFnv1a(s, signed);
      }
    }
  }

  lemma {:induction false} SignIrrelevant(s: Name, h: bv64)
    requires Ascii(s)
    ensures HashFrom(s, h, true) == HashFrom(s, h, false)
  {
    hide TimesPrime, Xor;
    if s != [] {
      SignIrrelevant(s[1..], Mix(h, s[0], true));
    }
  }

  lemma CallIdDistinguishes(s: Name, t: Name, signed: bool)
    ensures CallId(s, signed) == CallId(t, signed) <==> Hash(s, signed) == Hash(t, signed)
  {
    hide Hash;
    assert (Hash(s, signed) as int) as bv64 == Hash(s, signed);
    assert (Hash(t, signed) as int) as bv64 == Hash(t, signed);
  }
}
