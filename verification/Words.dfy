/** Bytes, 64-bit words and their little-endian form. */
module Words {
  datatype Option<+T> = None | Some(value: T)

  type Byte = x: int | 0 <= x < 256
  type Bytes = seq<Byte>

  const TWO32: nat := 0x1_0000_0000
  const TWO64: nat := 0x1_0000_0000_0000_0000
  type Word = x: int | 0 <= x < TWO64

  /** 256 to the power k: how many values k bytes can hold. */
  function Pow256(k: nat): (p: nat)
    ensures p > 0
  {
    if k == 0 then 1 else 256 * Pow256(k - 1)
  }

  /** The k low-order bytes of n, least significant first. */
  function ToLittle(n: nat, k: nat): (s: Bytes)
    ensures |s| == k
  {
    if k == 0 then [] else [n % 256] + ToLittle(n / 256, k - 1)
  }

  function FromLittle(s: Bytes): (n: nat)
    ensures n < Pow256(|s|)
  {
    if s == [] then 0 else s[0] + 256 * FromLittle(s[1..])
  }

  function Reversed(s: Bytes): (r: Bytes)
    ensures |r| == |s|
  {
    if s == [] then [] else Reversed(s[1..]) + [s[0]]
  }

  lemma Pow256Of8()
    ensures Pow256(8) == TWO64
  {
    assert Pow256(4) == TWO32;
    assert Pow256(8) == 256 * 256 * 256 * 256 * Pow256(4);
  }

  lemma {:induction false} LittleRoundTrip(n: nat, k: nat)
    requires n < Pow256(k)
    ensures FromLittle(ToLittle(n, k)) == n
  {
    if k > 0 {
      LittleRoundTrip(n / 256, k - 1);
      assert ToLittle(n, k)[1..] == ToLittle(n / 256, k - 1);
    }
  }

  lemma {:induction false} LittleRoundTripBack(s: Bytes)
    ensures ToLittle(FromLittle(s), |s|) == s
  {
    if s != [] {
      LittleRoundTripBack(s[1..]);
      assert FromLittle(s) / 256 == FromLittle(s[1..]);
    }
  }

  lemma WordRoundTrip(n: nat)
    requires n < TWO64
    ensures FromLittle(ToLittle(n, 8)) == n
  {
    Pow256Of8();
    LittleRoundTrip(n, 8);
  }

  lemma {:induction false} ReversedAt(s: Bytes, k: nat)
    requires k < |s|
    ensures Reversed(s)[k] == s[|s| - 1 - k]
  {
    if k < |s| - 1 {
      ReversedAt(s[1..], k);
    }
  }

  lemma {:induction false} ReversedTwice(s: Bytes)
    ensures Reversed(Reversed(s)) == s
  {
    forall k | 0 <= k < |s| ensures Reversed(Reversed(s))[k] == s[k] {
      ReversedAt(Reversed(s), k);
      ReversedAt(s, |s| - 1 - k);
    }
  }
}
