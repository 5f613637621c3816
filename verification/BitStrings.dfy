/** Encoding bytes as the characters of an alphabet, a fixed number of bits each (RFC 4648). */
module BitStrings {
  type Byte = bv8

  /** The bits of a byte, most significant first. */
  function ByteBits(b: Byte): (bits: seq<bool>)
    ensures |bits| == 8
  {
    [(b >> 7) & 1 == 1, (b >> 6) & 1 == 1, (b >> 5) & 1 == 1, (b >> 4) & 1 == 1,
     (b >> 3) & 1 == 1, (b >> 2) & 1 == 1, (b >> 1) & 1 == 1, b & 1 == 1]
  }

  function Bits(bytes: seq<Byte>): (bits: seq<bool>)
    ensures |bits| == 8 * |bytes|
  {
    if bytes == [] then [] else Bits(bytes[..|bytes| - 1]) + ByteBits(bytes[|bytes| - 1])
  }

  function Power(n: nat): (p: nat)
    ensures p >= 1
  {
    if n == 0 then 1 else 2 * Power(n - 1)
  }

  /** The number that bits denote, most significant first. */
  function Value(bits: seq<bool>): (v: nat)
    ensures v < Power(|bits|)
  {
    if bits == [] then 0
    else 2 * Value(bits[..|bits| - 1]) + if bits[|bits| - 1] then 1 else 0
  }

  /** Fills up with zero bits on the right. */
  function Pad(bits: seq<bool>, w: nat): (padded: seq<bool>)
    ensures |padded| == if |bits| < w then w else |bits|
    decreases w - |bits|
  {
    if |bits| >= w then bits else Pad(bits + [false], w)
  }

  /** An alphabet of distinct characters, one for each group of `w` bits. */
  ghost predicate IsAlphabet(alphabet: string, w: nat) {
    w > 0 && |alphabet| == Power(w) && forall i, j :: 0 <= i < j < |alphabet| ==> alphabet[i] != alphabet[j]
  }

  /** Groups of `w` bits, the last one padded (sections 4 to 6 of RFC 4648, without the padding characters). */
  function Encode(bits: seq<bool>, w: nat, alphabet: string): string
    requires w > 0 && |alphabet| == Power(w)
    decreases |bits|
  {
    if bits == [] then ""
    else if |bits| < w then [alphabet[Value(Pad(bits, w))]]
    else [alphabet[Value(bits[..w])]] + Encode(bits[w..], w, alphabet)
  }

  /** Whole groups are encoded on their own. */
  lemma {:induction false} EncodeConcat(a: seq<bool>, b: seq<bool>, w: nat, alphabet: string, k: nat)
    requires w > 0 && |alphabet| == Power(w) && |a| == k * w
    ensures Encode(a + b, w, alphabet) == Encode(a, w, alphabet) + Encode(b, w, alphabet)
    decreases k
  {
    if k == 0 {
      assert a + b == b;
    } else {
      assert k * w == (k - 1) * w + w;
      assert (a + b)[..w] == a[..w] && (a + b)[w..] == a[w..] + b;
      EncodeConcat(a[w..], b, w, alphabet, k - 1);
    }
  }

  // ---------- the encoding is injective ----------

  lemma {:induction false} ValueInjective(a: seq<bool>, b: seq<bool>)
    requires |a| == |b| && Value(a) == Value(b)
    ensures a == b
  {
    if a != [] {
      var n := |a| - 1;
      ValueInjective(a[..n], b[..n]);
      assert a == a[..n] + [a[n]] && b == b[..n] + [b[n]];
    }
  }

  lemma {:induction false} PadKeeps(bits: seq<bool>, w: nat)
    requires |bits| <= w
    ensures Pad(bits, w)[..|bits|] == bits && forall i :: |bits| <= i < w ==> !Pad(bits, w)[i]
    decreases w - |bits|
  {
    if |bits| < w {
      PadKeeps(bits + [false], w);
      var padded := Pad(bits, w);
      assert padded[..|bits| + 1] == bits + [false];
      assert padded[|bits|] == (bits + [false])[|bits|];
      assert padded[..|bits|] == (bits + [false])[..|bits|];
    }
  }

  lemma {:induction false} EncodeInjective(a: seq<bool>, b: seq<bool>, w: nat, alphabet: string)
    requires IsAlphabet(alphabet, w) && |a| == |b| && Encode(a, w, alphabet) == Encode(b, w, alphabet)
    ensures a == b
    decreases |a|
  {
    if a == [] {
    } else if |a| < w {
      SameChar(alphabet, w, Value(Pad(a, w)), Value(Pad(b, w)));
      ValueInjective(Pad(a, w), Pad(b, w));
      PadKeeps(a, w);
      PadKeeps(b, w);
    } else {
      var s, t := Encode(a, w, alphabet), Encode(b, w, alphabet);
      assert s[0] == t[0] && s[1..] == t[1..];
      SameChar(alphabet, w, Value(a[..w]), Value(b[..w]));
      ValueInjective(a[..w], b[..w]);
      EncodeInjective(a[w..], b[w..], w, alphabet);
      assert a == a[..w] + a[w..] && b == b[..w] + b[w..];
    }
  }

  lemma SameChar(alphabet: string, w: nat, i: nat, j: nat)
    requires IsAlphabet(alphabet, w) && i < Power(w) && j < Power(w) && alphabet[i] == alphabet[j]
    ensures i == j
  {
  }

  lemma ByteBitsInjective(a: Byte, b: Byte)
    requires ByteBits(a) == ByteBits(b)
    ensures a == b
  {
    var x, y := ByteBits(a), ByteBits(b);
    assert x[0] == y[0] && x[1] == y[1] && x[2] == y[2] && x[3] == y[3] && x[4] == y[4] && x[5] == y[5] && x[6] == y[6]
      && x[7] == y[7];
    ByteFromBits(a, b);
  }

  lemma ByteFromBits(a: Byte, b: Byte)
    requires ((a >> 7) & 1 == 1) == ((b >> 7) & 1 == 1) && ((a >> 6) & 1 == 1) == ((b >> 6) & 1 == 1)
    requires ((a >> 5) & 1 == 1) == ((b >> 5) & 1 == 1) && ((a >> 4) & 1 == 1) == ((b >> 4) & 1 == 1)
    requires ((a >> 3) & 1 == 1) == ((b >> 3) & 1 == 1) && ((a >> 2) & 1 == 1) == ((b >> 2) & 1 == 1)
    requires ((a >> 1) & 1 == 1) == ((b >> 1) & 1 == 1) && (a & 1 == 1) == (b & 1 == 1)
    ensures a == b
  {
  }

  lemma {:induction false} BitsInjective(a: seq<Byte>, b: seq<Byte>)
    requires Bits(a) == Bits(b)
    ensures a == b
  {
    assert |a| == |b|;
    if a != [] {
      var n := |a| - 1;
      assert Bits(a)[..8 * n] == Bits(a[..n]) && Bits(b)[..8 * n] == Bits(b[..n]);
      assert Bits(a)[8 * n..] == ByteBits(a[n]) && Bits(b)[8 * n..] == ByteBits(b[n]);
      BitsInjective(a[..n], b[..n]);
      ByteBitsInjective(a[n], b[n]);
      assert a == a[..n] + [a[n]] && b == b[..n] + [b[n]];
    }
  }

  /** One character for every `w` bits begun. */
  lemma {:induction false} EncodeLength(bits: seq<bool>, w: nat, alphabet: string)
    requires w > 0 && |alphabet| == Power(w)
    ensures var n := |Encode(bits, w, alphabet)|; w * n >= |bits| && (n > 0 ==> w * (n - 1) < |bits|)
    decreases |bits|
  {
    if |bits| >= w {
      EncodeLength(bits[w..], w, alphabet);
      var m := |Encode(bits[w..], w, alphabet)|;
      assert w * (m + 1) == w * m + w;
      if m > 0 { assert w * m == w * (m - 1) + w; }
    }
  }
}
