/** Unpadded lower-case base32 over a 32-bit buffer (`encodeBase32` in encrypted-path.ts), against section 6 of
    RFC 4648. */
module Base32 {
  import opened BitStrings

  const ALPHABET := "abcdefghijklmnopqrstuvwxyz234567"

  lemma IsBase32()
    ensures IsAlphabet(ALPHABET, 5)
  {
    assert Power(5) == 32;
  }

  function Base32(bytes: seq<Byte>): string {
    IsBase32();
    Encode(Bits(bytes), 5, ALPHABET)
  }

  // ---------- the buffer ----------

  predicate BitAt(buffer: bv32, k: nat)
    requires k < 32
  {
    (buffer >> k) & 1 == 1
  }

  /** The lowest bits of the buffer; whatever stands above them does not matter. */
  predicate Holds(buffer: bv32, pending: seq<bool>) {
    |pending| <= 12 && forall i :: 0 <= i < |pending| ==> pending[i] == BitAt(buffer, |pending| - 1 - i)
  }

  function Push(buffer: bv32, b: Byte): bv32 {
    (buffer << 8) | (b as bv32)
  }

  lemma PushLow(buffer: bv32, b: Byte)
    ensures BitAt(Push(buffer, b), 0) == (b & 1 == 1) && BitAt(Push(buffer, b), 1) == ((b >> 1) & 1 == 1)
    ensures BitAt(Push(buffer, b), 2) == ((b >> 2) & 1 == 1) && BitAt(Push(buffer, b), 3) == ((b >> 3) & 1 == 1)
    ensures BitAt(Push(buffer, b), 4) == ((b >> 4) & 1 == 1) && BitAt(Push(buffer, b), 5) == ((b >> 5) & 1 == 1)
    ensures BitAt(Push(buffer, b), 6) == ((b >> 6) & 1 == 1) && BitAt(Push(buffer, b), 7) == ((b >> 7) & 1 == 1)
  {
  }

  lemma PushHigh(buffer: bv32, b: Byte)
    ensures BitAt(Push(buffer, b), 8) == BitAt(buffer, 0) && BitAt(Push(buffer, b), 9) == BitAt(buffer, 1)
    ensures BitAt(Push(buffer, b), 10) == BitAt(buffer, 2) && BitAt(Push(buffer, b), 11) == BitAt(buffer, 3)
  {
  }

  lemma PushAt(buffer: bv32, b: Byte, k: nat)
    requires k < 12
    ensures BitAt(Push(buffer, b), k) == if k < 8 then ByteBits(b)[7 - k] else BitAt(buffer, k - 8)
  {
    if k < 8 {
      PushLow(buffer, b);
      ByteBitAt(b, k);
    } else {
      PushHigh(buffer, b);
    }
    hide BitAt, Push;
  }

  lemma ByteBitAt(b: Byte, k: nat)
    requires k < 8
    ensures ByteBits(b)[7 - k] == match k
      case 0 => b & 1 == 1 case 1 => (b >> 1) & 1 == 1 case 2 => (b >> 2) & 1 == 1 case 3 => (b >> 3) & 1 == 1
      case 4 => (b >> 4) & 1 == 1 case 5 => (b >> 5) & 1 == 1 case 6 => (b >> 6) & 1 == 1 case _ => (b >> 7) & 1 == 1
  {
  }

  lemma PushHolds(buffer: bv32, pending: seq<bool>, b: Byte)
    requires Holds(buffer, pending) && |pending| < 5
    ensures Holds(Push(buffer, b), pending + ByteBits(b))
  {
    hide BitAt, Push, ByteBits;
    var more := pending + ByteBits(b);
    forall i | 0 <= i < |more| ensures more[i] == BitAt(Push(buffer, b), |more| - 1 - i) {
      PushAt(buffer, b, |more| - 1 - i);
    }
  }

  /** Five bits as the index of a character. */
  function Quintet(a: bool, b: bool, c: bool, d: bool, e: bool): nat {
    (if a then 16 else 0) + (if b then 8 else 0) + (if c then 4 else 0) + (if d then 2 else 0) + (if e then 1 else 0)
  }

  lemma QuintetIsValue(bits: seq<bool>)
    requires |bits| == 5
    ensures Value(bits) == Quintet(bits[0], bits[1], bits[2], bits[3], bits[4])
  {
    assert bits[..4][..3] == bits[..3] && bits[..3][..2] == bits[..2] && bits[..2][..1] == bits[..1]
      && bits[..1][..0] == [];
    assert Value(bits[..1]) == if bits[0] then 1 else 0;
    assert Value(bits[..2]) == 2 * Value(bits[..1]) + if bits[1] then 1 else 0;
    assert Value(bits[..3]) == 2 * Value(bits[..2]) + if bits[2] then 1 else 0;
    assert Value(bits[..4]) == 2 * Value(bits[..3]) + if bits[3] then 1 else 0;
  }

  lemma LowQuintet(x: bv32)
    ensures (x & 31) as nat == Quintet(BitAt(x, 4), BitAt(x, 3), BitAt(x, 2), BitAt(x, 1), BitAt(x, 0))
  {
  }

  function Down(buffer: bv32, k: nat): bv32
    requires k < 32
  {
    buffer >> k
  }

  /** Shifting down moves every bit down. */
  lemma ShiftedBit(buffer: bv32, k: nat, j: nat)
    requires k <= 7 && j < 5
    ensures BitAt(Down(buffer, k), j) == BitAt(buffer, j + k)
  {
    hide BitAt, Down;
    if k == 0 { ShiftBy0(buffer, j); }
    else if k == 1 { ShiftBy1(buffer, j); }
    else if k == 2 { ShiftBy2(buffer, j); }
    else if k == 3 { ShiftBy3(buffer, j); }
    else if k == 4 { ShiftBy4(buffer, j); }
    else if k == 5 { ShiftBy5(buffer, j); }
    else if k == 6 { ShiftBy6(buffer, j); }
    else { ShiftBy7(buffer, j); }
  }

  lemma ShiftBy0(x: bv32, j: nat)
    requires j < 5
    ensures BitAt(Down(x, 0), j) == BitAt(x, j + 0)
  {
    if j == 0 { } else if j == 1 { } else if j == 2 { } else if j == 3 { }
  }

  lemma ShiftBy1(x: bv32, j: nat)
    requires j < 5
    ensures BitAt(Down(x, 1), j) == BitAt(x, j + 1)
  {
    if j == 0 { } else if j == 1 { } else if j == 2 { } else if j == 3 { }
  }

  lemma ShiftBy2(x: bv32, j: nat)
    requires j < 5
    ensures BitAt(Down(x, 2), j) == BitAt(x, j + 2)
  {
    if j == 0 { } else if j == 1 { } else if j == 2 { } else if j == 3 { }
  }

  lemma ShiftBy3(x: bv32, j: nat)
    requires j < 5
    ensures BitAt(Down(x, 3), j) == BitAt(x, j + 3)
  {
    if j == 0 { } else if j == 1 { } else if j == 2 { } else if j == 3 { }
  }

  lemma ShiftBy4(x: bv32, j: nat)
    requires j < 5
    ensures BitAt(Down(x, 4), j) == BitAt(x, j + 4)
  {
    if j == 0 { } else if j == 1 { } else if j == 2 { } else if j == 3 { }
  }

  lemma ShiftBy5(x: bv32, j: nat)
    requires j < 5
    ensures BitAt(Down(x, 5), j) == BitAt(x, j + 5)
  {
    if j == 0 { } else if j == 1 { } else if j == 2 { } else if j == 3 { }
  }

  lemma ShiftBy6(x: bv32, j: nat)
    requires j < 5
    ensures BitAt(Down(x, 6), j) == BitAt(x, j + 6)
  {
    if j == 0 { } else if j == 1 { } else if j == 2 { } else if j == 3 { }
  }

  lemma ShiftBy7(x: bv32, j: nat)
    requires j < 5
    ensures BitAt(Down(x, 7), j) == BitAt(x, j + 7)
  {
    if j == 0 { } else if j == 1 { } else if j == 2 { } else if j == 3 { }
  }

  /** The five oldest pending bits are taken out, and the rest stays in the buffer. */
  lemma Take(buffer: bv32, pending: seq<bool>)
    requires Holds(buffer, pending) && |pending| >= 5
    ensures Index(buffer, |pending| - 5) == Value(pending[..5])
    ensures Holds(buffer, pending[5..])
  {
    var k := |pending| - 5;
    QuintetIsValue(pending[..5]);
    IndexBits(buffer, k);
    hide BitAt, Value, Index;
    assert pending[0] == BitAt(buffer, k + 4) && pending[1] == BitAt(buffer, k + 3)
      && pending[2] == BitAt(buffer, k + 2)
      && pending[3] == BitAt(buffer, k + 1) && pending[4] == BitAt(buffer, k);
  }

  /** The index of a character: five bits from place `k` on. */
  function Index(buffer: bv32, k: nat): (i: nat)
    requires k < 32
    ensures i < 32
  {
    (Down(buffer, k) & 31) as nat
  }

  lemma IndexBits(buffer: bv32, k: nat)
    requires k <= 7
    ensures Index(buffer, k) == Quintet(BitAt(buffer, k + 4), BitAt(buffer, k + 3), BitAt(buffer, k + 2),
      BitAt(buffer, k + 1), BitAt(buffer, k))
  {
    LowQuintet(Down(buffer, k));
    hide BitAt, Down;
    ShiftedBit(buffer, k, 0);
    ShiftedBit(buffer, k, 1);
    ShiftedBit(buffer, k, 2);
    ShiftedBit(buffer, k, 3);
    ShiftedBit(buffer, k, 4);
  }

  // ---------- the rest ----------

  function Up(buffer: bv32, k: nat): bv32
    requires k < 32
  {
    buffer << k
  }

  lemma UpBy1(x: bv32)
    ensures !BitAt(Up(x, 1), 0) && BitAt(Up(x, 1), 1) == BitAt(x, 0) && BitAt(Up(x, 1), 2) == BitAt(x, 1)
    ensures BitAt(Up(x, 1), 3) == BitAt(x, 2) && BitAt(Up(x, 1), 4) == BitAt(x, 3)
  {
  }

  lemma UpBy2(x: bv32)
    ensures !BitAt(Up(x, 2), 0) && !BitAt(Up(x, 2), 1) && BitAt(Up(x, 2), 2) == BitAt(x, 0)
    ensures BitAt(Up(x, 2), 3) == BitAt(x, 1) && BitAt(Up(x, 2), 4) == BitAt(x, 2)
  {
  }

  lemma UpBy3(x: bv32)
    ensures !BitAt(Up(x, 3), 0) && !BitAt(Up(x, 3), 1) && !BitAt(Up(x, 3), 2)
    ensures BitAt(Up(x, 3), 3) == BitAt(x, 0) && BitAt(Up(x, 3), 4) == BitAt(x, 1)
  {
  }

  lemma UpBy4(x: bv32)
    ensures !BitAt(Up(x, 4), 0) && !BitAt(Up(x, 4), 1) && !BitAt(Up(x, 4), 2) && !BitAt(Up(x, 4), 3)
    ensures BitAt(Up(x, 4), 4) == BitAt(x, 0)
  {
  }

  function LastIndex(buffer: bv32, bits: nat): (i: nat)
    requires 0 < bits < 5
    ensures i < 32
  {
    (Up(buffer, 5 - bits) & 31) as nat
  }

  lemma LastIndexBits(x: bv32)
    ensures LastIndex(x, 1) == Quintet(BitAt(x, 0), false, false, false, false)
    ensures LastIndex(x, 2) == Quintet(BitAt(x, 1), BitAt(x, 0), false, false, false)
    ensures LastIndex(x, 3) == Quintet(BitAt(x, 2), BitAt(x, 1), BitAt(x, 0), false, false)
    ensures LastIndex(x, 4) == Quintet(BitAt(x, 3), BitAt(x, 2), BitAt(x, 1), BitAt(x, 0), false)
  {
    hide BitAt, Up;
    LowQuintet(Up(x, 4));
    LowQuintet(Up(x, 3));
    LowQuintet(Up(x, 2));
    LowQuintet(Up(x, 1));
    UpBy1(x);
    UpBy2(x);
    UpBy3(x);
    UpBy4(x);
  }

  /** The last character holds the remaining bits, filled up with zeros. */
  lemma LastTake(buffer: bv32, pending: seq<bool>)
    requires Holds(buffer, pending) && 0 < |pending| < 5
    ensures LastIndex(buffer, |pending|) == Value(Pad(pending, 5))
  {
    hide BitAt, LastIndex, Pad, Value;
    LastIndexBits(buffer);
    PadKeeps(pending, 5);
    var padded := Pad(pending, 5);
    QuintetIsValue(padded);
    assert forall i :: 0 <= i < |pending| ==> padded[i] == padded[..|pending|][i];
  }

  lemma TakeEncoded(result: string, taken: seq<bool>, pending: seq<bool>, k: nat)
    requires |taken| == 5 * k && |pending| >= 5
    requires |ALPHABET| == Power(5) && result == Encode(taken, 5, ALPHABET)
    ensures result + [ALPHABET[Value(pending[..5])]] == Encode(taken + pending[..5], 5, ALPHABET)
  {
    EncodeConcat(taken, pending[..5], 5, ALPHABET, k);
    var five := pending[..5];
    assert five[..5] == five && five[5..] == [];
    assert Encode(five, 5, ALPHABET) == [ALPHABET[Value(five)]] + Encode([], 5, ALPHABET);
  }

  /** `encodeBase32` */
  method EncodeBase32(bytes: seq<Byte>) returns (result: string)
    ensures result == Base32(bytes)
  {
    IsBase32();
    result := "";
    var buffer: bv32, bits := 0, 0;
    ghost var taken: seq<bool>, pending: seq<bool>, k := [], [], 0;
    hide Push, Index, LastIndex, BitAt, Value, Encode, IsAlphabet;
    NothingEncoded();
    for n := 0 to |bytes|
      invariant |pending| == bits < 5 && Holds(buffer, pending) && |taken| == 5 * k
      invariant taken + pending == Bits(bytes[..n]) && result == Encode(taken, 5, ALPHABET)
    {
      PushHolds(buffer, pending, bytes[n]);
      assert bytes[..n + 1][..n] == bytes[..n];
      assert taken + (pending + ByteBits(bytes[n])) == taken + pending + ByteBits(bytes[n]);
      buffer, bits := Push(buffer, bytes[n]), bits + 8;
      pending := pending + ByteBits(bytes[n]);
      while bits >= 5
        invariant |pending| == bits && Holds(buffer, pending) && |taken| == 5 * k
        invariant taken + pending == Bits(bytes[..n + 1]) && result == Encode(taken, 5, ALPHABET)
      {
        Take(buffer, pending);
        TakeEncoded(result, taken, pending, k);
        result, bits := result + [ALPHABET[Index(buffer, bits - 5)]], bits - 5;
        assert taken + pending[..5] + pending[5..] == taken + pending;
        taken, pending, k := taken + pending[..5], pending[5..], k + 1;
      }
    }
    assert bytes[..|bytes|] == bytes;
    EncodeConcat(taken, pending, 5, ALPHABET, k);
    LastEncoded(pending);
    if bits > 0 {
      LastTake(buffer, pending);
      result := result + [ALPHABET[LastIndex(buffer, bits)]];
    }
  }

  lemma NothingEncoded()
    requires |ALPHABET| == Power(5)
    ensures Encode([], 5, ALPHABET) == ""
  {
  }

  lemma LastEncoded(pending: seq<bool>)
    requires |ALPHABET| == Power(5) && |pending| < 5
    ensures Encode(pending, 5, ALPHABET) == if pending == [] then "" else [ALPHABET[Value(Pad(pending, 5))]]
  {
  }

  /** Different bytes have different encodings, of the exact length that section 6 of RFC 4648 gives. */
  lemma Base32IsInjective(a: seq<Byte>, b: seq<Byte>)
    requires Base32(a) == Base32(b)
    ensures a == b
  {
    IsBase32();
    Base32Length(a);
    Base32Length(b);
    assert |a| == |b|;
    EncodeInjective(Bits(a), Bits(b), 5, ALPHABET);
    BitsInjective(a, b);
  }

  lemma Base32Length(bytes: seq<Byte>)
    ensures |Base32(bytes)| == (8 * |bytes| + 4) / 5
  {
    IsBase32();
    EncodeLength(Bits(bytes), 5, ALPHABET);
  }
}
