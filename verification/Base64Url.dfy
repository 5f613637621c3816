/** Canonical base64url (encoding.ts), against sections 3.5 and 5 of RFC 4648. */
module Base64Url {
  import opened Common
  import opened BitStrings

  const CHUNK := 8192

  // ---------- the alphabets ----------

  function Char(i: nat, c62: char, c63: char): char
    requires i < 64
  {
    if i < 26 then 'A' + i as char
    else if i < 52 then 'a' + (i - 26) as char
    else if i < 62 then '0' + (i - 52) as char
    else if i == 62 then c62 else c63
  }

  function Table(n: nat, c62: char, c63: char): (table: string)
    requires n <= 64
    ensures |table| == n && forall i :: 0 <= i < n ==> table[i] == Char(i, c62, c63)
  {
    if n == 0 then "" else Table(n - 1, c62, c63) + [Char(n - 1, c62, c63)]
  }

  const URL := Table(64, '-', '_')
  const STANDARD := Table(64, '+', '/')

  /** The index of a character of the URL alphabet. */
  function IndexOf(c: char): Option<nat> {
    if 'A' <= c <= 'Z' then Some((c - 'A') as nat)
    else if 'a' <= c <= 'z' then Some((c - 'a') as nat + 26)
    else if '0' <= c <= '9' then Some((c - '0') as nat + 52)
    else if c == '-' then Some(62)
    else if c == '_' then Some(63)
    else None
  }

  lemma IndexInverts(i: nat)
    requires i < 64
    ensures IndexOf(URL[i]) == Some(i)
  {
  }

  lemma CharInverts(c: char)
    requires IndexOf(c).Some?
    ensures IndexOf(c).value < 64 && URL[IndexOf(c).value] == c
  {
  }

  lemma IsBase64()
    ensures |URL| == 64 == Power(6) && |STANDARD| == Power(6) && IsAlphabet(URL, 6)
  {
    assert Power(6) == 64;
    forall i, j | 0 <= i < j < 64 ensures URL[i] != URL[j] {
      IndexInverts(i);
      IndexInverts(j);
    }
  }

  /** Base64url without padding (section 5 of RFC 4648). */
  function Base64Url(bytes: seq<Byte>): string {
    IsBase64();
    Encode(Bits(bytes), 6, URL)
  }

  // ---------- encoding ----------

  function Pads(n: nat): string
    decreases n
  {
    if n == 0 then "" else "=" + Pads(n - 1)
  }

  /** Standard base64 with padding (section 4 of RFC 4648), as the built-in `btoa` gives it. */
  function Btoa(bytes: seq<Byte>): string {
    IsBase64();
    Encode(Bits(bytes), 6, STANDARD) + Pads((3 - |bytes| % 3) % 3)
  }

  function UrlChar(c: char): char { if c == '+' then '-' else if c == '/' then '_' else c }

  function ToUrl(s: string): string {
    if s == "" then "" else [UrlChar(s[0])] + ToUrl(s[1..])
  }

  function StripPads(s: string): string {
    if s != "" && s[|s| - 1] == '=' then StripPads(s[..|s| - 1]) else s
  }

  lemma {:induction false} ToUrlConcat(a: string, b: string)
    ensures ToUrl(a + b) == ToUrl(a) + ToUrl(b)
  {
    if a == "" {
      assert a + b == b;
    } else {
      assert (a + b)[1..] == a[1..] + b;
      ToUrlConcat(a[1..], b);
    }
  }

  lemma {:induction false} PadsStay(n: nat)
    ensures ToUrl(Pads(n)) == Pads(n) && forall i :: 0 <= i < |Pads(n)| ==> Pads(n)[i] == '='
  {
    if n > 0 {
      PadsStay(n - 1);
      assert Pads(n)[1..] == Pads(n - 1);
    }
  }

  lemma {:induction false} PadsStrip(s: string, pads: string)
    requires (forall i :: 0 <= i < |pads| ==> pads[i] == '=') && (s == "" || s[|s| - 1] != '=')
    ensures StripPads(s + pads) == s
    decreases |pads|
  {
    if pads == "" {
      assert s + pads == s;
    } else {
      assert (s + pads)[..|s + pads| - 1] == s + pads[..|pads| - 1];
      PadsStrip(s, pads[..|pads| - 1]);
    }
  }

  lemma SameIndex(i: nat)
    requires i < 64
    ensures UrlChar(STANDARD[i]) == URL[i] && URL[i] != '='
  {
  }

  lemma {:induction false} StandardToUrl(bits: seq<bool>)
    requires |URL| == 64 == Power(6) && |STANDARD| == Power(6)
    ensures ToUrl(Encode(bits, 6, STANDARD)) == Encode(bits, 6, URL)
    ensures forall i :: 0 <= i < |Encode(bits, 6, URL)| ==> Encode(bits, 6, URL)[i] != '='
    decreases |bits|
  {
    hide Pad, Value, Char;
    if 0 < |bits| < 6 {
      SameIndex(Value(Pad(bits, 6)));
      var s := Encode(bits, 6, STANDARD);
      assert s[1..] == "";
    } else if bits != [] {
      SameIndex(Value(bits[..6]));
      StandardToUrl(bits[6..]);
      var s := Encode(bits, 6, STANDARD);
      assert s[1..] == Encode(bits[6..], 6, STANDARD);
    }
  }

  lemma StripsToUrl(bytes: seq<Byte>)
    ensures StripPads(ToUrl(Btoa(bytes))) == Base64Url(bytes)
  {
    hide Encode, Pads, ToUrl, StripPads, IsAlphabet;
    IsBase64();
    StandardToUrl(Bits(bytes));
    var pads := (3 - |bytes| % 3) % 3;
    ToUrlConcat(Encode(Bits(bytes), 6, STANDARD), Pads(pads));
    PadsStay(pads);
    PadsStrip(Base64Url(bytes), Pads(pads));
  }

  /** `encodeBase64Url`, which gathers the bytes in chunks. */
  method EncodeBase64Url(bytes: seq<Byte>) returns (text: string)
    ensures text == Base64Url(bytes)
  {
    hide Base64Url, Btoa, ToUrl, StripPads;
    var binary: seq<Byte>, offset := [], 0;
    while offset < |bytes|
      invariant binary == bytes[..if offset < |bytes| then offset else |bytes|]
    {
      var end := if offset + CHUNK < |bytes| then offset + CHUNK else |bytes|;
      binary, offset := binary + bytes[offset..end], offset + CHUNK;
    }
    assert binary == bytes;
    StripsToUrl(bytes);
    text := StripPads(ToUrl(Btoa(binary)));
  }

  // ---------- the bits of a text ----------

  function SixBits(i: nat): (bits: seq<bool>)
    requires i < 64
    ensures |bits| == 6
  {
    [i / 32 % 2 == 1, i / 16 % 2 == 1, i / 8 % 2 == 1, i / 4 % 2 == 1, i / 2 % 2 == 1, i % 2 == 1]
  }

  lemma ValueOfSeq(bits: seq<bool>)
    requires |bits| == 6
    ensures Value(bits) == (if bits[0] then 32 else 0) + (if bits[1] then 16 else 0) + (if bits[2] then 8 else 0)
                           + (if bits[3] then 4 else 0) + (if bits[4] then 2 else 0) + (if bits[5] then 1 else 0)
  {
    assert bits[..5][..4] == bits[..4] && bits[..4][..3] == bits[..3] && bits[..3][..2] == bits[..2]
      && bits[..2][..1] == bits[..1] && bits[..1][..0] == [];
    assert Value(bits[..1]) == if bits[0] then 1 else 0;
    assert Value(bits[..2]) == 2 * Value(bits[..1]) + if bits[1] then 1 else 0;
    assert Value(bits[..3]) == 2 * Value(bits[..2]) + if bits[2] then 1 else 0;
    assert Value(bits[..4]) == 2 * Value(bits[..3]) + if bits[3] then 1 else 0;
    assert Value(bits[..5]) == 2 * Value(bits[..4]) + if bits[4] then 1 else 0;
  }

  lemma Binary(a: nat, b: nat, c: nat, d: nat, e: nat, f: nat)
    requires a <= 1 && b <= 1 && c <= 1 && d <= 1 && e <= 1 && f <= 1
    ensures var v := 32 * a + 16 * b + 8 * c + 4 * d + 2 * e + f;
      && v / 32 % 2 == a && v / 16 % 2 == b && v / 8 % 2 == c && v / 4 % 2 == d && v / 2 % 2 == e && v % 2 == f
  {
    var v := 32 * a + 16 * b + 8 * c + 4 * d + 2 * e + f;
    assert v / 32 == a && v / 16 == 2 * a + b && v / 8 == 4 * a + 2 * b + c;
    assert v / 4 == 8 * a + 4 * b + 2 * c + d && v / 2 == 16 * a + 8 * b + 4 * c + 2 * d + e;
  }

  lemma Halves(v: nat)
    ensures v == 2 * (v / 2) + v % 2 && v / 4 == v / 2 / 2
  {
  }

  lemma Unbinary(v: nat)
    requires v < 64
    ensures v == 32 * (v / 32 % 2) + 16 * (v / 16 % 2) + 8 * (v / 8 % 2) + 4 * (v / 4 % 2) + 2 * (v / 2 % 2) + v % 2
  {
    var a, b, c, d, e := v / 2, v / 4, v / 8, v / 16, v / 32;
    assert b == a / 2 && c == b / 2 && d == c / 2 && e == d / 2 && e <= 1;
    Halves(v);
    Halves(a);
    Halves(b);
    Halves(c);
    Halves(d);
  }

  function Bit(b: bool): nat { if b then 1 else 0 }

  lemma ValueOfSix(i: nat)
    requires i < 64
    ensures Value(SixBits(i)) == i
  {
    ValueOfSeq(SixBits(i));
    hide Value;
    Unbinary(i);
    var bits := SixBits(i);
    assert (if bits[0] then 32 else 0) == 32 * (i / 32 % 2) && (if bits[1] then 16 else 0) == 16 * (i / 16 % 2);
    assert (if bits[2] then 8 else 0) == 8 * (i / 8 % 2) && (if bits[3] then 4 else 0) == 4 * (i / 4 % 2);
    assert (if bits[4] then 2 else 0) == 2 * (i / 2 % 2) && (if bits[5] then 1 else 0) == i % 2;
  }

  lemma SixOfValue(bits: seq<bool>)
    requires |bits| == 6
    ensures Value(bits) < 64 && SixBits(Value(bits)) == bits
  {
    ValueOfSeq(bits);
    hide Value;
    Binary(Bit(bits[0]), Bit(bits[1]), Bit(bits[2]), Bit(bits[3]), Bit(bits[4]), Bit(bits[5]));
    var v := Value(bits);
    assert v == 32 * Bit(bits[0]) + 16 * Bit(bits[1]) + 8 * Bit(bits[2]) + 4 * Bit(bits[3]) + 2 * Bit(bits[4])
      + Bit(bits[5]);
  }

  lemma SixBitsInvert(i: nat, bits: seq<bool>)
    requires i < 64 && |bits| == 6
    ensures Value(SixBits(i)) == i && Value(bits) < 64 && SixBits(Value(bits)) == bits
  {
    hide Value, SixBits;
    ValueOfSix(i);
    SixOfValue(bits);
  }

  predicate AllUrl(text: string) {
    forall i :: 0 <= i < |text| ==> IndexOf(text[i]).Some?
  }

  function IndexAt(text: string, i: nat): (index: nat)
    requires AllUrl(text) && i < |text|
    ensures index < 64
  {
    IndexOf(text[i]).value
  }

  function TextBits(text: string): (bits: seq<bool>)
    requires AllUrl(text)
    ensures |bits| == 6 * |text|
  {
    if text == "" then [] else SixBits(IndexAt(text, 0)) + TextBits(text[1..])
  }

  lemma {:induction false} EncodeText(text: string)
    requires AllUrl(text) && |URL| == 64 == Power(6)
    ensures Encode(TextBits(text), 6, URL) == text
  {
    hide SixBits, Value, Encode, Table, Power;
    if text == "" {
      NoBits();
    } else {
      var bits := TextBits(text);
      assert bits[..6] == SixBits(IndexAt(text, 0)) && bits[6..] == TextBits(text[1..]);
      EncodeSix(bits);
      SixBitsInvert(IndexAt(text, 0), bits[..6]);
      CharInverts(text[0]);
      EncodeText(text[1..]);
      assert text == [text[0]] + text[1..];
    }
  }

  lemma NoBits()
    requires |URL| == 64 == Power(6)
    ensures Encode([], 6, URL) == ""
  {
  }

  lemma EncodeSix(bits: seq<bool>)
    requires |URL| == 64 == Power(6) && |bits| >= 6
    ensures Value(bits[..6]) < 64 && Encode(bits, 6, URL) == [URL[Value(bits[..6])]] + Encode(bits[6..], 6, URL)
  {
    hide Value, Table;
  }

  function Zeros(n: nat): (bits: seq<bool>)
    ensures |bits| == n && forall i :: 0 <= i < n ==> !bits[i]
  {
    if n == 0 then [] else [false] + Zeros(n - 1)
  }

  /** The bits of an encoding are the encoded bits, filled up with zeros. */
  lemma {:induction false} TextOfEncode(bits: seq<bool>)
    requires |URL| == 64 == Power(6)
    ensures var text := Encode(bits, 6, URL);
      AllUrl(text) && 6 * |text| >= |bits| && TextBits(text) == bits + Zeros(6 * |text| - |bits|)
    decreases |bits|
  {
    hide SixBits, Value, Char, Pad;
    var text := Encode(bits, 6, URL);
    if 0 < |bits| < 6 {
      PadKeeps(bits, 6);
      var padded := Pad(bits, 6);
      SixBitsInvert(0, padded);
      IndexInverts(Value(padded));
      assert text[1..] == "" && TextBits(text[1..]) == [];
      assert TextBits(text) == padded;
      assert padded == padded[..|bits|] + padded[|bits|..];
      assert padded[|bits|..] == Zeros(6 - |bits|);
    } else if bits != [] {
      SixBitsInvert(0, bits[..6]);
      IndexInverts(Value(bits[..6]));
      TextOfEncode(bits[6..]);
      assert text[1..] == Encode(bits[6..], 6, URL);
      assert bits == bits[..6] + bits[6..];
    } else {
      assert text == "";
    }
  }

  /** Trailing zeros of the last group may be left out. */
  lemma {:induction false} EncodeTrim(bits: seq<bool>, m: nat)
    requires |URL| == 64 == Power(6) && m <= |bits| < m + 6 && |bits| % 6 == 0
    requires forall i :: m <= i < |bits| ==> !bits[i]
    ensures Encode(bits[..m], 6, URL) == Encode(bits, 6, URL)
    decreases |bits|
  {
    hide Value, Char, Pad;
    if m == |bits| {
      assert bits[..m] == bits;
    } else if |bits| == 6 {
      PadKeeps(bits[..m], 6);
      var padded := Pad(bits[..m], 6);
      assert padded == padded[..m] + padded[m..];
      assert padded == bits;
      assert bits[..6] == bits && bits[6..] == [];
      assert Encode([], 6, URL) == "";
    } else {
      assert bits[..m][..6] == bits[..6] && bits[..m][6..] == bits[6..][..m - 6];
      EncodeTrim(bits[6..], m - 6);
    }
  }

  // ---------- bytes from bits ----------

  function ByteOf(bits: seq<bool>): Byte
    requires |bits| == 8
  {
    (if bits[0] then 128 else 0) | (if bits[1] then 64 else 0) | (if bits[2] then 32 else 0) | (if bits[3] then 16
      else 0)
    | (if bits[4] then 8 else 0) | (if bits[5] then 4 else 0) | (if bits[6] then 2 else 0) | (if bits[7] then 1 else 0)
  }

  lemma ByteOfBits(bits: seq<bool>)
    requires |bits| == 8
    ensures ByteBits(ByteOf(bits)) == bits
  {
  }

  function BytesOf(bits: seq<bool>): (bytes: seq<Byte>)
    requires |bits| % 8 == 0
    ensures 8 * |bytes| == |bits|
    decreases |bits|
  {
    if bits == [] then [] else BytesOf(bits[..|bits| - 8]) + [ByteOf(bits[|bits| - 8..])]
  }

  lemma {:induction false} BitsOfBytes(bits: seq<bool>)
    requires |bits| % 8 == 0
    ensures Bits(BytesOf(bits)) == bits
    decreases |bits|
  {
    hide ByteBits, ByteOf;
    if bits != [] {
      BitsOfBytes(bits[..|bits| - 8]);
      ByteOfBits(bits[|bits| - 8..]);
      var bytes := BytesOf(bits);
      assert bytes[..|bytes| - 1] == BytesOf(bits[..|bits| - 8]);
    }
  }

  // ---------- validation and decoding ----------

  /** Are these bits of the last character's index zero? */
  predicate LastMasked(text: string, mask: bv8)
    requires AllUrl(text)
  {
    text == "" || (IndexAt(text, |text| - 1) as bv8) & mask == 0
  }

  /** `validateBase64Url`: the number of bytes, if the text is acceptable. */
  method ValidateBase64Url(text: string, maximum: nat) returns (length: Option<nat>)
    ensures length == if Valid(text, maximum) then Some(|text| * 3 / 4) else None
  {
    if |text| > (4 * maximum + 2) / 3 { return None; }
    for i := 0 to |text|
      invariant forall j :: 0 <= j < i ==> IndexOf(text[j]).Some?
    {
      if IndexOf(text[i]).None? { return None; }
    }
    if |text| % 4 == 1 { return None; }
    var n := |text| * 3 / 4;
    if n > maximum || (|text| % 4 == 2 && !LastMasked(text, 15)) || (|text| % 4 == 3 && !LastMasked(text, 3)) {
      return None;
    }
    length := Some(n);
  }

  predicate Valid(text: string, maximum: nat) {
    && |text| <= (4 * maximum + 2) / 3 && AllUrl(text) && |text| % 4 != 1
    && |text| * 3 / 4 <= maximum
    && (|text| % 4 == 2 ==> LastMasked(text, 15))
    && (|text| % 4 == 3 ==> LastMasked(text, 3))
  }

  /** The bytes a text stands for. */
  function Decoded(text: string): (bytes: seq<Byte>)
    requires AllUrl(text)
    ensures |bytes| == |text| * 3 / 4
  {
    var n := |text| * 3 / 4;
    BytesOf(TextBits(text)[..8 * n])
  }

  lemma LowBits(i: nat)
    requires i < 64
    ensures ((i as bv8) & 15 == 0) <==> i % 16 == 0
    ensures ((i as bv8) & 3 == 0) <==> i % 4 == 0
  {
  }

  lemma {:induction false} TextBitsLast(text: string)
    requires AllUrl(text) && text != ""
    ensures TextBits(text)[6 * |text| - 6..] == SixBits(IndexAt(text, |text| - 1))
  {
    hide SixBits;
    if |text| > 1 {
      TextBitsLast(text[1..]);
      assert TextBits(text)[6 * |text| - 6..] == TextBits(text[1..])[6 * |text| - 12..];
    } else {
      assert TextBits(text[1..]) == [];
    }
  }

  lemma LowSix(i: nat)
    requires i < 64
    ensures (i % 16 == 0 <==> !SixBits(i)[2] && !SixBits(i)[3] && !SixBits(i)[4] && !SixBits(i)[5])
    ensures (i % 4 == 0 <==> !SixBits(i)[4] && !SixBits(i)[5])
  {
    Unbinary(i);
  }

  /** The bits behind the last whole byte are zero exactly when the masked index is. */
  lemma RestBits(text: string)
    requires AllUrl(text) && |text| % 4 != 1
    ensures var n := |text| * 3 / 4;
      && 8 * n <= 6 * |text| < 8 * n + 6
      && ((forall i :: 8 * n <= i < 6 * |text| ==> !TextBits(text)[i]) <==>
          (|text| % 4 == 2 ==> LastMasked(text, 15)) && (|text| % 4 == 3 ==> LastMasked(text, 3)))
  {
    hide SixBits, LastMasked, IndexOf, AllUrl, TextBits;
    RestCount(|text|);
    if text != "" { RestOfLast(text, TextBits(text)); }
  }

  lemma MaskedBits(text: string)
    requires AllUrl(text) && text != ""
    ensures var last := SixBits(IndexAt(text, |text| - 1));
      && (LastMasked(text, 15) <==> !last[2] && !last[3] && !last[4] && !last[5])
      && (LastMasked(text, 3) <==> !last[4] && !last[5])
  {
    hide SixBits, IndexOf;
    LowBits(IndexAt(text, |text| - 1));
    LowSix(IndexAt(text, |text| - 1));
  }

  lemma RestOfLast(text: string, bits: seq<bool>)
    requires AllUrl(text) && text != "" && bits == TextBits(text)
    ensures LastMasked(text, 15) <==> forall i :: 6 * |text| - 4 <= i < 6 * |text| ==> !bits[i]
    ensures LastMasked(text, 3) <==> forall i :: 6 * |text| - 2 <= i < 6 * |text| ==> !bits[i]
  {
    hide SixBits, LastMasked, TextBits, IndexOf, AllUrl;
    TextBitsLast(text);
    MaskedBits(text);
    LastFour(bits, SixBits(IndexAt(text, |text| - 1)));
  }

  lemma LastFour(bits: seq<bool>, last: seq<bool>)
    requires |bits| >= 6 && |last| == 6 && bits[|bits| - 6..] == last
    ensures (!last[2] && !last[3] && !last[4] && !last[5]) <==> forall i :: |bits| - 4 <= i < |bits| ==> !bits[i]
    ensures (!last[4] && !last[5]) <==> forall i :: |bits| - 2 <= i < |bits| ==> !bits[i]
  {
    var end := |bits|;
    assert bits[end - 4] == last[2] && bits[end - 3] == last[3] && bits[end - 2] == last[4] && bits[end - 1] == last[5];
  }

  lemma RestCount(t: nat)
    requires t % 4 != 1
    ensures 6 * t - 8 * (t * 3 / 4) == if t % 4 == 2 then 4 else if t % 4 == 3 then 2 else 0
  {
    var k := t / 4;
    assert t == 4 * k + t % 4;
  }

  lemma TrimmedText(text: string, n: nat)
    requires AllUrl(text) && |URL| == 64 == Power(6)
    requires 8 * n <= 6 * |text| < 8 * n + 6 && forall i :: 8 * n <= i < 6 * |text| ==> !TextBits(text)[i]
    ensures Encode(TextBits(text)[..8 * n], 6, URL) == text
  {
    hide Encode, TextBits, IndexOf, Table, AllUrl, Power;
    var bits := TextBits(text);
    assert |bits| == 6 * |text|;
    EncodeText(text);
    EncodeTrim(bits, 8 * n);
  }

  /** A text that is accepted is the encoding of the bytes it stands for. */
  lemma ValidIsCanonical(text: string, maximum: nat)
    requires Valid(text, maximum)
    ensures Base64Url(Decoded(text)) == text && |Decoded(text)| <= maximum
  {
    hide IsAlphabet, Encode, TextBits, LastMasked, IndexOf, Table, AllUrl, Bits, BytesOf;
    IsBase64();
    RestBits(text);
    assert AllUrl(text) && |text| % 4 != 1 && |text| * 3 / 4 <= maximum;
    hide Valid, Decoded;
    var n := |text| * 3 / 4;
    DecodedBits(text, n);
    TrimmedText(text, n);
  }

  lemma DecodedBits(text: string, n: nat)
    requires AllUrl(text) && n == |text| * 3 / 4
    ensures 8 * n <= 6 * |text| && Bits(Decoded(text)) == TextBits(text)[..8 * n]
  {
    hide TextBits, Bits, BytesOf, AllUrl;
    BitsOfBytes(TextBits(text)[..8 * n]);
  }

  lemma EncodedCount(t: nat, n: nat)
    requires 6 * t >= 8 * n && (t > 0 ==> 6 * (t - 1) < 8 * n)
    ensures t * 3 / 4 == n && t % 4 != 1 && 3 * t <= 4 * n + 2
  {
    var k := t / 4;
    assert t == 4 * k + t % 4;
    assert 4 * n <= 3 * t < 4 * n + 3 || t == 0;
  }

  lemma BytesOfBits(bytes: seq<Byte>)
    ensures |Bits(bytes)| % 8 == 0 && BytesOf(Bits(bytes)) == bytes
  {
    BitsOfBytes(Bits(bytes));
    BitsInjective(BytesOf(Bits(bytes)), bytes);
  }

  lemma FirstBits(bits: seq<bool>, all: seq<bool>, n: nat)
    requires all == bits + Zeros(n)
    ensures all[..|bits|] == bits && forall i :: |bits| <= i < |all| ==> !all[i]
  {
  }

  /** The encoding of bytes within the limit is accepted, and stands for those bytes. */
  lemma EncodingIsValid(bytes: seq<Byte>, maximum: nat)
    requires |bytes| <= maximum
    ensures Valid(Base64Url(bytes), maximum) && Decoded(Base64Url(bytes)) == bytes
  {
    hide IsAlphabet, Encode, TextBits, LastMasked, IndexOf, Bits, BytesOf, Table, AllUrl, Zeros;
    var bits, text := Bits(bytes), Base64Url(bytes);
    IsBase64();
    EncodeLength(bits, 6, URL);
    EncodedCount(|text|, |bytes|);
    TextOfEncode(bits);
    FirstBits(bits, TextBits(text), 6 * |text| - |bits|);
    RestBits(text);
    BytesOfBits(bytes);
  }

  /** Validation accepts precisely the canonical encodings of at most `maximum` bytes (section 3.5 of RFC 4648). */
  lemma AcceptsExactlyCanonical(text: string, maximum: nat)
    ensures Valid(text, maximum) <==> exists bytes: seq<Byte> :: |bytes| <= maximum && Base64Url(bytes) == text
  {
    if Valid(text, maximum) { ValidIsCanonical(text, maximum); }
    if bytes: seq<Byte> :| |bytes| <= maximum && Base64Url(bytes) == text { EncodingIsValid(bytes, maximum); }
  }

  // ---------- decoding ----------

  function StandardChar(c: char): char { if c == '-' then '+' else if c == '_' then '/' else c }

  function ToStandard(s: string): string {
    if s == "" then "" else [StandardChar(s[0])] + ToStandard(s[1..])
  }

  /** The built-in `atob` on padded standard base64: the padding is dropped, and bits behind the last byte too. */
  function Atob(s: string): Option<seq<Byte>> {
    var body := StripPads(s);
    if |s| - |body| > 2 || |body| % 4 == 1 || !AllUrl(ToUrl(body)) then None else Some(Decoded(ToUrl(body)))
  }

  lemma {:induction false} ThereAndBack(text: string)
    requires AllUrl(text)
    ensures ToUrl(ToStandard(text)) == text && |ToStandard(text)| == |text|
    ensures forall i :: 0 <= i < |text| ==> ToStandard(text)[i] != '='
  {
    if text != "" {
      ThereAndBack(text[1..]);
      var s := ToStandard(text);
      assert s[1..] == ToStandard(text[1..]);
      assert IndexOf(text[0]).Some?;
      assert text == [text[0]] + text[1..];
    }
  }

  lemma AtobReads(text: string)
    requires AllUrl(text) && |text| % 4 != 1
    ensures Atob(ToStandard(text) + Pads((4 - |text| % 4) % 4)) == Some(Decoded(text))
  {
    hide ToUrl, ToStandard, StripPads, Decoded, AllUrl, Pads;
    var pads := (4 - |text| % 4) % 4;
    ThereAndBack(text);
    PadsStay(pads);
    PadsCount(pads);
    PadsStrip(ToStandard(text), Pads(pads));
    var s := ToStandard(text) + Pads(pads);
    assert StripPads(s) == ToStandard(text) && |s| - |ToStandard(text)| == pads <= 2;
  }

  lemma {:induction false} PadsCount(n: nat)
    ensures |Pads(n)| == n
  {
    if n > 0 { PadsCount(n - 1); }
  }

  /** `decodeBase64Url` */
  method DecodeBase64Url(text: string, maximum: nat) returns (bytes: Option<seq<Byte>>)
    ensures bytes == if Valid(text, maximum) then Some(Decoded(text)) else None
  {
    var length := ValidateBase64Url(text, maximum);
    if length.None? { return None; }
    AtobReads(text);
    var binary := Atob(ToStandard(text) + Pads((4 - |text| % 4) % 4));
    hide Atob, Decoded, Valid;
    var copy := new Byte[length.value];
    for index := 0 to length.value
      invariant copy[..index] == binary.value[..index]
    {
      copy[index] := binary.value[index];
    }
    assert copy[..] == binary.value;
    bytes := Some(copy[..]);
  }

  /** Decoding undoes encoding. */
  method RoundTrip(bytes: seq<Byte>, maximum: nat) returns (back: Option<seq<Byte>>)
    requires |bytes| <= maximum
    ensures back == Some(bytes)
  {
    var text := EncodeBase64Url(bytes);
    EncodingIsValid(bytes, maximum);
    back := DecodeBase64Url(text, maximum);
  }
}
