/**
 What `JSON.stringify` writes for strings and arrays of strings (section 25.5.2 of ECMA-262), and a reader of that
 text (section 7 of RFC 8259): the byte counts of JsonBytes.dfy are those of texts that read back.
 */
module JsonText {
  import opened Common
  import opened JsonBytes
  import C = CodePoints
  import N = NotificationDisplay
  import K = BucketClear

  type Text = seq<Point>

  const QUOTE: Point := 0x22
  const BACKSLASH: Point := 0x5C
  const COMMA: Point := 0x2C

  /** A text of the source, point by point. */
  function Points(s: string): Text { seq(|s|, i requires 0 <= i < |s| => s[i] as int) }

  // ---------- writing ----------

  /** A hexadecimal digit in lower case. */
  function HexDigit(d: nat): Point
    requires d < 16
  {
    if d < 10 then 0x30 + d else 0x61 + d - 10
  }

  function UnicodeEscape(p: Point): Text
    requires p < 0x10000
  {
    [BACKSLASH, 0x75, HexDigit(p / 0x1000), HexDigit(p / 0x100 % 0x10), HexDigit(p / 0x10 % 0x10), HexDigit(p % 0x10)]
  }

  /** The letter of a two-character escape. */
  function ShortEscape(p: Point): Option<Point> {
    if p == QUOTE || p == BACKSLASH then Some(p)
    else if p == 8 then Some(0x62)
    else if p == 9 then Some(0x74)
    else if p == 10 then Some(0x6E)
    else if p == 12 then Some(0x66)
    else if p == 13 then Some(0x72)
    else None
  }

  predicate IsSurrogate(p: Point) { 0xD800 <= p < 0xE000 }

  function Quoted(p: Point): (r: Text)
    ensures r != []
  {
    if ShortEscape(p).Some? then [BACKSLASH, ShortEscape(p).value]
    else if p < 0x20 || IsSurrogate(p) then UnicodeEscape(p)
    else [p]
  }

  function QuotedAll(s: Text): Text {
    if s == [] then [] else QuotedAll(s[..|s| - 1]) + Quoted(s[|s| - 1])
  }

  function StringText(s: Text): Text { [QUOTE] + QuotedAll(s) + [QUOTE] }

  /** The strings of an array, with commas between them. */
  function Listed(strings: seq<Text>): Text {
    if strings == [] then []
    else Listed(strings[..|strings| - 1]) + (if |strings| > 1 then [COMMA] else [])
         + StringText(strings[|strings| - 1])
  }

  function ArrayText(strings: seq<Text>): Text { [0x5B] + Listed(strings) + [0x5D] }

  function DisplayText(d: N.Display): Text {
    Points("{\"title\":") + StringText(d.title) + (Points(",\"body\":") + StringText(d.body) + Points("}"))
  }

  // ---------- reading ----------

  function HexValue(c: Point): Option<nat> {
    if 0x30 <= c <= 0x39 then Some(c - 0x30)
    else if 0x61 <= c <= 0x66 then Some(c - 0x61 + 10)
    else if 0x41 <= c <= 0x46 then Some(c - 0x41 + 10)
    else None
  }

  function ReadHex(t: Text): Option<nat>
    requires |t| == 4
  {
    var a, b, c, d := HexValue(t[0]), HexValue(t[1]), HexValue(t[2]), HexValue(t[3]);
    if a.None? || b.None? || c.None? || d.None? then None
    else Some(((a.value * 16 + b.value) * 16 + c.value) * 16 + d.value)
  }

  /** The character that a letter behind a backslash stands for. */
  function Unescaped(c: Point): Option<Point> {
    if c == QUOTE || c == BACKSLASH || c == 0x2F then Some(c)
    else if c == 0x62 then Some(8)
    else if c == 0x66 then Some(12)
    else if c == 0x6E then Some(10)
    else if c == 0x72 then Some(13)
    else if c == 0x74 then Some(9)
    else None
  }

  /** One character of a string literal, and how long its text is. */
  function ReadPoint(t: Text): (r: Option<(Point, nat)>)
    ensures r.Some? ==> 0 < r.value.1 <= |t|
  {
    if t == [] || t[0] == QUOTE || t[0] < 0x20 then None
    else if t[0] != BACKSLASH then Some((t[0], 1))
    else if |t| >= 6 && t[1] == 0x75 then
      var value := ReadHex(t[2..6]);
      if value.Some? && value.value < 0x10000 then Some((value.value, 6)) else None
    else if |t| >= 2 && Unescaped(t[1]).Some? then Some((Unescaped(t[1]).value, 2))
    else None
  }

  /** The characters up to the closing quote, and what follows it. */
  function ReadPoints(t: Text): (r: Option<(Text, Text)>)
    ensures r.Some? ==> |r.value.1| < |t|
    decreases |t|
  {
    if t != [] && t[0] == QUOTE then Some(([], t[1..])) else
    var first := ReadPoint(t);
    if first.None? then None else
    var rest := ReadPoints(t[first.value.1..]);
    if rest.None? then None else Some(([first.value.0] + rest.value.0, rest.value.1))
  }

  function ReadString(t: Text): (r: Option<(Text, Text)>)
    ensures r.Some? ==> |r.value.1| < |t|
  {
    if t != [] && t[0] == QUOTE then ReadPoints(t[1..]) else None
  }

  function ReadStrings(t: Text): (r: Option<(seq<Text>, Text)>)
    decreases |t|, 0
  {
    var first := ReadString(t);
    if first.None? then None else
    var rest := ReadMore(first.value.1);
    if rest.None? then None else Some(([first.value.0] + rest.value.0, rest.value.1))
  }

  /** What follows a string of an array: another one, or the end. */
  function ReadMore(t: Text): Option<(seq<Text>, Text)>
    decreases |t|, 1
  {
    if t != [] && t[0] == 0x5D then Some(([], t[1..]))
    else if t != [] && t[0] == COMMA then ReadStrings(t[1..])
    else None
  }

  function ReadArray(t: Text): Option<seq<Text>> {
    if t == [] || t[0] != 0x5B then None
    else if t[1..] == [0x5D] then Some([])
    else
      var all := ReadStrings(t[1..]);
      if all.None? || all.value.1 != [] then None else Some(all.value.0)
  }

  function ReadTitle(t: Text): Option<(Text, Text)> {
    var head := Points("{\"title\":");
    if head <= t then ReadString(t[|head|..]) else None
  }

  function ReadBody(t: Text): Option<(Text, Text)> {
    var head := Points(",\"body\":");
    if head <= t then ReadString(t[|head|..]) else None
  }

  function ReadDisplay(t: Text): Option<N.Display> {
    var title := ReadTitle(t);
    if title.None? then None else
    var body := ReadBody(title.value.1);
    if body.None? || body.value.1 != Points("}") then None else Some(N.Display(title.value.0, body.value.0))
  }

  // ---------- what is written reads back ----------

  lemma HexDigitReads(d: nat)
    requires d < 16
    ensures HexValue(HexDigit(d)) == Some(d)
  {
  }

  lemma HexSum(p: Point)
    ensures p == ((p / 0x1000 * 16 + p / 0x100 % 0x10) * 16 + p / 0x10 % 0x10) * 16 + p % 0x10
  {
    var tens: nat := p / 0x10;
    var hundreds: nat := p / 0x100;
    assert hundreds == tens / 0x10 && p / 0x1000 == hundreds / 0x10;
  }

  lemma HexReads(p: Point)
    requires p < 0x10000
    ensures ReadHex(UnicodeEscape(p)[2..6]) == Some(p)
  {
    HexDigitReads(p / 0x1000);
    HexDigitReads(p / 0x100 % 0x10);
    HexDigitReads(p / 0x10 % 0x10);
    HexDigitReads(p % 0x10);
    HexSum(p);
    hide HexValue, HexDigit;
  }

  lemma QuotedReads(p: Point, rest: Text)
    ensures ReadPoint(Quoted(p) + rest) == Some((p, |Quoted(p)|))
  {
    if ShortEscape(p).None? && (p < 0x20 || IsSurrogate(p)) {
      HexReads(p);
      assert (Quoted(p) + rest)[2..6] == UnicodeEscape(p)[2..6];
      hide ReadHex;
    }
  }

  /** A quoted character in front of a text is read first. */
  lemma ReadsFirst(p: Point, t: Text)
    requires ReadPoints(t).Some?
    ensures ReadPoints(Quoted(p) + t) == Some(([p] + ReadPoints(t).value.0, ReadPoints(t).value.1))
  {
    QuotedReads(p, t);
    assert (Quoted(p) + t)[|Quoted(p)|..] == t;
    assert (Quoted(p) + t)[0] == Quoted(p)[0] != QUOTE;
    hide Quoted, ReadPoint;
  }

  lemma {:induction false} PointsRead(s: Text, t: Text)
    requires ReadPoints(t).Some?
    ensures ReadPoints(QuotedAll(s) + t) == Some((s + ReadPoints(t).value.0, ReadPoints(t).value.1))
  {
    hide ReadPoints, Quoted;
    if s == [] {
      assert QuotedAll(s) + t == t;
      assert s + ReadPoints(t).value.0 == ReadPoints(t).value.0;
    } else {
      var front, last := s[..|s| - 1], s[|s| - 1];
      ReadsFirst(last, t);
      PointsRead(front, Quoted(last) + t);
      assert QuotedAll(s) + t == QuotedAll(front) + (Quoted(last) + t);
      assert s + ReadPoints(t).value.0 == front + ([last] + ReadPoints(t).value.0);
    }
  }

  lemma ReadsEnd(rest: Text)
    ensures ReadPoints([QUOTE] + rest) == Some(([], rest))
  {
    assert ([QUOTE] + rest)[1..] == rest;
  }

  /** Every string, unpaired surrogates and all, reads back from its literal, whatever follows. */
  lemma StringReads(s: Text, rest: Text)
    ensures ReadString(StringText(s) + rest) == Some((s, rest))
  {
    hide ReadPoints, QuotedAll;
    var t := [QUOTE] + rest;
    ReadsEnd(rest);
    PointsRead(s, t);
    assert (StringText(s) + rest)[1..] == QuotedAll(s) + t;
    assert s + [] == s;
  }

  lemma {:induction false} ListedReads(strings: seq<Text>, t: Text)
    requires strings != [] && ReadMore(t).Some?
    ensures ReadStrings(Listed(strings) + t) == Some((strings + ReadMore(t).value.0, ReadMore(t).value.1))
  {
    hide ReadString, StringText, ReadMore;
    var front, last := strings[..|strings| - 1], strings[|strings| - 1];
    StringReads(last, t);
    if front == [] {
      assert Listed(strings) + t == StringText(last) + t;
      assert strings + ReadMore(t).value.0 == [last] + ReadMore(t).value.0;
    } else {
      var behind := [COMMA] + (StringText(last) + t);
      CommaReads(StringText(last) + t);
      ListedReads(front, behind);
      assert Listed(strings) + t == Listed(front) + behind;
      assert strings + ReadMore(t).value.0 == front + ([last] + ReadMore(t).value.0);
    }
  }

  lemma CommaReads(t: Text)
    ensures ReadMore([COMMA] + t) == ReadStrings(t)
  {
    assert ([COMMA] + t)[1..] == t;
  }

  lemma {:induction false} ListedStart(strings: seq<Text>)
    requires strings != []
    ensures Listed(strings) != [] && Listed(strings)[0] == QUOTE
  {
    if |strings| > 1 { ListedStart(strings[..|strings| - 1]); }
  }

  /** An array of strings reads back from its text. */
  lemma ArrayReads(strings: seq<Text>)
    ensures ReadArray(ArrayText(strings)) == Some(strings)
  {
    hide ReadStrings, StringText;
    var end: Text := [0x5D];
    assert end[1..] == [];
    if strings != [] {
      ListedStart(strings);
      ListedReads(strings, end);
      assert ArrayText(strings)[1..] == Listed(strings) + end;
      assert strings + [] == strings;
    }
  }

  /** A display reads back from its text. */
  lemma DisplayReads(d: N.Display)
    ensures ReadDisplay(DisplayText(d)) == Some(d)
  {
    var head, neck, tail := Points("{\"title\":"), Points(",\"body\":"), Points("}");
    var behind := neck + StringText(d.body) + tail;
    StringReads(d.title, behind);
    StringReads(d.body, tail);
    hide ReadString, StringText, Points;
    assert DisplayText(d)[|head|..] == StringText(d.title) + behind;
    assert behind[|neck|..] == StringText(d.body) + tail;
  }

  // ---------- the byte counts ----------

  /** What `TextEncoder` encodes: a scalar value, or the replacement character for an unpaired surrogate. */
  function Encodable(p: Point): C.Scalar { if IsSurrogate(p) then 0xFFFD else p }

  /** The encoding of a text is as long as its points say. */
  lemma {:induction false} Utf8BytesCount(s: Text)
    ensures |EncodedText(s)| == Utf8Bytes(s)
  {
    if s != [] { Utf8BytesCount(s[..|s| - 1]); }
  }

  function EncodedText(s: Text): seq<int> {
    if s == [] then [] else EncodedText(s[..|s| - 1]) + C.Utf8Of(Encodable(s[|s| - 1]))
  }

  lemma {:induction false} Utf8BytesConcat(a: Text, b: Text)
    ensures Utf8Bytes(a + b) == Utf8Bytes(a) + Utf8Bytes(b)
  {
    if b == [] {
      assert a + b == a;
    } else {
      Utf8BytesConcat(a, b[..|b| - 1]);
      assert (a + b)[..|a + b| - 1] == a + b[..|b| - 1];
    }
  }

  lemma AsciiBytes(s: Text)
    requires forall i :: 0 <= i < |s| ==> s[i] < 0x80
    ensures Utf8Bytes(s) == |s|
  {
    if s != [] { AsciiBytes(s[..|s| - 1]); }
  }

  lemma QuotedBytes(p: Point)
    ensures Utf8Bytes(Quoted(p)) == EscapedBytes(p)
  {
    if ShortEscape(p).Some? || p < 0x20 || IsSurrogate(p) {
      AsciiBytes(Quoted(p));
    } else {
      assert Quoted(p)[..0] == [];
    }
  }

  lemma {:induction false} EscapedIsLength(s: Text)
    ensures Escaped(s) == Utf8Bytes(QuotedAll(s))
  {
    if s != [] {
      EscapedIsLength(s[..|s| - 1]);
      QuotedBytes(s[|s| - 1]);
      Utf8BytesConcat(QuotedAll(s[..|s| - 1]), Quoted(s[|s| - 1]));
      hide Utf8Bytes, Quoted;
    }
  }

  /** `StringBytes` counts the bytes of a string literal. */
  lemma StringBytesCount(s: Text)
    ensures StringBytes(s) == Utf8Bytes(StringText(s))
  {
    EscapedIsLength(s);
    AsciiBytes([QUOTE]);
    Utf8BytesConcat([QUOTE] + QuotedAll(s), [QUOTE]);
    Utf8BytesConcat([QUOTE], QuotedAll(s));
    hide Utf8Bytes, QuotedAll, Escaped;
  }

  lemma {:induction false} ListedBytes(strings: seq<Text>)
    ensures ArrayBytes(strings) == 2 + Utf8Bytes(Listed(strings))
  {
    if strings != [] {
      var front, last := strings[..|strings| - 1], strings[|strings| - 1];
      ListedBytes(front);
      StringBytesCount(last);
      var comma := if |strings| > 1 then [COMMA] else [];
      AsciiBytes(comma);
      Utf8BytesConcat(Listed(front) + comma, StringText(last));
      Utf8BytesConcat(Listed(front), comma);
      hide Utf8Bytes, StringText, StringBytes;
    }
  }

  /** `ArrayBytes` counts the bytes of an array of strings. */
  lemma ArrayBytesCount(strings: seq<Text>)
    ensures ArrayBytes(strings) == Utf8Bytes(ArrayText(strings))
  {
    ListedBytes(strings);
    AsciiBytes([0x5B]);
    AsciiBytes([0x5D]);
    Utf8BytesConcat([0x5B] + Listed(strings), [0x5D]);
    Utf8BytesConcat([0x5B], Listed(strings));
    hide Utf8Bytes, Listed, ArrayBytes;
  }

  /** A batch of keys arrives: its text is within the limit that the Worker reads, and says exactly its keys. */
  lemma BatchArrives(keys: seq<K.Key>)
    requires K.Acceptable(keys)
    ensures Utf8Bytes(ArrayText(keys)) <= K.MAX_BYTES && ReadArray(ArrayText(keys)) == Some(keys)
  {
    ArrayReads(keys);
    ArrayBytesCount(keys);
    hide ReadArray, ArrayText, Utf8Bytes, ArrayBytes;
  }

  /** `DisplayBytes` counts the bytes of a display. */
  lemma DisplayBytesCount(d: N.Display)
    ensures N.DisplayBytes(d) == Utf8Bytes(DisplayText(d))
  {
    var head, neck, tail := Points("{\"title\":"), Points(",\"body\":"), Points("}");
    AsciiBytes(head);
    AsciiBytes(neck);
    AsciiBytes(tail);
    StringBytesCount(d.title);
    StringBytesCount(d.body);
    var behind := neck + StringText(d.body) + tail;
    Utf8BytesConcat(head + StringText(d.title), behind);
    Utf8BytesConcat(head, StringText(d.title));
    Utf8BytesConcat(neck + StringText(d.body), tail);
    Utf8BytesConcat(neck, StringText(d.body));
    hide Utf8Bytes, StringText, Escaped;
  }
}
