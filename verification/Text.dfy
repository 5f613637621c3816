/** Strings as JavaScript sees them, as far as the SQL printer and parser need: white space, case, splitting. */
module Text {
  /** White space of `\s` and `trim`. */
  predicate IsSpace(c: char) {
    || c == ' ' || ('\t' <= c <= '\r') || c == '\U{00A0}' || c == '\U{1680}' || ('\U{2000}' <= c <= '\U{200A}')
    || c == '\U{2028}' || c == '\U{2029}' || c == '\U{202F}' || c == '\U{205F}' || c == '\U{3000}' || c == '\U{FEFF}'
  }

  function TrimLeft(s: string): string {
    if s != "" && IsSpace(s[0]) then TrimLeft(s[1..]) else s
  }

  function TrimRight(s: string): string {
    if s != "" && IsSpace(s[|s| - 1]) then TrimRight(s[..|s| - 1]) else s
  }

  function Trim(s: string): string {
    TrimRight(TrimLeft(s))
  }

  predicate AllSpace(s: string) {
    forall i :: 0 <= i < |s| ==> IsSpace(s[i])
  }

  /** Neither the first nor the last character is white space. */
  predicate Tight(s: string) {
    s != "" && !IsSpace(s[0]) && !IsSpace(s[|s| - 1])
  }

  lemma {:induction false} TrimLeftSpace(space: string, s: string)
    requires AllSpace(space) && (s == "" || !IsSpace(s[0]))
    ensures TrimLeft(space + s) == s
  {
    if space == "" {
      assert space + s == s;
    } else {
      assert (space + s)[1..] == space[1..] + s;
      TrimLeftSpace(space[1..], s);
    }
  }

  lemma TrimTight(space: string, s: string)
    requires AllSpace(space) && Tight(s)
    ensures Trim(space + s) == s && Trim(s) == s
  {
    TrimLeftSpace(space, s);
    TrimLeftSpace("", s);
    assert "" + s == s;
  }

  lemma {:induction false} TrimAllSpace(s: string)
    requires AllSpace(s)
    ensures Trim(s) == "" && TrimLeft(s) == ""
  {
    TrimLeftSpace(s, "");
    assert s + "" == s;
  }

  function Lower(c: char): char {
    if 'A' <= c <= 'Z' then c - 'A' + 'a' else c
  }

  /** Does `s` begin with `pattern`, ignoring the case of ASCII letters? */
  predicate StartsFolded(s: string, pattern: string) {
    |s| >= |pattern| && forall i :: 0 <= i < |pattern| ==> Lower(s[i]) == Lower(pattern[i])
  }

  function TakeWhile(p: char -> bool, s: string): (r: string)
    ensures r <= s
  {
    if s != "" && p(s[0]) then [s[0]] + TakeWhile(p, s[1..]) else ""
  }

  lemma {:induction false} TakeWhileStops(p: char -> bool, a: string, b: string)
    requires (forall i :: 0 <= i < |a| ==> p(a[i])) && (b == "" || !p(b[0]))
    ensures TakeWhile(p, a + b) == a
  {
    if a == "" {
      assert a + b == b;
    } else {
      assert (a + b)[1..] == a[1..] + b;
      TakeWhileStops(p, a[1..], b);
    }
  }

  function NotComma(c: char): bool { c != ',' }

  /** `s.split(',')` */
  function SplitCommas(s: string): (r: seq<string>)
    decreases |s|
  {
    var first := TakeWhile(NotComma, s);
    if |first| == |s| then [s] else [first] + SplitCommas(s[|first| + 1..])
  }

  function JoinCommas(parts: seq<string>): string {
    if parts == [] then "" else if |parts| == 1 then parts[0] else parts[0] + "," + JoinCommas(parts[1..])
  }

  lemma SplitOne(part: string)
    requires ',' !in part
    ensures SplitCommas(part) == [part]
  {
    AllNotComma(part);
    TakeWhileStops(NotComma, part, "");
    assert part + "" == part;
  }

  lemma SplitMore(part: string, rest: string)
    requires ',' !in part
    ensures SplitCommas(part + "," + rest) == [part] + SplitCommas(rest)
  {
    AllNotComma(part);
    var s := part + "," + rest;
    assert s == part + ("," + rest);
    TakeWhileStops(NotComma, part, "," + rest);
    assert s[|part| + 1..] == rest;
  }

  lemma AllNotComma(part: string)
    requires ',' !in part
    ensures forall i :: 0 <= i < |part| ==> NotComma(part[i])
  {
    forall i | 0 <= i < |part| ensures NotComma(part[i]) { assert part[i] in part; }
  }

  lemma {:induction false} SplitJoined(parts: seq<string>)
    requires parts != [] && forall i :: 0 <= i < |parts| ==> ',' !in parts[i]
    ensures SplitCommas(JoinCommas(parts)) == parts
  {
    if |parts| == 1 {
      SplitOne(parts[0]);
    } else {
      SplitJoined(parts[1..]);
      SplitMore(parts[0], JoinCommas(parts[1..]));
    }
  }

  // ---------- integers ----------

  predicate IsDigit(c: char) { '0' <= c <= '9' }

  function DigitChar(d: nat): (c: char)
    requires d < 10
    ensures IsDigit(c)
  {
    '0' + d as char
  }

  function NatText(n: nat): (s: string)
    ensures s != "" && forall i :: 0 <= i < |s| ==> IsDigit(s[i])
  {
    if n < 10 then [DigitChar(n)] else NatText(n / 10) + [DigitChar(n % 10)]
  }

  function NatValue(s: string): nat
    requires forall i :: 0 <= i < |s| ==> IsDigit(s[i])
  {
    if s == "" then 0
    else
      var last := s[|s| - 1];
      assert IsDigit(last);
      NatValue(s[..|s| - 1]) * 10 + (last as int - '0' as int)
  }

  lemma {:induction false} NatRoundTrip(n: nat)
    ensures NatValue(NatText(n)) == n
  {
    if n < 10 {
      assert NatText(n)[..0] == "";
    } else {
      NatRoundTrip(n / 10);
      var s := NatText(n);
      assert s[..|s| - 1] == NatText(n / 10);
    }
  }

  function IntText(n: int): string {
    if n < 0 then "-" + NatText(-n) else NatText(n)
  }

  function Digits(s: string): string {
    if s != "" && s[0] == '-' then s[1..] else s
  }

  predicate IsIntText(s: string) {
    var digits := Digits(s);
    digits != "" && forall i :: 0 <= i < |digits| ==> IsDigit(digits[i])
  }

  function IntValue(s: string): int
    requires IsIntText(s)
  {
    var n: int := NatValue(Digits(s));
    if s != Digits(s) then -n else n
  }

  lemma IntRoundTrip(n: int)
    ensures IsIntText(IntText(n)) && IntValue(IntText(n)) == n
  {
    if n < 0 {
      NatRoundTrip(-n);
      assert IntText(n)[1..] == NatText(-n);
    } else {
      NatRoundTrip(n);
      assert IsDigit(IntText(n)[0]);
    }
  }

  // ---------- lengths ----------

  /** The UTF-16 code units of a character, and of a string (`length`). */
  function CharUnits(c: char): nat { if c as int < 0x10000 then 1 else 2 }

  function Units(s: string): (n: nat)
    ensures n >= |s|
  {
    if s == "" then 0 else CharUnits(s[0]) + Units(s[1..])
  }

  /** The bytes of a character in UTF-8, and of a string (`new TextEncoder().encode(s).length`). */
  function CharBytes(c: char): nat {
    if c as int < 0x80 then 1 else if c as int < 0x800 then 2 else if c as int < 0x10000 then 3 else 4
  }

  function Utf8Length(s: string): (n: nat)
    ensures n >= |s|
  {
    if s == "" then 0 else CharBytes(s[0]) + Utf8Length(s[1..])
  }

  lemma {:induction false} UnitsConcat(a: string, b: string)
    ensures Units(a + b) == Units(a) + Units(b)
  {
    if a == "" {
      assert a + b == b;
    } else {
      assert (a + b)[1..] == a[1..] + b;
      UnitsConcat(a[1..], b);
    }
  }

}
