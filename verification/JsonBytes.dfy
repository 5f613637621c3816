/** Byte lengths of strings, plain in UTF-8 and as JSON string literals. */
module JsonBytes {
  /** A code point of a JavaScript string; surrogate code points stand for unpaired surrogates. */
  type Point = p: int | 0 <= p < 0x110000 witness 0

  /** UTF-8 length; an unpaired surrogate is encoded as the replacement character. */
  function PointBytes(p: Point): (n: nat)
    ensures 1 <= n <= 4
  {
    if p < 0x80 then 1 else if p < 0x800 then 2 else if p < 0x10000 then 3 else 4
  }

  /** Length inside a JSON string literal, as `JSON.stringify` escapes it. */
  function EscapedBytes(p: Point): (n: nat)
    ensures 1 <= n <= 6 * PointBytes(p)
  {
    if p == 0x22 || p == 0x5C || p == 8 || p == 9 || p == 10 || p == 12 || p == 13 then 2
    else if p < 0x20 || 0xD800 <= p < 0xE000 then 6
    else PointBytes(p)
  }

  function Utf8Bytes(s: seq<Point>): (n: nat)
    ensures n >= |s|
  {
    if s == [] then 0 else Utf8Bytes(s[..|s| - 1]) + PointBytes(s[|s| - 1])
  }

  function Escaped(s: seq<Point>): (n: nat)
    ensures n >= |s|
  {
    if s == [] then 0 else Escaped(s[..|s| - 1]) + EscapedBytes(s[|s| - 1])
  }

  /** Escaping makes a string at most six times as long. */
  lemma {:induction false} EscapedBound(s: seq<Point>)
    ensures Escaped(s) <= 6 * Utf8Bytes(s)
  {
    if s != [] { EscapedBound(s[..|s| - 1]); }
  }

  /** A string of its own, with its quotes. */
  function StringBytes(s: seq<Point>): (n: nat)
    ensures n >= 2
  {
    2 + Escaped(s)
  }

  /** An array of strings: brackets, and a comma between neighbours. */
  function ArrayBytes(strings: seq<seq<Point>>): (n: nat)
    ensures n >= 2
  {
    if strings == [] then 2
    else ArrayBytes(strings[..|strings| - 1]) + StringBytes(strings[|strings| - 1]) + if |strings| > 1 then 1 else 0
  }
}
