/**
 Comparing strings of UTF-16 code units by code point (`compareCodePoints` in portable-path.ts), against the
 byte order of UTF-8 (section 3 of RFC 3629) of what the units encode (section 2.1 of RFC 2781).
 */
module CodePoints {
  type Unit = u: int | 0 <= u < 0x10000 witness 0
  /** A Unicode scalar value: a code point that is no surrogate. */
  type Scalar = c: int | 0 <= c < 0xD800 || 0xE000 <= c < 0x110000 witness 0

  // ---------- the comparison ----------

  /** Lifts surrogates above every other unit. */
  function Rank(u: Unit): int {
    if u >= 0xE000 then u - 0x800 else if u >= 0xD800 then u + 0x2000 else u
  }

  /** Lexicographic order by a rank; a proper prefix comes first. */
  function Compare(a: seq<Unit>, b: seq<Unit>): int
    decreases |a|
  {
    if a == [] || b == [] then |a| - |b|
    else if a[0] == b[0] then Compare(a[1..], b[1..])
    else Rank(a[0]) - Rank(b[0])
  }

  lemma {:induction false} CompareFrom(a: seq<Unit>, b: seq<Unit>, n: nat)
    requires n <= |a| && n <= |b| && a[..n] == b[..n]
    ensures Compare(a, b) == Compare(a[n..], b[n..])
  {
    if n > 0 {
      assert a[0] == a[..n][0] && b[0] == b[..n][0];
      assert a[1..][..n - 1] == a[..n][1..] && b[1..][..n - 1] == b[..n][1..];
      CompareFrom(a[1..], b[1..], n - 1);
      assert a[1..][n - 1..] == a[n..] && b[1..][n - 1..] == b[n..];
    }
  }

  method CompareCodePoints(a: seq<Unit>, b: seq<Unit>) returns (order: int)
    ensures order == Compare(a, b)
  {
    var index := 0;
    while index < (if |a| < |b| then |a| else |b|)
      invariant index <= |a| && index <= |b| && a[..index] == b[..index]
    {
      var left, right := a[index], b[index];
      if left != right {
        CompareFrom(a, b, index);
        return Rank(left) - Rank(right);
      }
      assert a[..index + 1] == a[..index] + [left] && b[..index + 1] == b[..index] + [right];
      index := index + 1;
    }
    CompareFrom(a, b, index);
    order := |a| - |b|;
  }

  // ---------- a total order on all unit strings ----------

  lemma {:induction false} CompareReverses(a: seq<Unit>, b: seq<Unit>)
    ensures Compare(a, b) == -Compare(b, a)
    decreases |a|
  {
    if a != [] && b != [] && a[0] == b[0] { CompareReverses(a[1..], b[1..]); }
  }

  lemma {:induction false} CompareEqual(a: seq<Unit>, b: seq<Unit>)
    ensures Compare(a, b) == 0 <==> a == b
    decreases |a|
  {
    if a != [] && b != [] && a[0] == b[0] {
      CompareEqual(a[1..], b[1..]);
      assert a == [a[0]] + a[1..] && b == [b[0]] + b[1..];
    }
  }

  /** With `CompareReverses` and `CompareEqual`, a total order, on ill-formed strings too. */
  lemma {:induction false} CompareTransitive(a: seq<Unit>, b: seq<Unit>, c: seq<Unit>)
    requires Compare(a, b) <= 0 && Compare(b, c) <= 0
    ensures Compare(a, c) <= 0
    decreases |a|
  {
    if a != [] && b != [] && c != [] && a[0] == b[0] == c[0] { CompareTransitive(a[1..], b[1..], c[1..]); }
  }

  // ---------- UTF-16 and UTF-8 ----------

  /** UTF-16 of one scalar value (section 2.1 of RFC 2781). */
  function Utf16Of(c: Scalar): seq<Unit> {
    if c < 0x10000 then [c]
    else [0xD800 + (c - 0x10000) / 0x400, 0xDC00 + (c - 0x10000) % 0x400]
  }

  /** UTF-8 of one scalar value (section 3 of RFC 3629). */
  function Utf8Of(c: Scalar): seq<int> {
    if c < 0x80 then [c]
    else if c < 0x800 then [0xC0 + c / 0x40, 0x80 + c % 0x40]
    else if c < 0x10000 then [0xE0 + c / 0x1000, 0x80 + c / 0x40 % 0x40, 0x80 + c % 0x40]
    else [0xF0 + c / 0x40000, 0x80 + c / 0x1000 % 0x40, 0x80 + c / 0x40 % 0x40, 0x80 + c % 0x40]
  }

  function Utf16(s: seq<Scalar>): seq<Unit> {
    if s == [] then [] else Utf16Of(s[0]) + Utf16(s[1..])
  }

  function Utf8(s: seq<Scalar>): seq<int> {
    if s == [] then [] else Utf8Of(s[0]) + Utf8(s[1..])
  }

  predicate IsHigh(u: Unit) { 0xD800 <= u < 0xDC00 }
  predicate IsLow(u: Unit) { 0xDC00 <= u < 0xE000 }

  /** Surrogates come in pairs, high before low. */
  predicate WellFormed(u: seq<Unit>)
    decreases |u|
  {
    u == [] ||
    if IsHigh(u[0]) then |u| > 1 && IsLow(u[1]) && WellFormed(u[2..])
    else !IsLow(u[0]) && WellFormed(u[1..])
  }

  /** The scalar values that well-formed units encode. */
  function Scalars(u: seq<Unit>): (s: seq<Scalar>)
    requires WellFormed(u)
    ensures Utf16(s) == u
    decreases |u|
  {
    if u == [] then []
    else if IsHigh(u[0]) then
      var c: Scalar := 0x10000 + (u[0] as int - 0xD800) * 0x400 + (u[1] as int - 0xDC00);
      assert Utf16Of(c) == [u[0], u[1]];
      var s := Scalars(u[2..]);
      assert ([c] + s)[1..] == s;
      [c] + s
    else
      var s := Scalars(u[1..]);
      assert ([u[0] as Scalar] + s)[1..] == s;
      [u[0] as Scalar] + s
  }

  // ---------- byte order ----------

  function CompareBytes(a: seq<int>, b: seq<int>): int
    decreases |a|
  {
    if a == [] || b == [] then |a| - |b|
    else if a[0] == b[0] then CompareBytes(a[1..], b[1..])
    else a[0] - b[0]
  }

  function Sign(x: int): int { if x < 0 then -1 else if x > 0 then 1 else 0 }

  lemma {:induction false} BytesPrefix(p: seq<int>, a: seq<int>, b: seq<int>)
    ensures CompareBytes(p + a, p + b) == CompareBytes(a, b)
    decreases |p|
  {
    if p == [] {
      assert p + a == a && p + b == b;
    } else {
      assert (p + a)[1..] == p[1..] + a && (p + b)[1..] == p[1..] + b;
      BytesPrefix(p[1..], a, b);
    }
  }

  lemma UnitsPrefix(p: seq<Unit>, a: seq<Unit>, b: seq<Unit>)
    ensures Compare(p + a, p + b) == Compare(a, b)
  {
    CompareFrom(p + a, p + b, |p|);
    assert (p + a)[|p|..] == a && (p + b)[|p|..] == b;
  }

  /** The first place where two encodings differ decides, and it lies within both. */
  predicate Before(a: seq<int>, b: seq<int>, k: nat) {
    k < |a| && k < |b| && a[..k] == b[..k] && a[k] < b[k]
  }

  lemma BeforeDecides(a: seq<int>, b: seq<int>, k: nat, x: seq<int>, y: seq<int>)
    requires Before(a, b, k)
    ensures CompareBytes(a + x, b + y) < 0
  {
    assert a + x == a[..k] + (a[k..] + x) && b + y == a[..k] + (b[k..] + y);
    BytesPrefix(a[..k], a[k..] + x, b[k..] + y);
    assert (a[k..] + x)[0] == a[k] && (b[k..] + y)[0] == b[k];
  }

  lemma Digits(c: int, d: int)
    requires 0 <= c < d
    ensures c / 0x40 < d / 0x40 || (c / 0x40 == d / 0x40 && c % 0x40 < d % 0x40)
  {
  }

  lemma Nested(c: int)
    requires 0 <= c
    ensures c / 0x1000 == c / 0x40 / 0x40 && c / 0x40000 == c / 0x1000 / 0x40
  {
  }

  /** Encodings of different length differ in their first byte already. */
  lemma LengthOrders(c: Scalar, d: Scalar)
    requires c < d && |Utf8Of(c)| != |Utf8Of(d)|
    ensures Utf8Of(c)[0] < Utf8Of(d)[0]
  {
  }

  /** UTF-8 keeps the order of scalar values. */
  lemma Utf8Orders(c: Scalar, d: Scalar) returns (k: nat)
    requires c < d
    ensures Before(Utf8Of(c), Utf8Of(d), k)
  {
    var a, b := Utf8Of(c), Utf8Of(d);
    if |a| != |b| {
      LengthOrders(c, d);
      k := 0;
    } else if |a| == 1 {
      k := 0;
    } else if |a| == 2 {
      Digits(c, d);
      k := if a[0] < b[0] then 0 else 1;
    } else if |a| == 3 {
      k := ThreeOrders(c, d);
    } else {
      k := FourOrders(c, d);
    }
  }

  lemma ThreeOrders(c: Scalar, d: Scalar) returns (k: nat)
    requires 0x800 <= c < d < 0x10000
    ensures Before(Utf8Of(c), Utf8Of(d), k)
  {
    Nested(c);
    Nested(d);
    Digits(c, d);
    if c / 0x40 == d / 0x40 {
      k := 2;
    } else {
      Digits(c / 0x40, d / 0x40);
      k := if c / 0x1000 < d / 0x1000 then 0 else 1;
    }
  }

  lemma FourOrders(c: Scalar, d: Scalar) returns (k: nat)
    requires 0x10000 <= c < d
    ensures Before(Utf8Of(c), Utf8Of(d), k)
  {
    Nested(c);
    Nested(d);
    Digits(c, d);
    if c / 0x40 == d / 0x40 {
      k := 3;
    } else {
      Digits(c / 0x40, d / 0x40);
      if c / 0x1000 == d / 0x1000 {
        k := 2;
      } else {
        Digits(c / 0x1000, d / 0x1000);
        k := if c / 0x40000 < d / 0x40000 then 0 else 1;
      }
    }
  }

  /** Ranked UTF-16 keeps it too. */
  lemma Utf16Orders(c: Scalar, d: Scalar, x: seq<Unit>, y: seq<Unit>)
    requires c < d
    ensures Compare(Utf16Of(c) + x, Utf16Of(d) + y) < 0
  {
    var a, b := Utf16Of(c) + x, Utf16Of(d) + y;
    if a[0] == b[0] {
      assert a[1..] == [Utf16Of(c)[1]] + x && b[1..] == [Utf16Of(d)[1]] + y;
      assert Utf16Of(c)[1] < Utf16Of(d)[1];
    }
  }

  lemma FirstDecides(s: seq<Scalar>, t: seq<Scalar>)
    requires s != [] && t != [] && s[0] < t[0]
    ensures Compare(Utf16(s), Utf16(t)) < 0 && CompareBytes(Utf8(s), Utf8(t)) < 0
  {
    Utf16Orders(s[0], t[0], Utf16(s[1..]), Utf16(t[1..]));
    var k := Utf8Orders(s[0], t[0]);
    BeforeDecides(Utf8Of(s[0]), Utf8Of(t[0]), k, Utf8(s[1..]), Utf8(t[1..]));
  }

  lemma {:induction false} BytesReverse(a: seq<int>, b: seq<int>)
    ensures CompareBytes(a, b) == -CompareBytes(b, a)
    decreases |a|
  {
    if a != [] && b != [] && a[0] == b[0] { BytesReverse(a[1..], b[1..]); }
  }

  lemma {:induction false} ScalarsOrder(s: seq<Scalar>, t: seq<Scalar>)
    ensures Sign(Compare(Utf16(s), Utf16(t))) == Sign(CompareBytes(Utf8(s), Utf8(t)))
    decreases |s|
  {
    if s == [] || t == [] {
    } else if s[0] == t[0] {
      UnitsPrefix(Utf16Of(s[0]), Utf16(s[1..]), Utf16(t[1..]));
      BytesPrefix(Utf8Of(s[0]), Utf8(s[1..]), Utf8(t[1..]));
      ScalarsOrder(s[1..], t[1..]);
    } else if s[0] < t[0] {
      FirstDecides(s, t);
    } else {
      FirstDecides(t, s);
      CompareReverses(Utf16(s), Utf16(t));
      BytesReverse(Utf8(s), Utf8(t));
    }
  }

  /** For well-formed strings the comparison is the byte order of their UTF-8. */
  lemma CompareIsByteOrder(a: seq<Unit>, b: seq<Unit>)
    requires WellFormed(a) && WellFormed(b)
    ensures Sign(Compare(a, b)) == Sign(CompareBytes(Utf8(Scalars(a)), Utf8(Scalars(b))))
  {
    ScalarsOrder(Scalars(a), Scalars(b));
  }
}
