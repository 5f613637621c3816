/**
 How `Number` reads a numeral of a backup: the exact decimal value, rounded to the nearest binary64 number.
 Magnitudes are counted in units of the smallest positive one, 2 to the power of -1074.
 */
module Numbers {
  import opened Text

  // ---------- powers ----------

  function Pow(b: nat, e: nat): (p: nat)
    ensures b > 0 ==> p > 0
  {
    if e == 0 then 1 else b * Pow(b, e - 1)
  }

  lemma {:induction false} PowAdd(b: nat, i: nat, j: nat)
    ensures Pow(b, i + j) == Pow(b, i) * Pow(b, j)
  {
    if i > 0 {
      PowAdd(b, i - 1, j);
      Associate(b, Pow(b, i - 1), Pow(b, j));
    }
  }

  lemma {:induction false} PowOfProduct(a: nat, b: nat, e: nat)
    ensures Pow(a * b, e) == Pow(a, e) * Pow(b, e)
  {
    if e > 0 {
      PowOfProduct(a, b, e - 1);
      Interchange(a, b, Pow(a, e - 1), Pow(b, e - 1));
    }
  }

  lemma Interchange(a: nat, b: nat, x: nat, y: nat)
    ensures a * b * (x * y) == a * x * (b * y)
  {
    assert a * b * (x * y) == a * (b * (x * y));
    assert b * (x * y) == x * (b * y);
  }

  lemma Associate(a: nat, b: nat, c: nat)
    ensures a * (b * c) == a * b * c
  {
  }

  lemma PowGrows(i: nat, j: nat)
    requires i <= j
    ensures Pow(2, i) <= Pow(2, j)
  {
    PowAdd(2, i, j - i);
    Factor(Pow(2, i), Pow(2, j - i));
  }

  lemma Factor(a: nat, b: nat)
    requires b > 0
    ensures a <= a * b
  {
  }

  // ---------- rounding ----------

  /** Two to the power of 53: a binary64 number has that many bits. */
  const PRECISION: nat := 0x20_0000_0000_0000

  function Scaled(m: nat, k: nat): nat { m * Pow(2, k) }

  /** The magnitudes of binary64 numbers, if their exponents had no upper end. */
  ghost predicate IsDouble(units: nat) {
    exists m: nat, k: nat :: m < PRECISION && units == Scaled(m, k)
  }

  /** How often the step doubles until a magnitude of u/d needs no more than 53 bits. */
  function Scale(u: nat, d: nat): nat
    requires d > 0
    decreases u - d
  {
    if u < PRECISION * d then 0 else 1 + Scale(u, 2 * d)
  }

  function RoundHalfEven(n: nat, d: nat): nat
    requires d > 0
  {
    var q, r := n / d, n % d;
    if 2 * r < d || (2 * r == d && q % 2 == 0) then q else q + 1
  }

  /** The nearest magnitude to u/d; of two that are equally near, the one with the even significand. */
  function RoundUnits(u: nat, d: nat): nat
    requires d > 0
  {
    var step := Pow(2, Scale(u, d));
    RoundHalfEven(u, d * step) * step
  }

  lemma {:induction false} ScaleFits(u: nat, d: nat)
    requires d > 0
    ensures u < PRECISION * (d * Pow(2, Scale(u, d)))
    ensures Scale(u, d) > 0 ==> u >= PRECISION * (d * Pow(2, Scale(u, d) - 1))
    decreases u - d
  {
    if u >= PRECISION * d {
      ScaleFits(u, 2 * d);
      var k := Scale(u, 2 * d);
      Doubled(d, k);
      if k > 0 { Doubled(d, k - 1); }
    }
  }

  lemma Doubled(d: nat, k: nat)
    ensures 2 * d * Pow(2, k) == d * Pow(2, k + 1)
  {
    var p := Pow(2, k);
    assert 2 * d * p == d * (2 * p);
  }

  /** The scale is the least one that fits. */
  lemma ScaleIsLeast(u: nat, d: nat, k: nat)
    requires d > 0 && u < PRECISION * (d * Pow(2, k))
    ensures Scale(u, d) <= k
  {
    ScaleFits(u, d);
    if Scale(u, d) > k {
      PowGrows(k, Scale(u, d) - 1);
      MulGrows(d, Pow(2, k), Pow(2, Scale(u, d) - 1));
    }
  }

  lemma ScaleIsAbove(u: nat, d: nat, k: nat)
    requires d > 0 && u >= PRECISION * (d * Pow(2, k))
    ensures Scale(u, d) > k
  {
    ScaleFits(u, d);
    if Scale(u, d) <= k {
      PowGrows(Scale(u, d), k);
      MulGrows(d, Pow(2, Scale(u, d)), Pow(2, k));
      assert false;
    }
  }

  lemma MulGrows(a: nat, b: nat, c: nat)
    requires b <= c
    ensures a * b <= a * c
  {
  }

  lemma WholeIsExact(n: nat, d: nat)
    requires d > 0
    ensures RoundHalfEven(n * d, d) == n
  {
    DivMultiple(n, d);
  }

  lemma DivMultiple(n: nat, d: nat)
    requires d > 0
    ensures n * d / d == n && n * d % d == 0
  {
    Quotient(n * d, d, n, 0);
  }

  /** Quotient and remainder are unique. */
  lemma Quotient(n: nat, d: nat, q: nat, r: nat)
    requires n == q * d + r && r < d
    ensures n / d == q && n % d == r
  {
    var p, t := n / d, n % d;
    assert n == p * d + t;
    assert (p - q) * d == r - t;
    if p != q { NoSmallMultiple(p - q, d); }
  }

  lemma NoSmallMultiple(n: int, d: int)
    requires n != 0 && d > 0
    ensures n * d >= d || n * d <= -d
  {
  }

  /** Rounding keeps what is a binary64 number already. */
  lemma RoundExact(m: nat, k: nat, d: nat)
    requires m < PRECISION && d > 0
    ensures RoundUnits(Scaled(m, k) * d, d) == Scaled(m, k)
  {
    var p := Pow(2, k);
    var u := m * p * d;
    Associate(m, p, d);
    Below(m, PRECISION, d * p);
    ScaleIsLeast(u, d, k);
    var j := Scale(u, d);
    PowAdd(2, j, k - j);
    var x, y := Pow(2, j), Pow(2, k - j);
    hide Pow, Scale, RoundHalfEven;
    Refactor(m, x, y, d);
    WholeIsExact(m * y, d * x);
  }

  lemma Refactor(m: nat, x: nat, y: nat, d: nat)
    ensures m * (x * y) * d == m * y * (d * x) && m * y * x == m * (x * y)
  {
    assert m * y * x == m * (x * y) by { Associate(m, y, x); }
    Associate(m * y, x, d);
    assert x * d == d * x;
  }

  lemma Below(a: nat, b: nat, c: nat)
    requires a < b && c > 0
    ensures a * c < b * c
  {
  }

  lemma LessMultiple(a: nat, b: nat, d: nat)
    requires a < b
    ensures a * d + d <= b * d
  {
    MulGrows(d, a + 1, b);
  }

  lemma RoundBounds(n: nat, d: nat, low: nat, high: nat)
    requires d > 0 && low * d <= n <= high * d
    ensures low <= RoundHalfEven(n, d) <= high
  {
    var q, r := n / d, n % d;
    assert n == q * d + r;
    if q < low { LessMultiple(q, low, d); }
    if q > high { LessMultiple(high, q, d); }
    if q == high { assert r == 0; }
  }

  /** The significand of a rounded magnitude. */
  lemma SignificandBounds(u: nat, d: nat)
    requires d > 0
    ensures RoundHalfEven(u, d * Pow(2, Scale(u, d))) <= PRECISION
    ensures Scale(u, d) > 0 ==> 2 * RoundHalfEven(u, d * Pow(2, Scale(u, d))) >= PRECISION
  {
    ScaleFits(u, d);
    var k := Scale(u, d);
    var step := d * Pow(2, k);
    RoundBounds(u, step, 0, PRECISION);
    if k > 0 {
      Doubled(d, k - 1);
      assert 2 * (d * Pow(2, k - 1)) == step;
      RoundBounds(u, step, PRECISION / 2, PRECISION);
    }
  }

  /** Rounding gives a binary64 number. */
  lemma RoundIsDouble(u: nat, d: nat)
    requires d > 0
    ensures IsDouble(RoundUnits(u, d))
  {
    SignificandBounds(u, d);
    var k := Scale(u, d);
    var m := RoundHalfEven(u, d * Pow(2, k));
    if m < PRECISION {
      assert RoundUnits(u, d) == Scaled(m, k);
    } else {
      assert PRECISION * Pow(2, k) == PRECISION / 2 * Pow(2, k + 1);
      assert RoundUnits(u, d) == Scaled(PRECISION / 2, k + 1);
    }
  }

  // ---------- rounding is to the nearest ----------

  function Distance(a: nat, b: nat): nat { if a < b then b - a else a - b }

  lemma HalfEvenDistance(n: nat, d: nat)
    requires d > 0
    ensures n % d < d && n == n / d * d + n % d
    ensures Distance(RoundHalfEven(n, d) * d, n) <= n % d && Distance(RoundHalfEven(n, d) * d, n) <= d - n % d
  {
    assert (n / d + 1) * d == n / d * d + d;
  }

  /** No binary64 number lies strictly between two neighbouring multiples of the step. */
  lemma NoDoubleBetween(u: nat, d: nat, other: nat)
    requires d > 0 && IsDouble(other)
    ensures var step := Pow(2, Scale(u, d)); var q := u / (d * step); other <= q * step || other >= q * step + step
  {
    var k := Scale(u, d);
    var q := u / (d * Pow(2, k));
    var m: nat, j: nat :| m < PRECISION && other == Scaled(m, j);
    if j >= k {
      IsMultiple(m, j, k, q);
    } else {
      QuotientIsLarge(u, d);
      IsSmall(m, j, k, q);
    }
  }

  lemma MultiplesApart(t: nat, q: nat, step: nat, a: nat, b: nat)
    requires a == t * step && b == q * step
    ensures a <= b || a >= b + step
  {
    if t <= q { MulGrows(step, t, q); } else { LessMultiple(q, t, step); }
  }

  lemma ScaledSplits(m: nat, j: nat, k: nat)
    requires j >= k
    ensures Scaled(m, j) == (m * Pow(2, j - k)) * Pow(2, k)
  {
    PowAdd(2, j - k, k);
    hide Pow;
    Associate(m, Pow(2, j - k), Pow(2, k));
  }

  lemma IsMultiple(m: nat, j: nat, k: nat, q: nat)
    requires j >= k
    ensures Scaled(m, j) <= Scaled(q, k) || Scaled(m, j) >= Scaled(q, k) + Pow(2, k)
  {
    ScaledSplits(m, j, k);
    assert Scaled(q, k) == q * Pow(2, k);
    hide Scaled, Pow;
    MultiplesApart(m * Pow(2, j - k), q, Pow(2, k), Scaled(m, j), Scaled(q, k));
  }

  lemma IsSmall(m: nat, j: nat, k: nat, q: nat)
    requires j < k && m < PRECISION && q >= PRECISION / 2
    ensures Scaled(m, j) <= Scaled(q, k)
  {
    PowGrows(j, k - 1);
    MulGrows(m, Pow(2, j), Pow(2, k - 1));
    Below(m, PRECISION, Pow(2, k - 1));
    MulGrows(Pow(2, k), PRECISION / 2, q);
    assert PRECISION / 2 * Pow(2, k) == PRECISION * Pow(2, k - 1);
  }

  lemma QuotientIsLarge(u: nat, d: nat)
    requires d > 0 && Scale(u, d) > 0
    ensures u / (d * Pow(2, Scale(u, d))) >= PRECISION / 2
  {
    ScaleFits(u, d);
    var k := Scale(u, d);
    var step := d * Pow(2, k);
    Doubled(d, k - 1);
    assert 2 * (d * Pow(2, k - 1)) == step;
    var q, r := u / step, u % step;
    assert u == q * step + r;
    if q < PRECISION / 2 { LessMultiple(q, PRECISION / 2, step); }
  }

  /** No binary64 number is nearer to u/d than the rounded one. */
  lemma RoundIsNearest(u: nat, d: nat, other: nat)
    requires d > 0 && IsDouble(other)
    ensures Distance(RoundUnits(u, d) * d, u) <= Distance(other * d, u)
  {
    var step := Pow(2, Scale(u, d));
    var e := d * step;
    var q := u / e;
    NoDoubleBetween(u, d, other);
    HalfEvenDistance(u, e);
    StepsOf(RoundHalfEven(u, e), step, d);
    OtherSide(other, q, step, d);
    NotNearer(RoundHalfEven(u, e) * e, u, q * e, e, u % e, other * d);
  }

  lemma OtherSide(other: nat, q: nat, step: nat, d: nat)
    requires other <= q * step || other >= q * step + step
    ensures other * d <= q * (d * step) || other * d >= q * (d * step) + d * step
  {
    StepsOf(q, step, d);
    if other <= q * step {
      MulGrows(d, other, q * step);
    } else {
      MulGrows(d, q * step + step, other);
      assert (q * step + step) * d == q * step * d + step * d;
    }
  }

  lemma NotNearer(rounded: nat, u: nat, low: nat, step: nat, rest: nat, other: nat)
    requires u == low + rest && rest < step && Distance(rounded, u) <= rest && Distance(rounded, u) <= step - rest
    requires other <= low || other >= low + step
    ensures Distance(rounded, u) <= Distance(other, u)
  {
  }

  lemma StepsOf(n: nat, step: nat, d: nat)
    ensures n * step * d == n * (d * step)
  {
    Associate(n, step, d);
  }

  // ---------- the units of binary64 ----------

  /** The smallest positive number is 2 to the power of minus this. */
  function Bits(): nat { 1074 }

  /** The number 1, in units. */
  function Unit(): (unit: nat)
    ensures unit > 0
  {
    Pow(2, Bits())
  }

  /** Numbers lie below 2 to the power of this. */
  function Top(): nat { 1024 }

  /** The least magnitude that overflows to infinity. */
  function Limit(): nat { Unit() * Pow(2, Top()) }

  lemma Squared(e: nat, p: nat)
    requires Pow(2, e) == p
    ensures Pow(2, 2 * e) == p * p
  {
    PowAdd(2, e, e);
  }

  lemma PrecisionFits()
    ensures PRECISION < Pow(2, Top())
  {
    assert Pow(2, 8) == 0x100;
    hide Pow;
    Squared(8, 0x100);
    Squared(16, 0x1_0000);
    Squared(32, 0x1_0000_0000);
    PowGrows(64, Top());
  }

  /** An integer, in units. */
  function Integer(n: nat): nat { n * Unit() }

  lemma LimitIsLarge(n: nat)
    requires n < PRECISION
    ensures Integer(n) < Limit()
  {
    hide Unit, Top, Pow;
    PrecisionFits();
    LessMultiple(n, Pow(2, Top()), Unit());
  }

  /** An integer below 2 to the power of 53 is kept. */
  lemma SafeIntegerIsExact(n: nat)
    requires n < PRECISION
    ensures RoundUnits(Integer(n), 1) == Integer(n) < Limit()
    ensures Integer(n) % Unit() == 0 && Integer(n) / Unit() == n
  {
    RoundExact(n, Bits(), 1);
    LimitIsLarge(n);
    hide Pow, Bits, RoundUnits, Limit;
    assert Scaled(n, Bits()) == Integer(n);
    hide Unit;
    DivMultiple(n, Unit());
  }

  /** Any other integer is rounded to one that is not below that. */
  lemma OtherIntegerIsUnsafe(n: nat)
    requires n >= PRECISION
    ensures var units := RoundUnits(Integer(n), 1); units % Unit() == 0 && units / Unit() >= PRECISION
  {
    var u := Integer(n);
    var k := Scale(u, 1);
    LargeScale(n);
    SignificandBounds(u, 1);
    var m := RoundHalfEven(u, 1 * Pow(2, k));
    PowAdd(2, k - Bits() - 1, Bits() + 1);
    hide RoundHalfEven, Scale;
    var h := Pow(2, k - Bits() - 1);
    assert Pow(2, Bits() + 1) == 2 * Unit();
    hide Pow, Bits;
    Twice(m, h, Unit());
    hide Unit;
    assert RoundUnits(u, 1) == m * (h * (2 * Unit()));
    DivMultiple(2 * m * h, Unit());
    Factor(2 * m, h);
  }

  lemma Twice(m: nat, h: nat, unit: nat)
    ensures m * (h * (2 * unit)) == 2 * m * h * unit
  {
    assert m * (h * (2 * unit)) == m * h * (2 * unit) by { Associate(m, h, 2 * unit); }
    assert 2 * m * h == 2 * (m * h);
    assert 2 * (m * h) * unit == m * h * (2 * unit);
  }

  lemma LargeScale(n: nat)
    requires n >= PRECISION
    ensures Scale(Integer(n), 1) > Bits()
  {
    hide Pow, Scale, Bits;
    MulGrows(Unit(), PRECISION, n);
    assert Unit() * PRECISION == PRECISION * (1 * Pow(2, Bits()));
    ScaleIsAbove(Integer(n), 1, Bits());
  }

  // ---------- numerals ----------

  predicate IsExponent(s: string) {
    s == "" || (Lower(s[0]) == 'e' && ExponentDigits(s) != ""
      && TakeWhile(IsDigit, ExponentDigits(s)) == ExponentDigits(s))
  }

  predicate IsSigned(s: string) { |s| > 1 && (s[1] == '+' || s[1] == '-') }

  function ExponentDigits(s: string): string
    requires s != ""
  {
    if IsSigned(s) then s[2..] else s[1..]
  }

  /** What follows the sign: digits, a fraction, an exponent. */
  predicate IsUnsigned(s: string) {
    var whole := TakeWhile(IsDigit, s);
    var rest := s[|whole|..];
    && whole != ""
    && (if rest != "" && rest[0] == '.'
        then var fraction := TakeWhile(IsDigit, rest[1..]); fraction != "" && IsExponent(rest[1 + |fraction|..])
        else IsExponent(rest))
  }

  /** The number pattern of `parseBackupRows`. */
  predicate IsNumberText(s: string) { IsUnsigned(Digits(s)) }

  lemma {:induction false} TakeWhileAll(p: char -> bool, s: string)
    ensures forall i :: 0 <= i < |TakeWhile(p, s)| ==> p(TakeWhile(p, s)[i])
  {
    if s != "" { TakeWhileAll(p, s[1..]); }
  }

  function DigitsValue(s: string): nat {
    TakeWhileAll(IsDigit, s);
    NatValue(TakeWhile(IsDigit, s))
  }

  function ExponentValue(s: string): int
    requires IsExponent(s)
  {
    if s == "" then 0
    else if s[1] == '-' then 0 - DigitsValue(ExponentDigits(s)) else DigitsValue(ExponentDigits(s))
  }

  function Fraction(s: string): string
    requires IsUnsigned(s)
  {
    var rest := s[|TakeWhile(IsDigit, s)|..];
    if rest != "" && rest[0] == '.' then TakeWhile(IsDigit, rest[1..]) else ""
  }

  /** The digits without the point, and the power of ten that they are to be multiplied with. */
  function Significand(s: string): nat
    requires IsUnsigned(s)
  {
    DigitsValue(TakeWhile(IsDigit, s) + Fraction(s))
  }

  function TenPower(s: string): int
    requires IsUnsigned(s)
  {
    var rest := s[|TakeWhile(IsDigit, s)|..];
    var fraction := Fraction(s);
    ExponentValue(if rest != "" && rest[0] == '.' then rest[1 + |fraction|..] else rest) - |fraction|
  }

  /** The magnitude of digits times a power of ten. */
  function DecimalUnits(digits: nat, power: int): nat {
    if power >= 0 then RoundUnits(Integer(digits * Pow(10, power)), 1) else RoundUnits(Integer(digits), Pow(10, -power))
  }

  /** The magnitude of `Number(s)`; from the limit on it is infinite. */
  function NumberUnits(s: string): nat
    requires IsNumberText(s)
  {
    DecimalUnits(Significand(Digits(s)), TenPower(Digits(s)))
  }

  predicate IsNegative(s: string) { s != "" && s[0] == '-' }

  lemma DecimalIsDouble(digits: nat, power: int)
    ensures IsDouble(DecimalUnits(digits, power))
  {
    hide IsDouble, Unit, RoundUnits;
    if power >= 0 { RoundIsDouble(Integer(digits * Pow(10, power)), 1); } else {
      RoundIsDouble(Integer(digits), Pow(10, -power));
    }
  }

  lemma NumberIsDouble(s: string)
    requires IsNumberText(s)
    ensures IsDouble(NumberUnits(s))
  {
    hide IsDouble, DecimalUnits, Significand, TenPower;
    DecimalIsDouble(Significand(Digits(s)), TenPower(Digits(s)));
  }

  lemma {:induction false} TakesAll(p: char -> bool, s: string)
    requires forall i :: 0 <= i < |s| ==> p(s[i])
    ensures TakeWhile(p, s) == s
  {
    TakeWhileStops(p, s, "");
    assert s + "" == s;
  }

  /** Digits alone are read as the integer that they denote. */
  lemma IntegerText(s: string)
    requires IsIntText(s)
    ensures IsNumberText(s) && NumberUnits(s) == RoundUnits(Integer(NatValue(Digits(s))), 1)
  {
    var digits := Digits(s);
    TakesAll(IsDigit, digits);
    assert digits + "" == digits;
    hide Unit, RoundUnits;
    assert Significand(digits) == NatValue(digits) && TenPower(digits) == 0;
  }

  // ---------- printing ----------

  /** A finite number other than zero, as signed units. */
  ghost predicate IsFinite(units: int) {
    units != 0 && IsDouble(Magnitude(units)) && Magnitude(units) < Limit()
  }

  function Magnitude(units: int): nat { if units < 0 then -units else units }

  /** A text that `Number` reads as the given one. */
  predicate Denotes(s: string, units: int) {
    IsNumberText(s) && NumberUnits(s) == Magnitude(units) && (IsNegative(s) <==> units < 0)
  }

  /** The digits of a magnitude when written with the exponent of the smallest number. */
  function Exact(units: nat): nat { units * Pow(5, Bits()) }

  /** Five to the power of the exponent turns units into a decimal numeral. */
  lemma ExactReads(units: nat)
    requires IsDouble(units)
    ensures DecimalUnits(Exact(units), 0 - Bits()) == units
  {
    var m: nat, k: nat :| m < PRECISION && units == Scaled(m, k);
    var bits := Bits();
    assert bits > 0;
    RoundExact(m, k, Pow(10, bits));
    PowOfProduct(5, 2, bits);
    hide Pow, IsDouble, Scaled, Bits, RoundUnits;
    Associate(units, Pow(5, bits), Pow(2, bits));
  }

  lemma {:induction false} NatValueConcat(a: string, b: string)
    requires AllDigits(a) && AllDigits(b)
    ensures AllDigits(a + b) && NatValue(a + b) == NatValue(a) * Pow(10, |b|) + NatValue(b)
  {
    if b == "" {
      assert a + b == a;
    } else {
      var n := |b| - 1;
      NatValueConcat(a, b[..n]);
      assert a + b == a + b[..n] + [b[n]];
      LastDigit(a + b[..n], b[n]);
      LastDigit(b[..n], b[n]);
      assert b == b[..n] + [b[n]];
      TenTimes(NatValue(a), Pow(10, n));
      hide NatValue;
    }
  }

  lemma TenTimes(a: nat, p: nat)
    ensures a * (10 * p) == 10 * (a * p)
  {
  }

  lemma LastDigit(s: string, c: char)
    requires AllDigits(s) && IsDigit(c)
    ensures AllDigits(s + [c]) && NatValue(s + [c]) == 10 * NatValue(s) + (c as int - '0' as int)
  {
    assert (s + [c])[..|s|] == s;
  }

  predicate AllDigits(s: string) { forall i :: 0 <= i < |s| ==> IsDigit(s[i]) }

  function Zeros(n: nat): (s: string)
    ensures |s| == n && AllDigits(s)
  {
    if n == 0 then "" else Zeros(n - 1) + "0"
  }

  lemma {:induction false} ZerosValue(n: nat)
    ensures NatValue(Zeros(n)) == 0
  {
    if n > 0 {
      ZerosValue(n - 1);
      assert Zeros(n)[..n - 1] == Zeros(n - 1);
    }
  }

  /** The parts of a numeral: the digits before and behind the point, and the exponent. */
  function Numeral(whole: string, fraction: string, exponent: string): string {
    whole + (if fraction == "" then exponent else "." + (fraction + exponent))
  }

  /** Such a numeral has no sign, and these digits behind the point. */
  lemma NumeralIsUnsigned(whole: string, fraction: string, exponent: string)
    requires whole != "" && AllDigits(whole) && AllDigits(fraction) && IsExponent(exponent)
    ensures var s := Numeral(whole, fraction, exponent);
      !IsNegative(s) && IsUnsigned(s) && Fraction(s) == fraction
  {
    NumeralSplits(whole, fraction, exponent);
    hide TakeWhile, IsExponent, NatValue, ExponentValue;
    assert IsDigit(whole[0]);
  }

  /** The exponent is read behind the digits. */
  lemma NumeralPower(whole: string, fraction: string, exponent: string)
    requires whole != "" && AllDigits(whole) && AllDigits(fraction) && IsExponent(exponent)
    requires IsUnsigned(Numeral(whole, fraction, exponent)) && Fraction(Numeral(whole, fraction, exponent)) == fraction
    ensures TenPower(Numeral(whole, fraction, exponent)) == ExponentValue(exponent) - |fraction|
  {
    NumeralSplits(whole, fraction, exponent);
    hide TakeWhile, IsExponent, ExponentValue, IsUnsigned, Fraction, Numeral;
  }

  /** Such a numeral is read part by part. */
  lemma NumeralReads(whole: string, fraction: string, exponent: string)
    requires whole != "" && AllDigits(whole) && AllDigits(fraction) && IsExponent(exponent)
    ensures var s := Numeral(whole, fraction, exponent);
      && !IsNegative(s) && IsUnsigned(s) && AllDigits(whole + fraction)
      && Significand(s) == NatValue(whole + fraction) && TenPower(s) == ExponentValue(exponent) - |fraction|
  {
    NumeralSplits(whole, fraction, exponent);
    NumeralIsUnsigned(whole, fraction, exponent);
    NumeralPower(whole, fraction, exponent);
    TakesAll(IsDigit, whole + fraction);
    hide TakeWhile, IsExponent, NatValue, ExponentValue, IsUnsigned, Fraction, IsNegative, Numeral, TenPower;
  }

  /** Where the digits, the fraction and the exponent of a numeral stand. */
  lemma NumeralSplits(whole: string, fraction: string, exponent: string)
    requires whole != "" && AllDigits(whole) && AllDigits(fraction) && IsExponent(exponent)
    ensures var s := Numeral(whole, fraction, exponent);
      && TakeWhile(IsDigit, s) == whole
      && (fraction == "" ==>
        s[|whole|..] == exponent && (exponent == "" || exponent[0] != '.') && whole + fraction == whole)
      && (fraction != "" ==>
            && |s| > |whole| && s[|whole|] == '.' && TakeWhile(IsDigit, s[|whole|..][1..]) == fraction
            && s[|whole|..][1 + |fraction|..] == exponent)
  {
    var rest := if fraction == "" then exponent else "." + (fraction + exponent);
    var s := Numeral(whole, fraction, exponent);
    assert s == whole + rest && s[|whole|..] == rest;
    TakeWhileStops(IsDigit, whole, rest);
    if fraction != "" {
      TakeWhileStops(IsDigit, fraction, exponent);
      hide TakeWhile;
      assert rest[1..] == fraction + exponent;
      assert rest[1 + |fraction|..] == exponent;
    }
  }

  function ExponentText(e: int): string {
    if e < 0 then "e-" + NatText(-e) else "e+" + NatText(e)
  }

  lemma ExponentReads(e: int)
    ensures IsExponent(ExponentText(e)) && ExponentValue(ExponentText(e)) == e
  {
    var n: nat := if e < 0 then -e else e;
    assert ExponentText(e)[2..] == NatText(n);
    TakesAll(IsDigit, NatText(n));
    NatRoundTrip(n);
  }

  /** Digits times a power of ten as `String` writes them: in full, with a point, or with an exponent. */
  function Format(digits: nat, power: int): string {
    var text := NatText(digits);
    var point := |text| + power;
    if 0 <= power && point <= 21 then Numeral(text + Zeros(power), "", "")
    else if 0 < point <= 21 then Numeral(text[..point], text[point..], "")
    else if -6 < point <= 0 then Numeral("0", Zeros(-point) + text, "")
    else Numeral(text[..1], text[1..], ExponentText(point - 1))
  }

  /** A numeral that reads as the given digits times the given power of ten. */
  ghost predicate Reads(s: string, digits: nat, power: int) {
    IsUnsigned(s) && !IsNegative(s) && DecimalUnits(Significand(s), TenPower(s)) == DecimalUnits(digits, power)
  }

  lemma WholeReads(digits: nat, power: nat)
    ensures Reads(Numeral(NatText(digits) + Zeros(power), "", ""), digits, power)
  {
    var text := NatText(digits);
    NatRoundTrip(digits);
    hide NatText, NatValue, IsUnsigned, Significand, TenPower, Numeral, DecimalUnits;
    NumeralReads(text + Zeros(power), "", "");
    assert text + Zeros(power) + "" == text + Zeros(power);
    NatValueConcat(text, Zeros(power));
    ZerosValue(power);
    WholePower(digits, power);
  }

  /** Digits with a point, and an exponent that makes up for it. */
  lemma PointReads(digits: nat, power: int, point: nat, exponent: string)
    requires 0 < point <= |NatText(digits)| && IsExponent(exponent)
    requires power == ExponentValue(exponent) - (|NatText(digits)| - point)
    ensures Reads(Numeral(NatText(digits)[..point], NatText(digits)[point..], exponent), digits, power)
  {
    var text := NatText(digits);
    NatRoundTrip(digits);
    hide NatText, NatValue, IsUnsigned, Significand, TenPower, Numeral, DecimalUnits, IsExponent, ExponentValue;
    NumeralReads(text[..point], text[point..], exponent);
    assert text[..point] + text[point..] == text;
  }

  /** Digits behind a point and zeros. */
  lemma SmallReads(digits: nat, zeros: nat)
    ensures Reads(Numeral("0", Zeros(zeros) + NatText(digits), ""), digits, 0 - zeros - |NatText(digits)|)
  {
    var text := NatText(digits);
    NatRoundTrip(digits);
    hide NatText, NatValue, IsUnsigned, Significand, TenPower, Numeral, DecimalUnits;
    var front := Zeros(zeros + 1);
    NumeralReads("0", Zeros(zeros) + text, "");
    ZerosFront(zeros);
    assert "0" + (Zeros(zeros) + text) == front + text;
    NatValueConcat(front, text);
    ZerosValue(zeros + 1);
  }

  /** A formatted number reads as its digits times its power of ten. */
  lemma FormatReads(digits: nat, power: int)
    ensures Reads(Format(digits, power), digits, power)
  {
    hide NatText, Numeral, Reads, IsExponent, ExponentValue, ExponentText, Zeros;
    var text := NatText(digits);
    var point := |text| + power;
    if 0 <= power && point <= 21 {
      WholeReads(digits, power);
    } else if 0 < point <= 21 {
      NoExponent();
      PointReads(digits, power, point, "");
    } else if -6 < point <= 0 {
      SmallReads(digits, -point);
    } else {
      ExponentReads(point - 1);
      PointReads(digits, power, 1, ExponentText(point - 1));
    }
  }

  lemma NoExponent()
    ensures IsExponent("") && ExponentValue("") == 0
  {
  }

  lemma {:induction false} ZerosFront(n: nat)
    ensures "0" + Zeros(n) == Zeros(n + 1)
  {
    if n > 0 { ZerosFront(n - 1); }
  }

  /** A whole number with its zeros written out. */
  lemma WholePower(digits: nat, power: nat)
    ensures DecimalUnits(digits * Pow(10, power), 0) == DecimalUnits(digits, power)
  {
    assert Pow(10, 0) == 1;
  }

  /** The fewest digits that read as the given magnitude, the nearest of them first, and how many digits of the
      exact value they leave out. */
  function FewestDigits(exact: nat, drop: nat, units: nat): (nat, nat)
    decreases drop
  {
    var step := Pow(10, drop);
    var near := RoundHalfEven(exact, step);
    var other := if near == exact / step then near + 1 else near - 1;
    if drop == 0 then (exact, 0)
    else if DecimalUnits(near, drop - Bits()) == units then (near, drop)
    else if DecimalUnits(other, drop - Bits()) == units then (other, drop)
    else FewestDigits(exact, drop - 1, units)
  }

  lemma {:induction false} FewestDigitsRead(exact: nat, drop: nat, units: nat)
    requires DecimalUnits(exact, 0 - Bits()) == units
    ensures var (digits, left) := FewestDigits(exact, drop, units); DecimalUnits(digits, left - Bits()) == units
  {
    hide DecimalUnits, Bits, RoundHalfEven;
    if drop > 0 { FewestDigitsRead(exact, drop - 1, units); }
  }

  /** The fewest digits of a magnitude, and how many of its exact digits they leave out. */
  function Shortest(units: nat): (nat, nat) {
    FewestDigits(Exact(units), |NatText(Exact(units))| - 1, units)
  }

  function MagnitudeText(units: nat): string {
    Format(Shortest(units).0, Shortest(units).1 - Bits())
  }

  /** `String` of a number: the fewest digits that read as it again. */
  function NumberText(units: int): string {
    if units < 0 then "-" + MagnitudeText(Magnitude(units)) else MagnitudeText(Magnitude(units))
  }

  lemma ShortestReads(units: nat)
    requires IsDouble(units)
    ensures DecimalUnits(Shortest(units).0, Shortest(units).1 - Bits()) == units
  {
    ExactReads(units);
    hide FewestDigits, DecimalUnits, NatText, IsDouble, Exact, Bits;
    FewestDigitsRead(Exact(units), |NatText(Exact(units))| - 1, units);
  }

  lemma MagnitudeReads(units: nat)
    requires IsDouble(units)
    ensures IsUnsigned(MagnitudeText(units)) && !IsNegative(MagnitudeText(units))
    ensures DecimalUnits(Significand(MagnitudeText(units)), TenPower(MagnitudeText(units))) == units
  {
    ShortestReads(units);
    hide Shortest, DecimalUnits, IsUnsigned, Significand, TenPower, Format, IsDouble, Bits;
    FormatReads(Shortest(units).0, Shortest(units).1 - Bits());
  }

  /** Every finite number reads back from the text that is printed for it. */
  lemma NumberTextDenotes(units: int)
    requires IsFinite(units)
    ensures Denotes(NumberText(units), units)
  {
    MagnitudeReads(Magnitude(units));
    hide IsDouble, Limit, DecimalUnits, IsUnsigned, Significand, TenPower, MagnitudeText;
    var text := MagnitudeText(Magnitude(units));
    assert Digits("-" + text) == text && Digits(text) == text;
  }
}
