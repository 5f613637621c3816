/**
 Printing rows as SQL (d1-sql.ts, the row loop of `dumpDatabase`) and reading them back
 (`parseBackupRows` in archive.ts).
 */
module DumpCodec {
  import opened Common
  import opened Text
  import opened Numbers

  /** A stored value. `Int` is a safe integer, `Float` any other finite number, in signed units. */
  datatype Cell = Null | Int(n: int) | Float(units: int) | Str(s: string)

  datatype Row = Row(table: string, columns: seq<string>, values: seq<Cell>)

  // ---------- printing ----------

  function Double(q: char, s: string): string {
    if s == "" then "" else (if s[0] == q then [q, q] else [s[0]]) + Double(q, s[1..])
  }

  function Quoted(q: char, s: string): string {
    [q] + Double(q, s) + [q]
  }

  function QuoteName(name: string): string {
    Quoted('"', name)
  }

  function Literal(c: Cell): string {
    match c
    case Null => "NULL"
    case Int(n) => IntText(n)
    case Float(units) => NumberText(units)
    case Str(s) => Quoted('\'', s)
  }

  function Names(columns: seq<string>): seq<string> {
    seq(|columns|, i requires 0 <= i < |columns| => QuoteName(columns[i]))
  }

  function Literals(values: seq<Cell>): seq<string> {
    seq(|values|, i requires 0 <= i < |values| => Literal(values[i]))
  }

  const INSERT := "INSERT INTO "
  const VALUES := ") VALUES ("
  const SEQUENCE := "sqlite_sequence"

  /** The column list behind its opening parenthesis, and the values. */
  function ListText(columns: seq<string>, values: seq<Cell>): string {
    JoinCommas(columns) + VALUES + JoinCommas(Literals(values)) + ")"
  }

  function InsertText(row: Row): string {
    if row.table == SEQUENCE
    then INSERT + (SEQUENCE + "(" + ListText(row.columns, row.values))
    else INSERT + (QuoteName(row.table) + " (" + ListText(Names(row.columns), row.values))
  }

  // ---------- splitting into statements ----------

  /** Where a scan is: outside quotes, inside, or right behind a quote that may turn out to be doubled. */
  datatype Scan = Outside | Inside(q: char) | Behind(q: char)

  predicate IsQuote(c: char) { c == '\'' || c == '"' }

  function Next(st: Scan, c: char): Scan {
    match st
    case Outside => if IsQuote(c) then Inside(c) else Outside
    case Inside(q) => if c == q then Behind(q) else Inside(q)
    case Behind(q) => if c == q then Inside(q) else if IsQuote(c) then Inside(c) else Outside
  }

  predicate Ends(st: Scan, c: char) {
    c == ';' && !st.Inside?
  }

  /** The trimmed statements of a text; none if it ends inside a quote or within a statement. */
  function Split(s: string, st: Scan, current: string): Option<seq<string>>
    decreases |s|
  {
    if s == "" then if st.Inside? || Trim(current) != "" then None else Some([])
    else if Ends(st, s[0]) then
      var rest := Split(s[1..], Outside, "");
      if rest.None? then None else Some([Trim(current)] + rest.value)
    else Split(s[1..], Next(st, s[0]), current + [s[0]])
  }

  /** The state after a text that contains no statement end, or none. */
  function Walk(s: string, st: Scan): Option<Scan>
    decreases |s|
  {
    if s == "" then Some(st)
    else if Ends(st, s[0]) then None
    else Walk(s[1..], Next(st, s[0]))
  }

  predicate Closed(s: string) {
    Walk(s, Outside).Some? && !Walk(s, Outside).value.Inside?
  }

  lemma {:induction false} WalkConcat(a: string, b: string, st: Scan)
    ensures Walk(a + b, st) == if Walk(a, st).None? then None else Walk(b, Walk(a, st).value)
    decreases |a|
  {
    if a == "" {
      assert a + b == b;
    } else {
      assert (a + b)[1..] == a[1..] + b;
      if !Ends(st, a[0]) { WalkConcat(a[1..], b, Next(st, a[0])); }
    }
  }

  lemma {:induction false} SplitWalk(a: string, rest: string, st: Scan, current: string)
    requires Walk(a, st).Some?
    ensures Split(a + rest, st, current) == Split(rest, Walk(a, st).value, current + a)
    decreases |a|
  {
    if a == "" {
      assert a + rest == rest && current + a == current;
    } else {
      assert (a + rest)[1..] == a[1..] + rest;
      SplitWalk(a[1..], rest, Next(st, a[0]), current + [a[0]]);
      assert current + [a[0]] + a[1..] == current + a;
    }
  }

  /** One statement with its terminator is split off. */
  lemma StatementSplits(space: string, s: string, rest: string)
    requires AllSpace(space) && Closed(s) && Tight(s)
    ensures Split(space + s + ";" + rest, Outside, "") ==
            var more := Split(rest, Outside, ""); if more.None? then None else Some([s] + more.value)
  {
    PlainWalk(space);
    WalkConcat(space, s, Outside);
    SplitWalk(space + s, ";" + rest, Outside, "");
    assert "" + (space + s) == space + s;
    assert space + s + ";" + rest == space + s + (";" + rest);
    assert (";" + rest)[1..] == rest;
    TrimTight(space, s);
  }

  predicate Plain(s: string) {
    forall i :: 0 <= i < |s| ==> !IsQuote(s[i]) && s[i] != ';'
  }

  lemma {:induction false} PlainWalk(s: string)
    requires Plain(s) || AllSpace(s)
    ensures Walk(s, Outside) == Some(Outside)
  {
    if s != "" { PlainWalk(s[1..]); }
  }

  /** Plain text behind a quoted one. */
  lemma PlainBehind(q: char, s: string)
    requires s != "" && Plain(s) && IsQuote(q)
    ensures Walk(s, Behind(q)) == Some(Outside)
  {
    PlainWalk(s[1..]);
  }

  lemma {:induction false} DoubleWalk(q: char, s: string)
    requires IsQuote(q)
    ensures Walk(Double(q, s), Inside(q)) == Some(Inside(q))
  {
    if s != "" {
      DoubleWalk(q, s[1..]);
      var first := if s[0] == q then [q, q] else [s[0]];
      WalkConcat(first, Double(q, s[1..]), Inside(q));
      if s[0] == q {
        assert first[1..] == [q] && [q][1..] == "";
        assert Walk([q], Behind(q)) == Some(Inside(q));
      }
    }
  }

  lemma QuotedWalk(q: char, s: string)
    requires IsQuote(q)
    ensures Walk(Quoted(q, s), Outside) == Some(Behind(q))
  {
    DoubleWalk(q, s);
    WalkConcat([q] + Double(q, s), [q], Outside);
    WalkConcat([q], Double(q, s), Outside);
  }

  /** Plain text behind a closed one. */
  lemma ClosedThenPlain(a: string, s: string)
    requires Closed(a) && s != "" && Plain(s)
    ensures Walk(a + s, Outside) == Some(Outside)
  {
    WalkConcat(a, s, Outside);
    match Walk(a, Outside).value
    case Outside => PlainWalk(s);
    case Behind(q) => BehindQuote(a, Outside); PlainBehind(q, s);
  }

  /** A scan only ever stands behind a quote character. */
  lemma {:induction false} BehindQuote(a: string, st: Scan)
    requires Walk(a, st).Some? && (st.Outside? || IsQuote(st.q))
    ensures Walk(a, st).value.Outside? || IsQuote(Walk(a, st).value.q)
    decreases |a|
  {
    if a != "" { BehindQuote(a[1..], Next(st, a[0])); }
  }

  lemma {:induction false} JoinedClosed(parts: seq<string>)
    requires forall i :: 0 <= i < |parts| ==> Closed(parts[i])
    ensures Closed(JoinCommas(parts))
  {
    if |parts| > 1 {
      ClosedThenPlain(parts[0], ",");
      JoinedClosed(parts[1..]);
      assert JoinCommas(parts) == parts[0] + "," + JoinCommas(parts[1..]);
      WalkConcat(parts[0] + ",", JoinCommas(parts[1..]), Outside);
    }
  }

  // ---------- reading values ----------

  /** A token outside quotes: an integer that is not safe is refused, and so is a number that overflows. */
  function CellOf(token: string): Option<Cell> {
    if token == "NULL" then Some(Null)
    else if !IsNumberText(token) then None
    else
      var units := NumberUnits(token);
      if units >= Limit() then None
      else if units % Unit() != 0 then Some(Float(Signed(token, units)))
      else if units / Unit() > MAX_SAFE then None
      else Some(Int(Signed(token, units / Unit())))
  }

  function Signed(token: string, n: nat): int { if IsNegative(token) then 0 - n else n }

  /** The text up to the closing quote, with doubled quotes undone, and what follows it. */
  function Unquote(s: string): Option<(string, string)>
    ensures Unquote(s).Some? ==> |Unquote(s).value.1| < |s|
    decreases |s|
  {
    if s == "" then None
    else if s[0] == '\'' then
      if |s| > 1 && s[1] == '\'' then
        var more := Unquote(s[2..]);
        if more.None? then None else Some((['\''] + more.value.0, more.value.1))
      else Some(("", s[1..]))
    else
      var more := Unquote(s[1..]);
      if more.None? then None else Some(([s[0]] + more.value.0, more.value.1))
  }

  lemma {:induction false} TrimLeftShorter(s: string)
    ensures |TrimLeft(s)| <= |s|
  {
    if s != "" && IsSpace(s[0]) { TrimLeftShorter(s[1..]); }
  }

  /** One value at the front, and what follows it. */
  function FirstCell(s: string): Option<(Cell, string)>
    requires s != ""
    ensures FirstCell(s).Some? ==> |FirstCell(s).value.1| < |s| || FirstCell(s).value.1 == s
  {
    if s[0] == '\'' then
      var text := Unquote(s[1..]);
      if text.None? then None else Some((Str(text.value.0), text.value.1))
    else
      var token := TakeWhile(NotComma, s);
      var cell := CellOf(Trim(token));
      if cell.None? then None else Some((cell.value, s[|token|..]))
  }

  /** The comma-separated values of a VALUES list. */
  function ParseCells(s: string): Option<seq<Cell>>
    decreases |s|
  {
    if s == "" then Some([])
    else
      TrimLeftShorter(s);
      var data := TrimLeft(s);
      if data == "" then None
      else
        var first := FirstCell(data);
        if first.None? then None
        else
          TrimLeftShorter(first.value.1);
          var rest := TrimLeft(first.value.1);
          if rest == "" then Some([first.value.0])
          else if rest[0] != ',' || Trim(rest[1..]) == "" then None
          else
            var more := ParseCells(rest[1..]);
            if more.None? then None else Some([first.value.0] + more.value)
  }

  lemma {:induction false} UnquoteDouble(v: string, rest: string)
    requires rest == "" || rest[0] != '\''
    ensures Unquote(Double('\'', v) + "'" + rest) == Some((v, rest))
  {
    var s := Double('\'', v) + "'" + rest;
    if v == "" {
      assert s == "'" + rest && s[1..] == rest;
    } else {
      var tail := Double('\'', v[1..]) + "'" + rest;
      UnquoteDouble(v[1..], rest);
      if v[0] == '\'' {
        assert s == "''" + tail && s[2..] == tail;
      } else {
        assert s == [v[0]] + tail && s[1..] == tail;
      }
      assert [v[0]] + v[1..] == v;
    }
  }

  /** A cell that the backup may contain. */
  ghost predicate AllowedCell(c: Cell) {
    match c
    case Null => true
    case Int(n) => -MAX_SAFE <= n <= MAX_SAFE
    case Float(units) => IsFinite(units) && !IsSafeInteger(units)
    case Str(_) => true
  }

  predicate IsSafeInteger(units: int) {
    Magnitude(units) % Unit() == 0 && Magnitude(units) / Unit() <= MAX_SAFE
  }

  /** The reader refuses integers that are not safe, although they are printed. */
  predicate ReadsBack(c: Cell) {
    c.Float? ==> Magnitude(c.units) % Unit() != 0
  }

  predicate AllReadBack(values: seq<Cell>) {
    forall i :: 0 <= i < |values| ==> ReadsBack(values[i])
  }

  predicate IsNumberChar(c: char) {
    IsDigit(c) || c == '-' || c == '+' || c == '.' || c == 'e' || c == 'E'
  }

  predicate NumberChars(s: string) {
    forall i :: 0 <= i < |s| ==> IsNumberChar(s[i])
  }

  lemma DigitsAreNumberChars(s: string)
    ensures NumberChars(TakeWhile(IsDigit, s))
  {
    TakeWhileAll(IsDigit, s);
  }

  lemma ExponentChars(s: string)
    requires IsExponent(s)
    ensures NumberChars(s)
  {
    if s != "" {
      var digits := ExponentDigits(s);
      DigitsAreNumberChars(digits);
      assert s == [s[0]] + digits || s == [s[0], s[1]] + digits;
    }
  }

  lemma CharsJoin(a: string, b: string)
    requires NumberChars(a) && NumberChars(b)
    ensures NumberChars(a + b)
  {
  }

  lemma UnsignedChars(s: string)
    requires IsUnsigned(s)
    ensures NumberChars(s)
  {
    hide IsExponent, TakeWhile;
    var whole := TakeWhile(IsDigit, s);
    var rest := s[|whole|..];
    DigitsAreNumberChars(s);
    if rest != "" && rest[0] == '.' {
      var fraction := TakeWhile(IsDigit, rest[1..]);
      var exponent := rest[1 + |fraction|..];
      DigitsAreNumberChars(rest[1..]);
      ExponentChars(exponent);
      CharsJoin(fraction, exponent);
      assert rest[1..] == fraction + exponent;
      CharsJoin(['.'], rest[1..]);
      assert rest == ['.'] + rest[1..];
    } else {
      ExponentChars(rest);
    }
    CharsJoin(whole, rest);
    assert s == whole + rest;
  }

  lemma NumberTextChars(s: string)
    requires IsNumberText(s)
    ensures s != "" && NumberChars(s)
  {
    UnsignedChars(Digits(s));
    hide IsExponent, TakeWhile;
    assert s == Digits(s) || s == ['-'] + Digits(s);
  }

  /** A printed cell that is not quoted is a bare token: no comma, white space, quote or semicolon. */
  lemma TokenChars(c: Cell)
    requires AllowedCell(c) && !c.Str?
    ensures Literal(c) != "" && Tight(Literal(c)) && Plain(Literal(c)) && ',' !in Literal(c) && Literal(c)[0] != '\''
  {
    match c
    case Null => assert Literal(c) == "NULL";
    case Int(n) =>
      IntChars(n);
      hide IntText;
      BareToken(IntText(n));
    case Float(units) =>
      NumberTextDenotes(units);
      hide NumberText, NumberUnits, IsFinite;
      NumberTextChars(NumberText(units));
      BareToken(NumberText(units));
  }

  lemma IntChars(n: int)
    ensures IntText(n) != "" && NumberChars(IntText(n))
  {
    hide NatText;
    if n < 0 {
      CharsJoin("-", NatText(-n));
    }
  }

  lemma BareToken(s: string)
    requires s != "" && NumberChars(s)
    ensures Tight(s) && Plain(s) && ',' !in s && s[0] != '\''
  {
    assert IsNumberChar(s[0]) && IsNumberChar(s[|s| - 1]);
  }

  /** An integer in digits is read if it is safe, and refused otherwise: rounding makes none of the others safe. */
  lemma IntegerCell(token: string)
    requires IsIntText(token)
    ensures CellOf(token) == if -MAX_SAFE <= IntValue(token) <= MAX_SAFE then Some(Int(IntValue(token))) else None
  {
    var n := NatValue(Digits(token));
    IntegerText(token);
    if n <= MAX_SAFE { SafeIntegerIsExact(n); } else { OtherIntegerIsUnsafe(n); }
  }

  /** A number that is printed and refused when it is read: the least integer that is not safe. */
  lemma LeastUnsafeInteger()
    ensures AllowedCell(Float(Integer(PRECISION))) && !ReadsBack(Float(Integer(PRECISION)))
  {
    HalvesDouble(Unit());
    assert Integer(PRECISION) == Scaled(PRECISION / 2, Bits() + 1);
    PrecisionFits();
    hide Pow, Bits, Top, Scaled, IsDouble;
    LessMultiple(PRECISION, Pow(2, Top()), Unit());
    hide Unit;
    DivMultiple(PRECISION, Unit());
  }

  lemma HalvesDouble(unit: nat)
    ensures PRECISION / 2 * (2 * unit) == PRECISION * unit
  {
  }

  /** What the reader accepts as a number is one that the printer prints, and reads back. */
  lemma ReadCellIsAllowed(token: string)
    requires CellOf(token).Some?
    ensures AllowedCell(CellOf(token).value) && ReadsBack(CellOf(token).value)
  {
    hide IsDouble, NumberUnits, IsNumberText, Unit, Limit;
    if token != "NULL" {
      NumberIsDouble(token);
      var units := NumberUnits(token);
      if units % Unit() != 0 { Remainder(units, Unit()); }
    }
  }

  lemma Remainder(n: nat, d: nat)
    requires d > 0 && n % d != 0
    ensures n != 0
  {
  }

  lemma NullCell()
    ensures CellOf("NULL") == Some(Null)
  {
  }

  lemma FloatCell(token: string, units: int)
    requires Denotes(token, units) && IsFinite(units) && !IsSafeInteger(units)
    ensures CellOf(token) == if ReadsBack(Float(units)) then Some(Float(units)) else None
  {
    NumberTextChars(token);
    assert IsNumberChar(token[0]);
    hide IsNumberText, NumberUnits, IsDouble, Unit, Limit;
  }

  /** Reading a printed number gives it back, unless it is an integer that is not safe: that is refused. */
  lemma CellRoundTrip(c: Cell)
    requires AllowedCell(c) && !c.Str?
    ensures CellOf(Trim(Literal(c))) == if ReadsBack(c) then Some(c) else None
  {
    TokenChars(c);
    TrimTight("", Literal(c));
    hide CellOf, NumberText, IsFinite, IsSafeInteger, Denotes;
    match c
    case Null => assert CellOf("NULL") == Some(Null) by { NullCell(); }
    case Int(n) => IntRoundTrip(n); IntegerCell(IntText(n));
    case Float(units) => NumberTextDenotes(units); FloatCell(NumberText(units), units);
  }

  lemma LiteralClosed(c: Cell)
    requires AllowedCell(c)
    ensures Closed(Literal(c))
  {
    if c.Str? {
      QuotedWalk('\'', c.s);
    } else {
      TokenChars(c);
      PlainWalk(Literal(c));
    }
  }

  lemma FirstQuoted(text: string, rest: string)
    requires rest == "" || rest[0] == ','
    ensures FirstCell(Quoted('\'', text) + rest) == Some((Str(text), rest))
  {
    UnquoteDouble(text, rest);
    hide Unquote, Double;
    assert (Quoted('\'', text) + rest)[1..] == Double('\'', text) + "'" + rest;
  }

  lemma FirstToken(text: string, rest: string)
    requires text != "" && ',' !in text && text[0] != '\'' && (rest == "" || rest[0] == ',')
    ensures FirstCell(text + rest) == if CellOf(Trim(text)).None? then None else Some((CellOf(Trim(text)).value, rest))
  {
    forall i | 0 <= i < |text| ensures NotComma(text[i]) { assert text[i] in text; }
    TakeWhileStops(NotComma, text, rest);
    hide TakeWhile, CellOf, Trim;
    assert (text + rest)[|text|..] == rest;
  }

  /** The first cell of a printed list. */
  lemma FirstCellRoundTrip(c: Cell, rest: string)
    requires AllowedCell(c) && (rest == "" || rest[0] == ',')
    ensures Literal(c) != "" && !IsSpace(Literal(c)[0])
    ensures FirstCell(Literal(c) + rest) == if ReadsBack(c) then Some((c, rest)) else None
  {
    hide FirstCell, AllowedCell, CellOf;
    if c.Str? {
      FirstQuoted(c.s, rest);
    } else {
      TokenChars(c);
      CellRoundTrip(c);
      hide Literal;
      FirstToken(Literal(c), rest);
    }
  }

  lemma ParseFirst(c: Cell, after: string)
    requires AllowedCell(c) && (after == "" || (after[0] == ',' && Trim(after[1..]) != ""))
    ensures Literal(c) != "" && !IsSpace(Literal(c)[0])
    ensures ParseCells(Literal(c) + after) ==
            if !ReadsBack(c) then None
            else if after == "" then Some([c])
            else if ParseCells(after[1..]).None? then None else Some([c] + ParseCells(after[1..]).value)
  {
    var all := Literal(c) + after;
    FirstCellRoundTrip(c, after);
    hide AllowedCell, Literal, ReadsBack, FirstCell;
    TrimLeftSpace("", all);
    assert "" + all == all;
    TrimLeftSpace("", after);
    assert "" + after == after;
    assert TrimLeft(all) == all && TrimLeft(after) == after;
  }

  lemma CellsStep(c: Cell, rest: string)
    requires AllowedCell(c) && Trim(rest) != ""
    ensures ParseCells(Literal(c) + "," + rest) ==
            if !ReadsBack(c) || ParseCells(rest).None? then None else Some([c] + ParseCells(rest).value)
  {
    var after := "," + rest;
    assert after[1..] == rest;
    ParseFirst(c, after);
    assert Literal(c) + "," + rest == Literal(c) + after;
  }

  lemma CellsEnd(c: Cell)
    requires AllowedCell(c)
    ensures ParseCells(Literal(c)) == if ReadsBack(c) then Some([c]) else None
  {
    ParseFirst(c, "");
    assert Literal(c) + "" == Literal(c);
  }

  lemma JoinedNotBlank(values: seq<Cell>)
    requires values != [] && AllowedCell(values[0])
    ensures Trim(JoinCommas(Literals(values))) != ""
  {
    FirstCellRoundTrip(values[0], "");
    TrimKeepsFirst(JoinCommas(Literals(values)));
  }

  lemma JoinedLiterals(values: seq<Cell>)
    requires |values| > 1
    ensures JoinCommas(Literals(values)) == Literal(values[0]) + "," + JoinCommas(Literals(values[1..]))
  {
    assert Literals(values)[1..] == Literals(values[1..]);
  }

  /** Reading a printed list of values gives back the values, exactly if none of them is an unsafe integer. */
  lemma {:induction false} CellsRoundTrip(values: seq<Cell>)
    requires forall i :: 0 <= i < |values| ==> AllowedCell(values[i])
    ensures ParseCells(JoinCommas(Literals(values))) == if AllReadBack(values) then Some(values) else None
  {
    hide AllowedCell, ReadsBack, ParseCells, Literal;
    if values == [] {
      NoCells();
    } else if |values| == 1 {
      CellsEnd(values[0]);
      assert values == [values[0]];
    } else {
      CellsRoundTrip(values[1..]);
      JoinedNotBlank(values[1..]);
      JoinedLiterals(values);
      CellsStep(values[0], JoinCommas(Literals(values[1..])));
      assert [values[0]] + values[1..] == values;
      RestReadsBack(values);
    }
  }

  lemma NoCells()
    ensures ParseCells("") == Some([])
  {
  }

  lemma RestReadsBack(values: seq<Cell>)
    requires values != []
    ensures AllReadBack(values) <==> ReadsBack(values[0]) && AllReadBack(values[1..])
  {
    hide ReadsBack;
    if ReadsBack(values[0]) && AllReadBack(values[1..]) {
      forall i | 0 <= i < |values| ensures ReadsBack(values[i]) { if i > 0 { assert ReadsBack(values[1..][i - 1]); } }
    }
  }

  lemma {:induction false} TrimKeepsFirst(s: string)
    requires s != "" && !IsSpace(s[0])
    ensures Trim(s) != "" && TrimRight(s) != ""
  {
    TrimLeftSpace("", s);
    assert "" + s == s;
    if |s| > 1 && IsSpace(s[|s| - 1]) { TrimKeepsFirst(s[..|s| - 1]); }
  }

  // ---------- reading an INSERT ----------

  predicate IsNameChar(c: char) { 'a' <= c <= 'z' || c == '_' || IsDigit(c) }

  /** `[a-z_][a-z0-9_]*` */
  predicate IsIdentifier(s: string) {
    s != "" && !IsDigit(s[0]) && forall i :: 0 <= i < |s| ==> IsNameChar(s[i])
  }

  function FoldedNameChar(c: char): bool { IsNameChar(Lower(c)) }
  function NotClosing(c: char): bool { c != ')' }

  function Unquoted(s: string): string {
    if |s| > 2 && s[0] == '"' && s[|s| - 1] == '"' && IsIdentifier(s[1..|s| - 1]) then s[1..|s| - 1] else s
  }

  function ColumnNames(parts: seq<string>): (names: seq<string>)
    ensures |names| == |parts|
    ensures forall i :: 0 <= i < |parts| ==> names[i] == Unquoted(Trim(parts[i]))
  {
    if parts == [] then [] else [Unquoted(Trim(parts[0]))] + ColumnNames(parts[1..])
  }

  /** What the INSERT pattern captures: the table, the column list and the value list. */
  datatype Insert = Insert(table: string, list: string, data: string)

  /** The column list and values behind the opening parenthesis. */
  function MatchBody(table: string, s: string): Option<Insert> {
    var list := TakeWhile(NotClosing, s);
    var rest := s[|list|..];
    if list == "" || !StartsFolded(rest, VALUES) || |rest| <= |VALUES| || rest[|rest| - 1] != ')' then None
    else Some(Insert(table, list, rest[|VALUES|..|rest| - 1]))
  }

  /** A quoted table name, then the column list. */
  function MatchNamed(rest: string): Option<Insert>
    requires rest != ""
  {
    var name := TakeWhile(FoldedNameChar, rest[1..]);
    var behind := rest[1 + |name|..];
    if name == "" || IsDigit(name[0]) || behind == "" || behind[0] != '"' then None
    else
      var open := TrimLeft(behind[1..]);
      if open == "" || open[0] != '(' then None else MatchBody(name, open[1..])
  }

  function MatchInsert(s: string): Option<Insert> {
    if !StartsFolded(s, INSERT) then None
    else
      var rest := s[|INSERT|..];
      if rest != "" && rest[0] == '"' then MatchNamed(rest)
      else if StartsFolded(rest, SEQUENCE) && |rest| > |SEQUENCE| && rest[|SEQUENCE|] == '(' then
        MatchBody(rest[..|SEQUENCE|], rest[|SEQUENCE| + 1..])
      else None
  }

  function RowOf(table: string, columns: seq<string>, values: Option<seq<Cell>>): Option<Row> {
    if values.None? || !(forall i :: 0 <= i < |columns| ==> IsIdentifier(columns[i])) then None
    else if |values.value| != |columns| || !Distinct(columns) then None
    else Some(Row(table, columns, values.value))
  }

  function ParseInsert(s: string): Option<Row> {
    var insert := MatchInsert(s);
    if insert.None? then None
    else RowOf(insert.value.table, ColumnNames(SplitCommas(insert.value.list)), ParseCells(insert.value.data))
  }

  /** Statements that carry no rows. */
  predicate Skipped(s: string) {
    || s == ""
    || (StartsFolded(s, "PRAGMA foreign_keys=OFF") && |s| == |"PRAGMA foreign_keys=OFF"|)
    || IsCreate(s, "CREATE TABLE") || IsCreate(s, "CREATE INDEX") || IsCreate(s, "CREATE UNIQUE INDEX")
    || s == "DELETE FROM sqlite_sequence"
  }

  /** The keyword ends at a word boundary. */
  predicate IsCreate(s: string, keyword: string) {
    StartsFolded(s, keyword) && (|s| == |keyword| || !IsNameChar(Lower(s[|keyword|])))
  }

  function ParseStatements(statements: seq<string>): Option<seq<Row>> {
    if statements == [] then Some([])
    else if Skipped(statements[0]) then ParseStatements(statements[1..])
    else
      var row := ParseInsert(statements[0]);
      var more := ParseStatements(statements[1..]);
      if row.None? || more.None? then None else Some([row.value] + more.value)
  }

  /** `parseBackupRows` */
  function Parse(sql: string): Option<seq<Row>> {
    var statements := Split(sql, Outside, "");
    if statements.None? then None else ParseStatements(statements.value)
  }

  // ---------- the round trip of one row ----------

  /** A row that the export may hold. */
  ghost predicate AllowedRow(row: Row) {
    && IsIdentifier(row.table)
    && |row.columns| == |row.values| > 0 && Distinct(row.columns)
    && (forall i :: 0 <= i < |row.columns| ==> IsIdentifier(row.columns[i]))
    && (forall i :: 0 <= i < |row.values| ==> AllowedCell(row.values[i]))
  }

  lemma {:induction false} DoubleOther(q: char, s: string)
    requires q !in s
    ensures Double(q, s) == s
  {
    if s != "" { DoubleOther(q, s[1..]); }
  }

  lemma NameChars(name: string)
    requires IsIdentifier(name)
    ensures ',' !in name && ')' !in name && '"' !in name && Tight(name)
  {
    assert forall c :: c in name ==> IsNameChar(c);
    assert IsNameChar(name[0]) && IsNameChar(name[|name| - 1]);
  }

  lemma NameQuotes(name: string)
    requires IsIdentifier(name)
    ensures QuoteName(name) == ['"'] + name + ['"'] && Tight(QuoteName(name))
    ensures ',' !in QuoteName(name) && ')' !in QuoteName(name)
  {
    NameChars(name);
    DoubleOther('"', name);
  }

  lemma NameUnquotes(name: string)
    requires IsIdentifier(name)
    ensures Unquoted(Trim(QuoteName(name))) == name && Unquoted(Trim(name)) == name
  {
    NameChars(name);
    NameQuotes(name);
    TrimTight("", QuoteName(name));
    TrimTight("", name);
    assert QuoteName(name)[1..|QuoteName(name)| - 1] == name;
  }

  /** A column list as printed, quoted or not. */
  predicate IsColumnList(parts: seq<string>, columns: seq<string>) {
    |parts| == |columns| && forall i :: 0 <= i < |parts| ==> parts[i] == columns[i] || parts[i] == QuoteName(columns[i])
  }

  lemma {:induction false} ListHasNoClosing(parts: seq<string>)
    requires forall i :: 0 <= i < |parts| ==> ')' !in parts[i]
    ensures ')' !in JoinCommas(parts)
  {
    if |parts| > 1 { ListHasNoClosing(parts[1..]); }
  }

  lemma JoinNotEmpty(parts: seq<string>)
    requires parts != [] && parts[0] != ""
    ensures JoinCommas(parts) != ""
  {
  }

  lemma ColumnsRoundTrip(parts: seq<string>, columns: seq<string>)
    requires IsColumnList(parts, columns) && columns != [] && forall i :: 0 <= i < |columns| ==>
      IsIdentifier(columns[i])
    ensures ColumnNames(SplitCommas(JoinCommas(parts))) == columns
    ensures JoinCommas(parts) != "" && ')' !in JoinCommas(parts)
  {
    forall i | 0 <= i < |parts|
      ensures ',' !in parts[i] && ')' !in parts[i] && Unquoted(Trim(parts[i])) == columns[i] && parts[i] != "" {
      NameQuotes(columns[i]);
      NameChars(columns[i]);
      NameUnquotes(columns[i]);
    }
    SplitJoined(parts);
    ListHasNoClosing(parts);
    JoinNotEmpty(parts);
  }

  lemma NotClosingAll(list: string)
    requires ')' !in list
    ensures forall i :: 0 <= i < |list| ==> NotClosing(list[i])
  {
    forall i | 0 <= i < |list| ensures NotClosing(list[i]) { assert list[i] in list; }
  }

  lemma MatchTail(table: string, list: string, values: string, tail: string)
    requires list != "" && ')' !in list && tail == VALUES + values + ")"
    ensures MatchBody(table, list + tail) == Some(Insert(table, list, values))
  {
    NotClosingAll(list);
    TakeWhileStops(NotClosing, list, tail);
    hide TakeWhile;
    assert (list + tail)[|list|..] == tail;
    assert tail[|VALUES|..|tail| - 1] == values;
  }

  lemma BodyMatches(table: string, parts: seq<string>, row: Row)
    requires AllowedRow(row) && IsColumnList(parts, row.columns)
    ensures MatchBody(table, ListText(parts, row.values)) ==
            Some(Insert(table, JoinCommas(parts), JoinCommas(Literals(row.values))))
  {
    ColumnsRoundTrip(parts, row.columns);
    hide JoinCommas, Literals, IsColumnList, ColumnNames, SplitCommas, AllowedRow, MatchBody;
    var list := JoinCommas(parts);
    var values := JoinCommas(Literals(row.values));
    var tail := VALUES + values + ")";
    MatchTail(table, list, values, tail);
    Grouped(list, VALUES, values, ")");
  }

  lemma Grouped(a: string, b: string, c: string, d: string)
    ensures a + b + c + d == a + (b + c + d)
  {
  }

  lemma BodyRoundTrip(table: string, parts: seq<string>, row: Row)
    requires AllowedRow(row) && IsColumnList(parts, row.columns)
    ensures RowOf(table, ColumnNames(SplitCommas(JoinCommas(parts))), ParseCells(JoinCommas(Literals(row.values)))) ==
            if AllReadBack(row.values) then Some(Row(table, row.columns, row.values)) else None
  {
    ColumnsRoundTrip(parts, row.columns);
    CellsRoundTrip(row.values);
  }

  lemma NamesAreList(columns: seq<string>)
    ensures IsColumnList(Names(columns), columns) && IsColumnList(columns, columns)
  {
  }

  lemma OpenBody(name: string, behind: string, body: string)
    requires behind == "\" (" + body
    ensures TrimLeft(behind[1..]) == "(" + body && ("(" + body)[1..] == body
  {
    assert behind[1..] == " " + ("(" + body);
    TrimLeftSpace(" ", "(" + body);
  }

  lemma NameBehind(name: string, behind: string)
    requires IsIdentifier(name) && behind != "" && behind[0] == '"'
    ensures TakeWhile(FoldedNameChar, name + behind) == name
  {
    TakeWhileStops(FoldedNameChar, name, behind);
  }

  lemma MatchQuotedTable(name: string, body: string)
    requires IsIdentifier(name)
    ensures MatchNamed(['"'] + name + ['"'] + " (" + body) == MatchBody(name, body)
  {
    var rest := ['"'] + name + ['"'] + " (" + body;
    var behind := "\" (" + body;
    NameBehind(name, behind);
    OpenBody(name, behind, body);
    hide TakeWhile, TrimLeft, MatchBody;
    assert rest[1..] == name + behind;
    assert rest[1 + |name|..] == behind;
  }

  lemma MatchSequence(body: string)
    ensures MatchInsert(INSERT + (SEQUENCE + "(" + body)) == MatchBody(SEQUENCE, body)
  {
    hide MatchBody, MatchNamed;
    var rest := SEQUENCE + "(" + body;
    assert (INSERT + rest)[|INSERT|..] == rest;
    assert rest[..|SEQUENCE|] == SEQUENCE && rest[|SEQUENCE| + 1..] == body;
  }

  lemma MatchRest(rest: string)
    requires rest != "" && rest[0] == '"'
    ensures MatchInsert(INSERT + rest) == MatchNamed(rest)
  {
    hide MatchBody, MatchNamed;
    assert (INSERT + rest)[|INSERT|..] == rest;
  }

  lemma MatchQuoted(name: string, body: string)
    requires IsIdentifier(name)
    ensures MatchInsert(INSERT + (QuoteName(name) + " (" + body)) == MatchBody(name, body)
  {
    NameQuotes(name);
    MatchQuotedTable(name, body);
    hide MatchBody, MatchNamed, MatchInsert, QuoteName, IsIdentifier;
    var rest := QuoteName(name) + " (" + body;
    assert rest[0] == '"';
    MatchRest(rest);
  }

  /** Reading a printed row gives back the row, exactly if it holds no unsafe integer. */
  lemma InsertRoundTrip(row: Row)
    requires AllowedRow(row)
    ensures ParseInsert(InsertText(row)) == if AllReadBack(row.values) then Some(row) else None
  {
    hide MatchInsert, MatchBody, RowOf, ListText, ParseCells, ColumnNames, SplitCommas, QuoteName;
    NamesAreList(row.columns);
    if row.table == SEQUENCE {
      MatchSequence(ListText(row.columns, row.values));
      assert InsertText(row) == INSERT + (SEQUENCE + "(" + ListText(row.columns, row.values));
      BodyMatches(SEQUENCE, row.columns, row);
      BodyRoundTrip(SEQUENCE, row.columns, row);
    } else {
      MatchQuoted(row.table, ListText(Names(row.columns), row.values));
      BodyMatches(row.table, Names(row.columns), row);
      BodyRoundTrip(row.table, Names(row.columns), row);
    }
  }
}
