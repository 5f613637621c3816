/**
 The scanning loops of `parseBackupRows` (archive.ts), each proved against the function that
 DumpCodec gives it.
 */
module BackupReader {
  import opened Common
  import opened Text
  import opened DumpCodec

  function Join<T>(xs: seq<T>, more: Option<seq<T>>): Option<seq<T>> {
    if more.None? then None else Some(xs + more.value)
  }

  lemma JoinStep<T>(xs: seq<T>, x: T, more: Option<seq<T>>)
    ensures Join(xs, if more.None? then None else Some([x] + more.value)) == Join(xs + [x], more)
  {
    if more.Some? { assert xs + ([x] + more.value) == xs + [x] + more.value; }
  }

  lemma JoinNone<T>(more: Option<seq<T>>)
    ensures Join([], more) == more
  {
    if more.Some? { assert [] + more.value == more.value; }
  }

  /** Behind a closing quote, a character other than that quote is read as outside. */
  lemma BehindIsOutside(s: string, q: char, current: string)
    requires s == "" || s[0] != q
    ensures Split(s, Behind(q), current) == Split(s, Outside, current)
  {
  }

  /** One character that ends no statement. */
  lemma SplitStep(sql: string, start: nat, i: nat, st: Scan)
    requires start <= i < |sql| && !Ends(st, sql[i])
    ensures Split(sql[i..], st, sql[start..i]) == Split(sql[i + 1..], Next(st, sql[i]), sql[start..i + 1])
  {
    assert sql[i..][1..] == sql[i + 1..] && sql[start..i] + [sql[i]] == sql[start..i + 1];
  }

  /** One character that ends a statement. */
  lemma SplitEnd(sql: string, start: nat, i: nat)
    requires start <= i < |sql| && sql[i] == ';'
    ensures Split(sql[i..], Outside, sql[start..i]) ==
            var rest := Split(sql[i + 1..], Outside, sql[i + 1..i + 1]);
            if rest.None? then None else Some([Trim(sql[start..i])] + rest.value)
  {
    assert sql[i..][1..] == sql[i + 1..] && sql[i + 1..i + 1] == "";
  }

  /** The end of the text. */
  lemma SplitOver(sql: string, start: nat, st: Scan)
    requires start <= |sql|
    ensures Split(sql[|sql|..], st, sql[start..]) == if st.Inside? || Trim(sql[start..]) != "" then None else Some([])
  {
  }

  function StateOf(quoted: Option<char>): Scan {
    if quoted.None? then Outside else Inside(quoted.value)
  }

  method SplitStatements(sql: string) returns (statements: Option<seq<string>>)
    ensures statements == Split(sql, Outside, "")
  {
    var found: seq<string> := [];
    var start, i := 0, 0;
    var quoted: Option<char> := None;
    assert sql[0..] == sql && sql[0..0] == "";
    JoinNone(Split(sql, Outside, ""));
    while i < |sql|
      invariant 0 <= start <= i <= |sql| && (quoted.Some? ==> IsQuote(quoted.value))
      invariant Split(sql, Outside, "") == Join(found, Split(sql[i..], StateOf(quoted), sql[start..i]))
    {
      hide Split, Join, Trim;
      var c := sql[i];
      if quoted.Some? {
        SplitStep(sql, start, i, StateOf(quoted));
        if c == quoted.value {
          if i + 1 < |sql| && sql[i + 1] == quoted.value {
            SplitStep(sql, start, i + 1, Behind(c));
            i := i + 1;
          } else {
            BehindIsOutside(sql[i + 1..], c, sql[start..i + 1]);
            quoted := None;
          }
        }
      } else if IsQuote(c) {
        SplitStep(sql, start, i, Outside);
        quoted := Some(c);
      } else if c == ';' {
        SplitEnd(sql, start, i);
        JoinStep(found, Trim(sql[start..i]), Split(sql[i + 1..], Outside, sql[i + 1..i + 1]));
        found := found + [Trim(sql[start..i])];
        start := i + 1;
      } else {
        SplitStep(sql, start, i, Outside);
      }
      i := i + 1;
    }
    SplitOver(sql, start, StateOf(quoted));
    assert sql[i..] == "" && sql[start..] == sql[start..i];
    assert found + [] == found;
    if quoted.Some? || Trim(sql[start..]) != "" { return None; }
    statements := Some(found);
  }

  method SkipSpace(data: string, from: nat) returns (offset: nat)
    requires from <= |data|
    ensures from <= offset <= |data| && data[offset..] == TrimLeft(data[from..])
  {
    offset := from;
    while offset < |data| && IsSpace(data[offset])
      invariant offset <= |data| && from <= offset
      invariant TrimLeft(data[offset..]) == TrimLeft(data[from..])
    {
      assert data[offset..][1..] == data[offset + 1..];
      offset := offset + 1;
    }
  }

  function AddText(value: string, more: Option<(string, string)>): Option<(string, string)> {
    if more.None? then None else Some((value + more.value.0, more.value.1))
  }

  lemma UnquoteStep(data: string, i: nat, value: string)
    requires i < |data|
    ensures data[i] != '\'' ==>
              AddText(value, Unquote(data[i..])) == AddText(value + [data[i]], Unquote(data[i + 1..]))
    ensures data[i] == '\'' && i + 1 < |data| && data[i + 1] == '\'' ==>
              AddText(value, Unquote(data[i..])) == AddText(value + "'", Unquote(data[i + 2..]))
    ensures data[i] == '\'' && (i + 1 == |data| || data[i + 1] != '\'') ==>
              AddText(value, Unquote(data[i..])) == Some((value, data[i + 1..]))
  {
    var s := data[i..];
    assert s[1..] == data[i + 1..];
    if data[i] != '\'' {
      var more := Unquote(data[i + 1..]);
      if more.Some? { assert value + ([data[i]] + more.value.0) == value + [data[i]] + more.value.0; }
    } else if i + 1 < |data| && data[i + 1] == '\'' {
      assert s[2..] == data[i + 2..];
      var more := Unquote(data[i + 2..]);
      if more.Some? { assert value + (['\''] + more.value.0) == value + "'" + more.value.0; }
    } else {
      assert value + "" == value;
    }
  }

  /** The text from behind an opening quote to its closing quote. */
  method ReadQuoted(data: string, from: nat) returns (text: Option<string>, offset: nat)
    requires from <= |data|
    ensures from <= offset <= |data|
    ensures Unquote(data[from..]) == if text.None? then None else Some((text.value, data[offset..]))
  {
    offset := from;
    var value, closed := "", false;
    assert Unquote(data[from..]).Some? ==> "" + Unquote(data[from..]).value.0 == Unquote(data[from..]).value.0;
    while offset < |data| && !closed
      invariant from <= offset <= |data|
      invariant Unquote(data[from..]) == if closed then Some((value, data[offset..]))
        else AddText(value, Unquote(data[offset..]))
      decreases |data| - offset
    {
      UnquoteStep(data, offset, value);
      if data[offset] == '\'' {
        if offset + 1 < |data| && data[offset + 1] == '\'' {
          value, offset := value + "'", offset + 2;
        } else {
          offset, closed := offset + 1, true;
        }
      } else {
        value, offset := value + [data[offset]], offset + 1;
      }
    }
    text := if closed then Some(value) else None;
  }

  /** One value, read where white space ends. */
  method ReadCell(data: string, from: nat) returns (cell: Option<Cell>, offset: nat)
    requires from < |data|
    ensures from <= offset <= |data|
    ensures FirstCell(data[from..]) == if cell.None? then None else Some((cell.value, data[offset..]))
  {
    offset := from;
    if data[offset] == '\'' {
      assert data[from..][1..] == data[from + 1..];
      var text;
      text, offset := ReadQuoted(data, offset + 1);
      cell := if text.None? then None else Some(Str(text.value));
    } else {
      var token := TakeWhile(NotComma, data[offset..]);
      cell := CellOf(Trim(token));
      assert data[from..][|token|..] == data[from + |token|..];
      offset := offset + |token|;
    }
  }

  /** What follows one value. */
  lemma CellsAt(data: string, here: nat, value: nat, cell: Option<Cell>, behind: nat, rest: nat)
    requires here < |data| && here <= value <= |data| && data[value..] == TrimLeft(data[here..])
    requires value < |data| ==> value <= behind <= |data| && FirstCell(data[value..]) == if cell.None? then None
      else Some((cell.value, data[behind..]))
    requires value < |data| && cell.Some? ==> behind <= rest <= |data| && data[rest..] == TrimLeft(data[behind..])
    ensures value == |data| || cell.None? ==> ParseCells(data[here..]) == None
    ensures value < |data| && cell.Some? && rest == |data| ==> ParseCells(data[here..]) == Some([cell.value])
    ensures value < |data| && cell.Some? && rest < |data| && (data[rest] != ',' || Trim(data[rest + 1..]) == "") ==>
              ParseCells(data[here..]) == None
    ensures value < |data| && cell.Some? && rest < |data| && data[rest] == ',' && Trim(data[rest + 1..]) != "" ==>
              ParseCells(data[here..]) ==
              if ParseCells(data[rest + 1..]).None? then None
                else Some([cell.value] + ParseCells(data[rest + 1..]).value)
  {
    if value < |data| && cell.Some? && rest < |data| { assert data[rest..][1..] == data[rest + 1..]; }
  }

  method ReadCells(data: string) returns (cells: Option<seq<Cell>>)
    ensures cells == ParseCells(data)
  {
    var values: seq<Cell> := [];
    var offset := 0;
    assert data[0..] == data;
    JoinNone(ParseCells(data));
    while offset < |data|
      invariant 0 <= offset <= |data|
      invariant ParseCells(data) == Join(values, ParseCells(data[offset..]))
    {
      hide ParseCells, FirstCell, TrimLeft, Trim;
      var here := offset;
      offset := SkipSpace(data, offset);
      if offset == |data| {
        CellsAt(data, here, offset, None, offset, offset);
        return None;
      }
      var value := offset;
      var cell;
      cell, offset := ReadCell(data, offset);
      if cell.None? {
        CellsAt(data, here, value, cell, offset, offset);
        return None;
      }
      var behind := offset;
      offset := SkipSpace(data, offset);
      CellsAt(data, here, value, cell, behind, offset);
      if offset < |data| {
        if data[offset] != ',' || Trim(data[offset + 1..]) == "" { return None; }
        offset := offset + 1;
        JoinStep(values, cell.value, ParseCells(data[offset..]));
      } else {
        LastCell(values, cell.value, data[offset..]);
      }
      values := values + [cell.value];
    }
    assert data[offset..] == "" && values + [] == values;
    cells := Some(values);
  }

  lemma LastCell(values: seq<Cell>, c: Cell, rest: string)
    requires rest == ""
    ensures Join(values, Some([c])) == Join(values + [c], ParseCells(rest))
  {
    assert values + [c] + [] == values + [c];
  }

  method ReadRow(statement: string) returns (row: Option<Row>)
    ensures row == ParseInsert(statement)
  {
    var insert := MatchInsert(statement);
    if insert.None? { return None; }
    var values := ReadCells(insert.value.data);
    row := RowOf(insert.value.table, ColumnNames(SplitCommas(insert.value.list)), values);
  }

  lemma ParseStep(statements: seq<string>, i: nat)
    requires i < |statements|
    ensures ParseStatements(statements[i..]) ==
            if Skipped(statements[i]) then ParseStatements(statements[i + 1..])
            else
              var row := ParseInsert(statements[i]);
              var more := ParseStatements(statements[i + 1..]);
              if row.None? || more.None? then None else Some([row.value] + more.value)
  {
    hide Skipped, ParseInsert;
    assert statements[i..][1..] == statements[i + 1..];
  }

  lemma NoneParse()
    ensures ParseStatements([]) == Some([])
  {
  }

  /** `parseBackupRows`: nothing is returned for a text that is cut short or holds any other statement. */
  method ParseBackupRows(sql: string) returns (result: Option<seq<Row>>)
    ensures result == Parse(sql)
  {
    var found := SplitStatements(sql);
    if found.None? { return None; }
    var statements := found.value;
    var rows: seq<Row> := [];
    var i := 0;
    assert statements[0..] == statements;
    hide Skipped, ParseInsert, ParseStatements;
    JoinNone(ParseStatements(statements));
    while i < |statements|
      invariant 0 <= i <= |statements|
      invariant ParseStatements(statements) == Join(rows, ParseStatements(statements[i..]))
    {
      ParseStep(statements, i);
      if !Skipped(statements[i]) {
        var row := ReadRow(statements[i]);
        if row.None? { return None; }
        JoinStep(rows, row.value, ParseStatements(statements[i + 1..]));
        rows := rows + [row.value];
      }
      i := i + 1;
    }
    assert statements[i..] == [] && rows + [] == rows;
    NoneParse();
    result := Some(rows);
  }
}
