/**
 The SQL text of a whole upgrade backup (`dumpDatabase` in upgrade-checkpoint.ts) and what
 `parseBackupRows` in archive.ts reads back from it, with the reader's two scanning loops.
 */
module DumpRoundTrip {
  import opened Common
  import opened Text
  import opened DumpCodec
  import opened Numbers

  const PRAGMA := "PRAGMA foreign_keys=OFF"
  const RESET := "DELETE FROM sqlite_sequence"

  datatype Table = Table(definition: string, rows: seq<Row>)

  /** Every statement ends its line. */
  function Lines(statements: seq<string>): string {
    if statements == [] then "" else statements[0] + ";\n" + Lines(statements[1..])
  }

  /** Statements separated by line ends. */
  function Joined(statements: seq<string>): string {
    if statements == [] then ""
    else if |statements| == 1 then statements[0] + ";"
    else statements[0] + ";\n" + Joined(statements[1..])
  }

  function Inserts(rows: seq<Row>): seq<string> {
    if rows == [] then [] else [InsertText(rows[0])] + Inserts(rows[1..])
  }

  lemma {:induction false} InsertsAt(rows: seq<Row>)
    ensures |Inserts(rows)| == |rows| && forall i :: 0 <= i < |rows| ==> Inserts(rows)[i] == InsertText(rows[i])
  {
    hide InsertText;
    if rows != [] {
      InsertsAt(rows[1..]);
      forall i | 0 <= i < |rows| ensures Inserts(rows)[i] == InsertText(rows[i]) {
        if i > 0 { assert rows[1..][i - 1] == rows[i]; }
      }
    }
  }

  function TableStatements(tables: seq<Table>): seq<string> {
    if tables == [] then []
    else [tables[0].definition] + Inserts(tables[0].rows) + TableStatements(tables[1..])
  }

  /** The text that the exported parts add up to. */
  function DumpText(tables: seq<Table>, indexes: seq<string>, sequences: seq<Row>): string {
    Lines([PRAGMA] + TableStatements(tables)) + Tail(indexes, RESET, Inserts(sequences))
  }

  function TableRows(tables: seq<Table>): seq<Row> {
    if tables == [] then [] else tables[0].rows + TableRows(tables[1..])
  }

  // ---------- statements are recovered ----------

  predicate Statement(s: string) { Closed(s) && Tight(s) }

  predicate Statements(ss: seq<string>) { forall i :: 0 <= i < |ss| ==> Statement(ss[i]) }

  function Before(ss: seq<string>, more: Option<seq<string>>): Option<seq<string>> {
    if more.None? then None else Some(ss + more.value)
  }

  lemma {:induction false} LinesSplit(space: string, ss: seq<string>, rest: string)
    requires AllSpace(space) && Statements(ss)
    ensures Split(space + Lines(ss) + rest, Outside, "") ==
      Before(ss, Split((if ss == [] then space else "\n") + rest, Outside, ""))
    decreases |ss|
  {
    if ss == [] {
      assert space + Lines(ss) + rest == space + rest;
      if Split(space + rest, Outside, "").Some? {
        assert ss + Split(space + rest, Outside, "").value == Split(space + rest, Outside, "").value;
      }
    } else {
      var tail := "\n" + Lines(ss[1..]) + rest;
      assert space + Lines(ss) + rest == space + ss[0] + ";" + tail;
      StatementSplits(space, ss[0], tail);
      LinesSplit("\n", ss[1..], rest);
      assert [ss[0]] + ss[1..] == ss;
      var more := Split("\n" + rest, Outside, "");
      if more.Some? { assert [ss[0]] + (ss[1..] + more.value) == ss + more.value; }
    }
  }

  lemma BeforeJoins(s: string, ss: seq<string>, more: Option<seq<string>>)
    requires ss != [] && ss[0] == s
    ensures Before([s], Before(ss[1..], more)) == Before(ss, more)
  {
    assert [s] + ss[1..] == ss;
    if more.Some? { assert [s] + (ss[1..] + more.value) == ss + more.value; }
  }

  lemma BeforeNothing(more: Option<seq<string>>)
    ensures Before([], more) == more
  {
    if more.Some? { assert [] + more.value == more.value; }
  }

  lemma JoinedOne(space: string, s: string, rest: string)
    ensures space + Joined([s]) + rest == space + s + ";" + rest
  {
  }

  lemma Regroup(space: string, s: string, joined: string, rest: string)
    ensures space + (s + ";\n" + joined) + rest == space + s + ";" + ("\n" + joined + rest)
  {
  }

  lemma NoneJoined(space: string, rest: string)
    ensures space + Joined([]) + rest == space + rest
  {
  }

  lemma {:induction false} JoinedSplit(space: string, ss: seq<string>, rest: string)
    requires AllSpace(space) && Statements(ss)
    ensures Split(space + Joined(ss) + rest, Outside, "") ==
      Before(ss, Split(if ss == [] then space + rest else rest, Outside, ""))
    decreases |ss|
  {
    hide Split, Joined, Before, Closed, Tight;
    if ss == [] {
      NoneJoined(space, rest);
      BeforeNothing(Split(space + rest, Outside, ""));
    } else {
      if |ss| == 1 {
        assert ss == [ss[0]];
        JoinedOne(space, ss[0], rest);
        StatementSplits(space, ss[0], rest);
        BeforeNothing(Split(rest, Outside, ""));
      } else {
        var tail := "\n" + Joined(ss[1..]) + rest;
        JoinedMore(ss);
        Regroup(space, ss[0], Joined(ss[1..]), rest);
        StatementSplits(space, ss[0], tail);
        JoinedSplit("\n", ss[1..], rest);
      }
      OneBefore(ss[0], Split(if |ss| == 1 then rest else "\n" + Joined(ss[1..]) + rest, Outside, ""));
      BeforeJoins(ss[0], ss, Split(rest, Outside, ""));
    }
  }

  lemma JoinedMore(ss: seq<string>)
    requires |ss| > 1
    ensures Joined(ss) == ss[0] + ";\n" + Joined(ss[1..])
  {
  }

  lemma OneBefore(s: string, more: Option<seq<string>>)
    ensures Before([s], more) == if more.None? then None else Some([s] + more.value)
  {
  }

  lemma BlankSplit(space: string)
    requires AllSpace(space)
    ensures Split(space, Outside, "") == Some([])
  {
    PlainWalk(space);
    SplitWalk(space, "", Outside, "");
    assert space + "" == space && "" + space == space;
    TrimAllSpace(space);
  }

  /** The end of a backup: the indexes, the reset and the sequence rows. */
  function Tail(indexes: seq<string>, reset: string, last: seq<string>): string {
    Joined(indexes) + ("\n" + (reset + ";" + ("\n" + Joined(last))))
  }

  lemma LastSplits(last: seq<string>)
    requires Statements(last)
    ensures Split("\n" + Joined(last), Outside, "") == Some(last)
  {
    JoinedSplit("\n", last, "");
    BlankSplit(if last == [] then "\n" else "");
    assert "\n" + Joined(last) + "" == "\n" + Joined(last) && "\n" + "" == "\n" && last + [] == last;
  }

  lemma ResetSplits(space: string, reset: string, last: seq<string>)
    requires AllSpace(space) && Statement(reset) && Statements(last)
    ensures Split(space + reset + ";" + ("\n" + Joined(last)), Outside, "") == Some([reset] + last)
  {
    LastSplits(last);
    StatementSplits(space, reset, "\n" + Joined(last));
  }

  lemma TailSplits(indexes: seq<string>, reset: string, last: seq<string>)
    requires Statements(indexes) && Statement(reset) && Statements(last)
    ensures Split("\n" + Tail(indexes, reset, last), Outside, "") == Some(indexes + ([reset] + last))
  {
    hide Split, Joined, Closed, Tight;
    var end := "\n" + Joined(last);
    var middle := "\n" + (reset + ";" + end);
    assert "\n" + Tail(indexes, reset, last) == "\n" + Joined(indexes) + middle;
    JoinedSplit("\n", indexes, middle);
    if indexes == [] {
      ResetSplits("\n\n", reset, last);
      assert "\n" + middle == "\n\n" + reset + ";" + end;
    } else {
      ResetSplits("\n", reset, last);
      assert middle == "\n" + reset + ";" + end;
    }
  }

  lemma TextSplits(first: seq<string>, indexes: seq<string>, reset: string, last: seq<string>)
    requires first != [] && Statements(first) && Statements(indexes) && Statement(reset) && Statements(last)
    ensures Split(Lines(first) + Tail(indexes, reset, last), Outside, "") == Some(first + (indexes + ([reset] + last)))
  {
    LinesSplit("", first, Tail(indexes, reset, last));
    assert "" + Lines(first) + Tail(indexes, reset, last) == Lines(first) + Tail(indexes, reset, last);
    TailSplits(indexes, reset, last);
  }

  // ---------- a printed row is one statement ----------

  lemma OpenThenClosed(a: string, b: string)
    requires Walk(a, Outside) == Some(Outside) && Closed(b)
    ensures Closed(a + b)
  {
    WalkConcat(a, b, Outside);
  }

  lemma NamesClosed(columns: seq<string>)
    requires forall i :: 0 <= i < |columns| ==> IsIdentifier(columns[i])
    ensures Closed(JoinCommas(Names(columns))) && Closed(JoinCommas(columns))
  {
    forall i | 0 <= i < |columns| ensures Closed(Names(columns)[i]) && Closed(columns[i]) {
      QuotedWalk('"', columns[i]);
      assert Plain(columns[i]);
      PlainWalk(columns[i]);
    }
    JoinedClosed(Names(columns));
    JoinedClosed(columns);
  }

  lemma LiteralsClosed(values: seq<Cell>)
    requires forall i :: 0 <= i < |values| ==> AllowedCell(values[i])
    ensures Closed(JoinCommas(Literals(values)))
  {
    hide Closed, AllowedCell, Literal, JoinCommas;
    forall i | 0 <= i < |values| ensures Closed(Literals(values)[i]) { LiteralClosed(values[i]); }
    JoinedClosed(Literals(values));
  }

  lemma ListClosed(start: string, parts: seq<string>, values: seq<Cell>)
    requires Walk(start, Outside) == Some(Outside) && Closed(JoinCommas(parts))
    requires forall i :: 0 <= i < |values| ==> AllowedCell(values[i])
    ensures Closed(start + ListText(parts, values))
  {
    LiteralsClosed(values);
    hide Walk, Closed, AllowedCell, Literals, JoinCommas, ListText;
    var list := JoinCommas(parts);
    var texts := JoinCommas(Literals(values));
    OpenThenClosed(start, list);
    assert Plain(VALUES);
    ClosedThenPlain(start + list, VALUES);
    OpenThenClosed(start + list + VALUES, texts);
    ClosedThenPlain(start + list + VALUES + texts, ")");
    ListParts(start, parts, values);
  }

  lemma ListParts(start: string, parts: seq<string>, values: seq<Cell>)
    ensures start + ListText(parts, values) == start + JoinCommas(parts) + VALUES + JoinCommas(Literals(values)) + ")"
  {
    hide JoinCommas, Literals;
    Regrouped(start, JoinCommas(parts), VALUES, JoinCommas(Literals(values)), ")");
  }

  lemma Regrouped(a: string, b: string, c: string, d: string, e: string)
    ensures a + (b + c + d + e) == a + b + c + d + e
  {
  }

  lemma NamedStart(insert: string, name: string)
    requires Plain(insert)
    ensures Walk(insert + QuoteName(name) + " (", Outside) == Some(Outside)
  {
    QuotedWalk('"', name);
    PlainWalk(insert);
    OpenThenClosed(insert, QuoteName(name));
    ClosedThenPlain(insert + QuoteName(name), " (");
  }

  lemma PlainStart()
    ensures Plain(INSERT) && Walk(INSERT + (SEQUENCE + "("), Outside) == Some(Outside)
  {
    PlainWalk(INSERT + (SEQUENCE + "("));
  }

  lemma SequenceText(row: Row)
    requires row.table == SEQUENCE
    ensures InsertText(row) == INSERT + (SEQUENCE + "(") + ListText(row.columns, row.values)
  {
  }

  lemma NamedText(row: Row)
    requires row.table != SEQUENCE
    ensures InsertText(row) == INSERT + QuoteName(row.table) + " (" + ListText(Names(row.columns), row.values)
  {
    TextIsNamed(INSERT, QuoteName(row.table), ListText(Names(row.columns), row.values));
  }

  lemma InsertClosed(row: Row)
    requires AllowedRow(row)
    ensures Closed(InsertText(row))
  {
    NamesClosed(row.columns);
    PlainStart();
    hide Walk, Closed, InsertText, ListText, QuoteName, AllowedCell, IsIdentifier, Plain;
    if row.table == SEQUENCE {
      SequenceText(row);
      ListClosed(INSERT + (SEQUENCE + "("), row.columns, row.values);
    } else {
      NamedText(row);
      NamedStart(INSERT, row.table);
      ListClosed(INSERT + QuoteName(row.table) + " (", Names(row.columns), row.values);
    }
  }

  lemma TextIsNamed(insert: string, name: string, list: string)
    ensures insert + (name + " (" + list) == insert + name + " (" + list
  {
  }

  lemma InsertEnds(row: Row)
    ensures InsertText(row) != "" && InsertText(row)[0] == 'I' && InsertText(row)[|InsertText(row)| - 1] == ')'
  {
  }

  /** A printed row is one statement, and one that is read as a row. */
  lemma InsertIsStatement(row: Row)
    requires AllowedRow(row)
    ensures Statement(InsertText(row)) && !Skipped(InsertText(row))
  {
    InsertClosed(row);
    InsertEnds(row);
  }

  lemma InsertsAreStatements(rows: seq<Row>)
    requires forall i :: 0 <= i < |rows| ==> AllowedRow(rows[i])
    ensures Statements(Inserts(rows))
  {
    hide InsertText, Statement, AllowedRow;
    InsertsAt(rows);
    forall i | 0 <= i < |rows| ensures Statement(Inserts(rows)[i]) { InsertIsStatement(rows[i]); }
  }

  // ---------- rows are recovered ----------

  /** No row holds an integer that is not safe. */
  predicate RowsReadBack(rows: seq<Row>) {
    forall i :: 0 <= i < |rows| ==> AllReadBack(rows[i].values)
  }

  lemma ReadBackConcat(a: seq<Row>, b: seq<Row>)
    ensures RowsReadBack(a + b) <==> RowsReadBack(a) && RowsReadBack(b)
  {
    hide AllReadBack;
    if RowsReadBack(a + b) {
      forall i | 0 <= i < |a| ensures AllReadBack(a[i].values) { assert a[i] == (a + b)[i]; }
      forall i | 0 <= i < |b| ensures AllReadBack(b[i].values) { assert b[i] == (a + b)[|a| + i]; }
    }
  }

  /** Rows behind which more follow. */
  function Followed(rows: seq<Row>, more: Option<seq<Row>>): Option<seq<Row>> {
    if !RowsReadBack(rows) || more.None? then None else Some(rows + more.value)
  }

  lemma FollowedTwice(a: seq<Row>, b: seq<Row>, more: Option<seq<Row>>)
    ensures Followed(a, Followed(b, more)) == Followed(a + b, more)
  {
    ReadBackConcat(a, b);
    hide RowsReadBack;
    if more.Some? { assert a + (b + more.value) == a + b + more.value; }
  }

  lemma NoneFollowed(more: Option<seq<Row>>)
    ensures Followed([], more) == more && (RowsReadBack([]))
  {
    if more.Some? { assert [] + more.value == more.value; }
  }

  lemma RowParses(s: string, row: Row, rest: seq<string>)
    requires !Skipped(s) && ParseInsert(s) == if AllReadBack(row.values) then Some(row) else None
    ensures ParseStatements([s] + rest) == Followed([row], ParseStatements(rest))
  {
    hide AllReadBack, Skipped, ParseInsert;
    assert RowsReadBack([row]) <==> AllReadBack([row][0].values);
    assert ([s] + rest)[1..] == rest;
  }

  lemma {:induction false} InsertsParse(rows: seq<Row>, rest: seq<string>)
    requires forall i :: 0 <= i < |rows| ==> AllowedRow(rows[i])
    ensures ParseStatements(Inserts(rows) + rest) == Followed(rows, ParseStatements(rest))
  {
    hide InsertText, AllowedRow, ParseStatements, Statement, Skipped, ParseInsert, Followed, AllReadBack;
    if rows == [] {
      assert Inserts(rows) + rest == rest;
      NoneFollowed(ParseStatements(rest));
    } else {
      InsertsParse(rows[1..], rest);
      InsertIsStatement(rows[0]);
      InsertRoundTrip(rows[0]);
      RowParses(InsertText(rows[0]), rows[0], Inserts(rows[1..]) + rest);
      InsertsHead(rows, rest);
      FollowedTwice([rows[0]], rows[1..], ParseStatements(rest));
      assert [rows[0]] + rows[1..] == rows;
    }
  }

  lemma InsertsHead(rows: seq<Row>, rest: seq<string>)
    requires rows != []
    ensures Inserts(rows) + rest == [InsertText(rows[0])] + (Inserts(rows[1..]) + rest)
  {
    hide InsertText;
  }

  predicate Definition(s: string) { Statement(s) && Skipped(s) }

  lemma {:induction false} SkippedParse(ss: seq<string>, rest: seq<string>)
    requires forall i :: 0 <= i < |ss| ==> Skipped(ss[i])
    ensures ParseStatements(ss + rest) == ParseStatements(rest)
  {
    if ss == [] {
      assert ss + rest == rest;
    } else {
      assert (ss + rest)[1..] == ss[1..] + rest;
      SkippedParse(ss[1..], rest);
    }
  }

  /** What the export may hold: definitions that are complete statements, and allowed rows. */
  ghost predicate Exportable(tables: seq<Table>) {
    forall i :: 0 <= i < |tables| ==>
      Definition(tables[i].definition) && forall j :: 0 <= j < |tables[i].rows| ==> AllowedRow(tables[i].rows[j])
  }

  lemma TableParses(t: Table, rest: seq<string>)
    requires Exportable([t])
    ensures ParseStatements([t.definition] + (Inserts(t.rows) + rest)) == Followed(t.rows, ParseStatements(rest))
  {
    assert [t][0] == t;
    InsertsParse(t.rows, rest);
    SkippedParse([t.definition], Inserts(t.rows) + rest);
  }

  lemma {:induction false} TablesParse(tables: seq<Table>, rest: seq<string>)
    requires Exportable(tables)
    ensures ParseStatements(TableStatements(tables) + rest) == Followed(TableRows(tables), ParseStatements(rest))
  {
    hide ParseStatements, AllowedRow, Definition, Inserts, Followed, RowsReadBack;
    if tables == [] {
      assert TableStatements(tables) + rest == rest;
      NoneFollowed(ParseStatements(rest));
    } else {
      var t := tables[0];
      TablesParse(tables[1..], rest);
      TableParses(t, TableStatements(tables[1..]) + rest);
      assert TableStatements(tables) + rest ==
        [t.definition] + (Inserts(t.rows) + (TableStatements(tables[1..]) + rest));
      FollowedTwice(t.rows, TableRows(tables[1..]), ParseStatements(rest));
    }
  }

  lemma {:induction false} TablesAreStatements(tables: seq<Table>)
    requires Exportable(tables)
    ensures Statements(TableStatements(tables))
  {
    hide Closed, Tight, Skipped, AllowedRow, Inserts;
    if tables != [] {
      assert Definition(tables[0].definition);
      TablesAreStatements(tables[1..]);
      InsertsAreStatements(tables[0].rows);
    }
  }

  lemma PlainStatement(s: string)
    requires Plain(s) && Tight(s)
    ensures Statement(s)
  {
    PlainWalk(s);
  }

  lemma PragmaIsDefinition()
    ensures Definition(PRAGMA)
  {
    assert Plain(PRAGMA);
    PlainStatement(PRAGMA);
    SameStarts(PRAGMA);
  }

  lemma ResetIsDefinition()
    ensures Definition(RESET)
  {
    assert Plain(RESET);
    PlainStatement(RESET);
  }

  lemma SameStarts(s: string)
    ensures StartsFolded(s, s)
  {
  }

  lemma RowsParse(pragma: string, tables: seq<Table>, indexes: seq<string>, reset: string, sequences: seq<Row>)
    requires Exportable(tables) && Definition(pragma) && Definition(reset)
    requires forall i :: 0 <= i < |indexes| ==> Definition(indexes[i])
    requires forall i :: 0 <= i < |sequences| ==> AllowedRow(sequences[i])
    ensures ParseStatements([pragma] + TableStatements(tables) + (indexes + ([reset] + Inserts(sequences)))) ==
            if RowsReadBack(TableRows(tables) + sequences) then Some(TableRows(tables) + sequences) else None
  {
    ReadBackConcat(TableRows(tables), sequences);
    hide ParseStatements, AllowedRow, Statement, Skipped, Inserts, TableRows, TableStatements, Exportable, RowsReadBack;
    var last := Inserts(sequences);
    var end := indexes + ([reset] + last);
    SequencesParse(sequences);
    SkippedParse([reset], last);
    SkippedParse(indexes, [reset] + last);
    TablesParse(tables, end);
    SkippedParse([pragma], TableStatements(tables) + end);
    assert [pragma] + TableStatements(tables) + end == [pragma] + (TableStatements(tables) + end);
  }

  lemma SequencesParse(sequences: seq<Row>)
    requires forall i :: 0 <= i < |sequences| ==> AllowedRow(sequences[i])
    ensures ParseStatements(Inserts(sequences)) == if RowsReadBack(sequences) then Some(sequences) else None
  {
    hide AllowedRow, Inserts, RowsReadBack;
    InsertsParse(sequences, []);
    assert Inserts(sequences) + [] == Inserts(sequences) && sequences + [] == sequences;
  }

  /** Reading a backup's SQL gives exactly the rows that were printed, table by table, then the sequence rows,
      if none of them holds an integer that is not safe; otherwise the backup is refused as a whole. */
  lemma DumpRoundTrips(tables: seq<Table>, indexes: seq<string>, sequences: seq<Row>)
    requires Exportable(tables)
    requires forall i :: 0 <= i < |indexes| ==> Definition(indexes[i])
    requires forall i :: 0 <= i < |sequences| ==> AllowedRow(sequences[i])
    ensures Parse(DumpText(tables, indexes, sequences)) ==
            if RowsReadBack(TableRows(tables) + sequences) then Some(TableRows(tables) + sequences) else None
  {
    PragmaIsDefinition();
    ResetIsDefinition();
    hide Closed, Tight, Skipped, AllowedRow, Inserts, TableStatements, TableRows, ParseStatements, Split, Lines, Tail,
      Exportable,
      RowsReadBack;
    TablesAreStatements(tables);
    InsertsAreStatements(sequences);
    TextSplits([PRAGMA] + TableStatements(tables), indexes, RESET, Inserts(sequences));
    RowsParse(PRAGMA, tables, indexes, RESET, sequences);
  }

  const DEFINITION := "CREATE TABLE t(v)"

  /** A table whose only row holds the least integer that is not safe. */
  const UNREADABLE := [Table(DEFINITION, [Row("t", ["v"], [Float(Integer(PRECISION))])])]

  lemma DefinitionIsOne()
    ensures Definition(DEFINITION)
  {
    assert Plain(DEFINITION);
    PlainStatement(DEFINITION);
    BeginsAsCreated();
    hide Statement, IsCreate, StartsFolded;
  }

  lemma BeginsAsCreated()
    ensures IsCreate(DEFINITION, "CREATE TABLE")
  {
    assert DEFINITION == "CREATE TABLE" + " t(v)";
    assert forall i :: 0 <= i < |"CREATE TABLE"| ==> DEFINITION[i] == "CREATE TABLE"[i];
  }

  /** A backup that is printed and cannot be read: no other hypothesis of `DumpRoundTrips` fails. */
  lemma UnreadableBackup()
    ensures Exportable(UNREADABLE) && Parse(DumpText(UNREADABLE, [], [])) == None
  {
    LeastUnsafeInteger();
    DefinitionIsOne();
    hide AllowedCell, ReadsBack, Definition, Parse, DumpText, Integer;
    var row := Row("t", ["v"], [Float(Integer(PRECISION))]);
    assert IsIdentifier("t") && IsIdentifier("v") && AllowedRow(row);
    assert TableRows(UNREADABLE) == [row] by { assert UNREADABLE[1..] == [] && TableRows([]) == []; }
    assert !ReadsBack(row.values[0]) && !AllReadBack(row.values);
    assert ([row] + [])[0] == row;
    DumpRoundTrips(UNREADABLE, [], []);
  }
}
