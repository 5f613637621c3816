/**
 What the text of a restore query says (server-restore.ts): its statements are split at semicolons outside quotes,
 and each is read for its verb, its table, its columns and values, and the marker that its condition compares.
 Nothing here knows how the text was written; that a written text reads back as its statements is proved below.
 */
module RestoreSql {
  import opened Common
  import opened Text
  import opened Numbers
  import opened DumpCodec
  import D = DumpRoundTrip
  import opened RestoreBatches

  // ---------- reading ----------

  const SELECT := ") SELECT "
  const WHERE := " WHERE "

  /** The text behind a prefix. */
  function AfterPrefix(prefix: string, s: string): Option<string> {
    if prefix <= s then Some(s[|prefix|..]) else None
  }

  /** A string literal, and what follows it. */
  function ReadText(s: string): Option<(string, string)> {
    if s != "" && s[0] == '\'' then Unquote(s[1..]) else None
  }

  /** The value that the progress marker is compared to, and what follows it. */
  function ReadMarked(s: string): Option<(string, string)> {
    var key := ReadText(s);
    if key.None? || key.value.0 != "crate_restore_progress" then None
    else
      var rest := AfterPrefix(" AND value=", key.value.1);
      if rest.None? then None else ReadText(rest.value)
  }

  /** The marker that the guard compares. */
  function ReadGuard(s: string): Option<string> {
    var rest := AfterPrefix("EXISTS (SELECT 1 FROM " + "maintenance_state WHERE key=", s);
    var marker := if rest.None? then None else ReadMarked(rest.value);
    if marker.None? || marker.value.1 != ")" then None else Some(marker.value.0)
  }

  /** The text before and behind the first WHERE outside quotes. */
  function CutWhere(s: string, st: Scan): Option<(string, string)>
    decreases |s|
  {
    if s == "" then None
    else if !st.Inside? && WHERE <= s then Some(("", s[|WHERE|..]))
    else
      var more := CutWhere(s[1..], Next(st, s[0]));
      if more.None? then None else Some(([s[0]] + more.value.0, more.value.1))
  }

  function NotDoubleQuote(c: char): bool { c != '"' }

  /** A column list, the selected values and the guard, behind the table's opening parenthesis. */
  function ReadSelected(table: string, s: string): Option<Statement> {
    var list := TakeWhile(NotClosing, s);
    var rest := AfterPrefix(SELECT, s[|list|..]);
    var cut := if rest.None? then None else CutWhere(rest.value, Outside);
    if cut.None? then None
    else
      var row := RowOf(table, ColumnNames(SplitCommas(list)), ParseCells(cut.value.0));
      var marker := ReadGuard(cut.value.1);
      if row.None? || marker.None? then None else Some(InsertRow(row.value, marker.value))
  }

  function ReadInsert(s: string): Option<Statement> {
    if s != "" && s[0] == '"' then
      var name := TakeWhile(NotDoubleQuote, s[1..]);
      var rest := AfterPrefix("\"(", s[1 + |name|..]);
      if rest.None? then None else ReadSelected(name, rest.value)
    else
      var rest := AfterPrefix(SEQUENCE + "(", s);
      if rest.None? then None else ReadSelected(SEQUENCE, rest.value)
  }

  function ReadJobs(s: string): Option<Statement> {
    var digits := TakeWhile(IsDigit, s);
    var rest := AfterPrefix(NoteFiles(), s[|digits|..]);
    var marker := if rest.None? then None else ReadGuard(rest.value);
    if marker.None? || !IsIntText(digits) || IntValue(digits) < 0 then None
    else Some(InsertJobs(IntValue(digits), marker.value))
  }

  function ReadDelete(s: string): Option<Statement> {
    var name := ReadText(s);
    var rest := if name.None? then None else AfterPrefix(" AND ", name.value.1);
    var marker := if rest.None? then None else ReadGuard(rest.value);
    if marker.None? then None else Some(DeleteSequence(name.value.0, marker.value))
  }

  function ReadUpdate(s: string): Option<Statement> {
    var next := ReadText(s);
    var rest := if next.None? then None else AfterPrefix(" WHERE key=", next.value.1);
    var marker := if rest.None? then None else ReadMarked(rest.value);
    if marker.None? || marker.value.1 != "" then None else Some(Advance(marker.value.0, next.value.0))
  }

  function ReadStatement(s: string): Option<Statement> {
    var delete := AfterPrefix("DELETE FROM sqlite_sequence " + "WHERE name=", s);
    var update := AfterPrefix("UPDATE maintenance_state SET value=", s);
    var jobs := AfterPrefix(JobsInto(), s);
    var insert := AfterPrefix("INSERT INTO ", s);
    if delete.Some? then ReadDelete(delete.value)
    else if update.Some? then ReadUpdate(update.value)
    else if jobs.Some? then ReadJobs(jobs.value)
    else if insert.Some? then ReadInsert(insert.value)
    else None
  }

  function ReadStatements(texts: seq<string>): Option<seq<Statement>> {
    if texts == [] then Some([])
    else
      var first, more := ReadStatement(texts[0]), ReadStatements(texts[1..]);
      if first.None? || more.None? then None else Some([first.value] + more.value)
  }

  /** The statements of a query. */
  function ReadQuery(text: string): Option<seq<Statement>> {
    var texts := Split(text, Outside, "");
    if texts.None? then None else ReadStatements(texts.value)
  }

  // ---------- printed parts read back ----------

  lemma PrefixCut(a: string, b: string)
    ensures AfterPrefix(a, a + b) == Some(b)
  {
  }

  lemma TextReads(v: string, rest: string)
    requires rest == "" || rest[0] != '\''
    ensures ReadText(Literal(Str(v)) + rest) == Some((v, rest))
  {
    hide Unquote, Double;
    UnquoteDouble(v, rest);
    assert (Literal(Str(v)) + rest)[1..] == Double('\'', v) + "'" + rest;
  }

  lemma Grouped3(a: string, b: string, c: string, d: string)
    ensures a + b + c + d == a + (b + (c + d)) && a + b + c == a + (b + c)
  {
  }

  lemma MarkedReads(expected: string, rest: string)
    requires rest == "" || rest[0] != '\''
    ensures ReadMarked(Marked(expected) + rest) == Some((expected, rest))
  {
    hide Literal, ReadText, AfterPrefix;
    var value := Literal(Str(expected));
    TextReads(expected, rest);
    PrefixCut(" AND value=", value + rest);
    TextReads("crate_restore_progress", " AND value=" + (value + rest));
    Grouped3(Literal(Str(MARKER)), " AND value=", value, rest);
  }

  lemma GuardReads(expected: string)
    ensures ReadGuard(Guard(expected)) == Some(expected)
  {
    hide ReadMarked, AfterPrefix, Marked;
    MarkedReads(expected, ")");
    PrefixCut("EXISTS (SELECT 1 FROM " + "maintenance_state WHERE key=", Marked(expected) + ")");
    Grouped3("EXISTS (SELECT 1 FROM " + "maintenance_state WHERE key=", Marked(expected), ")", "");
  }

  /** No space outside quotes. */
  predicate NoGap(s: string, st: Scan)
    decreases |s|
  {
    s == "" || ((!st.Inside? ==> s[0] != ' ') && NoGap(s[1..], Next(st, s[0])))
  }

  lemma {:induction false} NoGapConcat(a: string, b: string, st: Scan)
    requires NoGap(a, st) && Walk(a, st).Some? && NoGap(b, Walk(a, st).value)
    ensures NoGap(a + b, st)
    decreases |a|
  {
    if a == "" {
      assert a + b == b;
    } else {
      assert (a + b)[1..] == a[1..] + b;
      NoGapConcat(a[1..], b, Next(st, a[0]));
    }
  }

  lemma {:induction false} DoubleNoGap(q: char, s: string)
    requires IsQuote(q)
    ensures NoGap(Double(q, s), Inside(q))
  {
    if s != "" {
      DoubleNoGap(q, s[1..]);
      var first := if s[0] == q then [q, q] else [s[0]];
      if s[0] == q {
        assert first[1..] == [q] && [q][1..] == "";
        assert NoGap([q], Behind(q));
      }
      DoubleWalk(q, if s[0] == q then [q] else [s[0]]);
      assert Double(q, if s[0] == q then [q] else [s[0]]) == first by { DoubleOne(q, s[0]); }
      NoGapConcat(first, Double(q, s[1..]), Inside(q));
    }
  }

  lemma DoubleOne(q: char, c: char)
    ensures Double(q, [c]) == if c == q then [q, q] else [c]
  {
    assert [c][1..] == "" && Double(q, "") == "";
  }

  lemma {:induction false} PlainNoGap(s: string)
    requires Plain(s) && ' ' !in s
    ensures NoGap(s, Outside)
  {
    if s != "" {
      assert s[0] in s;
      PlainNoGap(s[1..]);
    }
  }

  lemma LiteralNoGap(c: Cell)
    requires AllowedCell(c)
    ensures NoGap(Literal(c), Outside)
  {
    if c.Str? {
      QuotedNoGap(c.s);
    } else {
      TokenChars(c);
      TokenNoSpace(c);
      PlainNoGap(Literal(c));
    }
  }

  lemma QuotedNoGap(s: string)
    ensures NoGap(Quoted('\'', s), Outside)
  {
    hide Double;
    DoubleNoGap('\'', s);
    DoubleWalk('\'', s);
    var body := Double('\'', s);
    NoGapConcat(body, "'", Inside('\''));
    assert Quoted('\'', s) == "'" + (body + "'");
    assert ("'" + (body + "'"))[1..] == body + "'";
  }

  lemma TokenNoSpace(c: Cell)
    requires AllowedCell(c) && !c.Str?
    ensures ' ' !in Literal(c)
  {
    match c
    case Null => assert Literal(c) == "NULL";
    case Int(n) => IntChars(n);
    case Float(units) =>
      NumberTextDenotes(units);
      hide NumberText, NumberUnits, IsFinite;
      NumberTextChars(NumberText(units));
  }

  lemma {:induction false} JoinedNoGap(parts: seq<string>)
    requires forall i :: 0 <= i < |parts| ==> Closed(parts[i]) && NoGap(parts[i], Outside)
    ensures NoGap(JoinCommas(parts), Outside) && Closed(JoinCommas(parts))
  {
    JoinedClosed(parts);
    if |parts| > 1 {
      JoinedNoGap(parts[1..]);
      CommaNoGap(parts[0]);
      ClosedThenPlain(parts[0], ",");
      NoGapConcat(parts[0] + ",", JoinCommas(parts[1..]), Outside);
    }
  }

  lemma CommaNoGap(part: string)
    requires Closed(part) && NoGap(part, Outside)
    ensures NoGap(part + ",", Outside)
  {
    NoGapConcat(part, ",", Outside);
  }

  /** Text without gaps is cut off whole. */
  lemma {:induction false} CutPrinted(list: string, rest: string, st: Scan)
    requires NoGap(list, st) && Walk(list, st).Some? && !Walk(list, st).value.Inside?
    ensures CutWhere(list + WHERE + rest, st) == Some((list, rest))
    decreases |list|
  {
    var s := list + WHERE + rest;
    if list == "" {
      assert s == WHERE + rest && s[|WHERE|..] == rest;
    } else {
      assert s[1..] == list[1..] + WHERE + rest && s[0] == list[0];
      assert !st.Inside? ==> !(WHERE <= s) by { assert WHERE[0] == ' '; }
      CutPrinted(list[1..], rest, Next(st, list[0]));
      assert [list[0]] + list[1..] == list;
    }
  }

  // ---------- statements are closed ----------

  /** The walk is outside quotes behind the text. */
  predicate Open(s: string) { Walk(s, Outside) == Some(Outside) }

  lemma OpenPlain(s: string)
    requires Plain(s)
    ensures Open(s)
  {
    PlainWalk(s);
  }

  lemma OpenQuoted(a: string, v: string)
    requires Open(a)
    ensures Closed(a + Quoted('\'', v)) && Closed(a + QuoteName(v))
  {
    hide Quoted;
    QuotedWalk('\'', v);
    QuotedWalk('"', v);
    WalkConcat(a, Quoted('\'', v), Outside);
    WalkConcat(a, Quoted('"', v), Outside);
  }

  lemma ClosedPlain(a: string, p: string)
    requires Closed(a) && Plain(p) && p != ""
    ensures Open(a + p)
  {
    ClosedThenPlain(a, p);
  }

  lemma OpenOpen(a: string, b: string)
    requires Open(a) && Open(b)
    ensures Open(a + b)
  {
    WalkConcat(a, b, Outside);
  }

  lemma PlainTexts()
    ensures Plain("EXISTS (SELECT 1 FROM ") && Plain("maintenance_state WHERE key=") && Plain(" AND value=")
      && Plain(")")
    ensures Plain("(") && Plain(SELECT) && Plain(WHERE) && Plain(INSERT) && Plain(SEQUENCE)
  {
  }

  lemma PlainVerbs()
    ensures Plain("DELETE FROM sqlite_sequence ") && Plain("WHERE name=") && Plain(" AND ")
    ensures Plain("UPDATE maintenance_state SET value=") && Plain(" WHERE key=")
  {
  }

  lemma NoteTexts()
    ensures Plain(" / 1000,") && Plain(") FROM files\nWHERE lower(path) LIKE ") && Plain(" AND EXISTS (SELECT 1 FROM ")
    ensures Plain("notification_policy WHERE id=1 AND ") && Plain("path >= folder_path || ")
  {
  }

  lemma JobTexts()
    ensures Plain(" AND path < folder_path || ") && Plain(")\nAND ")
    ensures Plain("notification_projection_jobs") && Plain("(path,job_token,updated_at)\n")
    ensures Plain("SELECT path,storage_key,datetime(")
  {
  }

  lemma PlainJoin(a: string, b: string)
    requires Plain(a) && Plain(b)
    ensures Plain(a + b)
  {
  }

  lemma MarkedClosed(front: string, expected: string)
    requires Open(front)
    ensures Closed(front + Marked(expected))
  {
    hide Quoted, Plain, Open, Closed;
    PlainTexts();
    PlainVerbs();
    OpenQuoted(front, MARKER);
    ClosedPlain(front + Quoted('\'', MARKER), " AND value=");
    OpenQuoted(front + Quoted('\'', MARKER) + " AND value=", expected);
    Grouped3(front, Quoted('\'', MARKER), " AND value=", Quoted('\'', expected));
    Grouped3(Quoted('\'', MARKER), " AND value=", Quoted('\'', expected), "");
  }

  lemma GuardOpen(expected: string)
    ensures Open(Guard(expected))
  {
    hide Plain, Open, Closed, Marked;
    PlainTexts();
    PlainVerbs();
    var front := "EXISTS (SELECT 1 FROM " + "maintenance_state WHERE key=";
    PlainJoin("EXISTS (SELECT 1 FROM ", "maintenance_state WHERE key=");
    OpenPlain(front);
    MarkedClosed(front, expected);
    ClosedPlain(front + Marked(expected), ")");
  }

  lemma Between(a: string, v: string, p: string)
    requires Open(a) && Plain(p) && p != ""
    ensures Open(a + Literal(Str(v)) + p)
  {
    hide Quoted;
    OpenQuoted(a, v);
    ClosedPlain(a + Quoted('\'', v), p);
  }

  lemma NotesOpen()
    ensures Open(NoteFiles())
  {
    hide Literal, Plain, Open;
    NoteTexts();
    JobTexts();
    OpenPlain(" / 1000,");
    Between(" / 1000,", "unixepoch", ") FROM files\nWHERE lower(path) LIKE ");
    var a := " / 1000," + Literal(Str("unixepoch")) + ") FROM files\nWHERE lower(path) LIKE ";
    Between(a, "%.md", " AND EXISTS (SELECT 1 FROM ");
    var b := a + Literal(Str("%.md")) + " AND EXISTS (SELECT 1 FROM ";
    OpenPlain("notification_policy WHERE id=1 AND ");
    OpenOpen(b, "notification_policy WHERE id=1 AND ");
    OpenPlain("path >= folder_path || ");
    OpenOpen(b + "notification_policy WHERE id=1 AND ", "path >= folder_path || ");
    var c := b + "notification_policy WHERE id=1 AND " + "path >= folder_path || ";
    Between(c, "/", " AND path < folder_path || ");
    Between(c + Literal(Str("/")) + " AND path < folder_path || ", "0", ")\nAND ");
  }

  lemma JobsOpen()
    ensures Open(JobsInto())
  {
    hide Open, Plain;
    NoteTexts();
    JobTexts();
    PlainTexts();
    PlainVerbs();
    var a, b := "INSERT INTO " + "notification_projection_jobs", "(path,job_token,updated_at)\n";
    PlainJoin("INSERT INTO ", "notification_projection_jobs");
    PlainJoin(a, b);
    PlainJoin(a + b, "SELECT path,storage_key,datetime(");
    OpenPlain(JobsInto());
  }

  lemma SelectedParts(front: string, names: string, cells: string, guard: string)
    requires Closed(front) && Closed(names) && Closed(cells) && Open(guard)
    ensures Open(front + "(" + names + SELECT + cells + WHERE + guard)
  {
    PlainTexts();
    PlainVerbs();
    hide Open, Closed, Plain;
    ClosedPlain(front, "(");
    OpenClosed(front + "(", names);
    ClosedPlain(front + "(" + names, SELECT);
    OpenClosed(front + "(" + names + SELECT, cells);
    ClosedPlain(front + "(" + names + SELECT + cells, WHERE);
    OpenOpen(front + "(" + names + SELECT + cells + WHERE, guard);
  }

  lemma SelectedText(front: string, row: Row, guard: string)
    ensures front + Selected(row, guard) ==
      front + "(" + JoinCommas(Names(row.columns)) + SELECT + JoinCommas(Literals(row.values)) + WHERE + guard
  {
    hide JoinCommas, Names, Literals;
    Regroup(front, "(", JoinCommas(Names(row.columns)), SELECT, JoinCommas(Literals(row.values)), WHERE, guard);
  }

  lemma Regroup(a: string, b: string, c: string, d: string, e: string, f: string, g: string)
    ensures a + (b + c + d + e + f + g) == a + b + c + d + e + f + g
  {
  }

  lemma SelectedClosed(front: string, row: Row, expected: string)
    requires AllowedRow(row) && Closed(front)
    ensures Open(front + Selected(row, Guard(expected)))
  {
    hide Guard, Open, Closed;
    AllowedParts(row);
    D.NamesClosed(row.columns);
    D.LiteralsClosed(row.values);
    GuardOpen(expected);
    hide AllowedRow, JoinCommas, Names, Literals;
    SelectedParts(front, JoinCommas(Names(row.columns)), JoinCommas(Literals(row.values)), Guard(expected));
    SelectedText(front, row, Guard(expected));
  }

  lemma AllowedParts(row: Row)
    requires AllowedRow(row)
    ensures forall i :: 0 <= i < |row.columns| ==> IsIdentifier(row.columns[i])
    ensures forall i :: 0 <= i < |row.values| ==> AllowedCell(row.values[i])
  {
  }

  lemma OpenClosed(a: string, b: string)
    requires Open(a) && Closed(b)
    ensures Closed(a + b)
  {
    WalkConcat(a, b, Outside);
  }

  lemma OpenIsClosed(s: string)
    requires Open(s)
    ensures Closed(s)
  {
  }

  /** The rows and markers that a restore writes: rows as the backup reader accepts them. */
  ghost predicate Readable(s: Statement) {
    s.InsertRow? ==> AllowedRow(s.row) && AllReadBack(s.row.values)
  }

  lemma InsertClosed(row: Row, expected: string)
    requires AllowedRow(row)
    ensures Closed(SqlOf(InsertRow(row, expected)))
  {
    hide Selected, Guard, Plain, Open, Closed, Quoted, AllowedRow;
    PlainTexts();
    PlainVerbs();
    OpenPlain(INSERT);
    OpenPlain(SEQUENCE);
    OpenOpen(INSERT, SEQUENCE);
    OpenIsClosed(INSERT + SEQUENCE);
    OpenQuoted(INSERT, row.table);
    SelectedClosed(INSERT + TableName(row.table), row, expected);
    OpenIsClosed(INSERT + TableName(row.table) + Selected(row, Guard(expected)));
  }

  lemma DeleteClosed(name: string, expected: string)
    ensures Closed(SqlOf(DeleteSequence(name, expected)))
  {
    hide Guard, Plain, Open, Closed, Literal;
    PlainTexts();
    PlainVerbs();
    var front := "DELETE FROM sqlite_sequence " + "WHERE name=";
    PlainJoin("DELETE FROM sqlite_sequence ", "WHERE name=");
    OpenPlain(front);
    Between(front, name, " AND ");
    GuardOpen(expected);
    OpenOpen(front + Literal(Str(name)) + " AND ", Guard(expected));
    OpenIsClosed(front + Literal(Str(name)) + " AND " + Guard(expected));
  }

  lemma JobsClosed(at: nat, expected: string)
    ensures Closed(SqlOf(InsertJobs(at, expected)))
  {
    IntChars(at);
    BareToken(IntText(at));
    hide Guard, IntText, Plain, Open, Closed, NoteFiles, JobsInto;
    JobsOpen();
    NotesOpen();
    OpenPlain(IntText(at));
    GuardOpen(expected);
    OpenOpen(JobsInto(), IntText(at));
    OpenOpen(JobsInto() + IntText(at), NoteFiles());
    OpenOpen(JobsInto() + IntText(at) + NoteFiles(), Guard(expected));
    OpenIsClosed(JobsInto() + IntText(at) + NoteFiles() + Guard(expected));
  }

  lemma UpdateClosed(expected: string, next: string)
    ensures Closed(SqlOf(Advance(expected, next)))
  {
    hide Literal, Plain, Marked, Open, Closed;
    PlainTexts();
    PlainVerbs();
    OpenPlain("UPDATE maintenance_state SET value=");
    Between("UPDATE maintenance_state SET value=", next, " WHERE key=");
    MarkedClosed("UPDATE maintenance_state SET value=" + Literal(Str(next)) + " WHERE key=", expected);
  }

  lemma BothEnds(front: string, end: string)
    requires front != "" && end != "" && !IsSpace(front[0]) && !IsSpace(end[|end| - 1])
    ensures Tight(front + end)
  {
  }

  lemma GuardEnds(expected: string)
    ensures Guard(expected) != "" && Guard(expected)[|Guard(expected)| - 1] == ')'
  {
    hide Marked;
  }

  lemma MarkedEnds(expected: string)
    ensures Marked(expected) != "" && Marked(expected)[|Marked(expected)| - 1] == '\''
  {
    hide Double;
  }

  lemma SelectedEnds(row: Row, expected: string)
    ensures Selected(row, Guard(expected)) != ""
      && Selected(row, Guard(expected))[|Selected(row, Guard(expected))| - 1] == ')'
  {
    GuardEnds(expected);
    hide Guard, JoinCommas, Names, Literals;
  }

  lemma FrontIsTight(s: Statement)
    ensures SqlOf(s) != "" && !IsSpace(SqlOf(s)[0])
  {
    hide Selected, Guard, NoteFiles, IntText, TableName, Literal, Marked;
  }

  lemma EndIsTight(s: Statement)
    ensures SqlOf(s) != "" && !IsSpace(SqlOf(s)[|SqlOf(s)| - 1])
  {
    hide Selected, Guard, NoteFiles, IntText, TableName, Literal, Marked, JobsInto;
    match s
    case InsertRow(row, expected) => SelectedEnds(row, expected);
    case DeleteSequence(_, expected) => GuardEnds(expected);
    case InsertJobs(_, expected) => GuardEnds(expected);
    case Advance(expected, _) => MarkedEnds(expected);
  }

  /** A statement's text stands by itself. */
  lemma StatementClosed(s: Statement)
    requires Readable(s)
    ensures Closed(SqlOf(s)) && Tight(SqlOf(s))
  {
    hide Closed, SqlOf, AllowedRow;
    FrontIsTight(s);
    EndIsTight(s);
    match s
    case InsertRow(row, expected) => InsertClosed(row, expected);
    case DeleteSequence(name, expected) => DeleteClosed(name, expected);
    case InsertJobs(at, expected) => JobsClosed(at, expected);
    case Advance(expected, next) => UpdateClosed(expected, next);
  }

  // ---------- statements read back ----------

  lemma NotPrefix(prefix: string, s: string, i: nat)
    requires i < |prefix| && i < |s| && prefix[i] != s[i]
    ensures AfterPrefix(prefix, s) == None
  {
  }

  lemma DeleteReads(name: string, expected: string)
    ensures ReadStatement(SqlOf(DeleteSequence(name, expected))) == Some(DeleteSequence(name, expected))
  {
    hide Guard, ReadGuard, AfterPrefix, ReadText, Literal, ReadUpdate, ReadJobs, ReadInsert;
    var rest := " AND " + Guard(expected);
    GuardReads(expected);
    PrefixCut(" AND ", Guard(expected));
    TextReads(name, rest);
    PrefixCut("DELETE FROM sqlite_sequence " + "WHERE name=", Literal(Str(name)) + rest);
    Grouped3("DELETE FROM sqlite_sequence " + "WHERE name=", Literal(Str(name)), " AND ", Guard(expected));
  }

  lemma UpdateRead(expected: string, next: string)
    ensures ReadUpdate(Literal(Str(next)) + (" WHERE key=" + Marked(expected))) == Some(Advance(expected, next))
  {
    hide Marked, ReadMarked, AfterPrefix, ReadText, Literal;
    MarkedReads(expected, "");
    assert Marked(expected) + "" == Marked(expected);
    PrefixCut(" WHERE key=", Marked(expected));
    TextReads(next, " WHERE key=" + Marked(expected));
  }

  lemma UpdateReads(expected: string, next: string)
    ensures ReadStatement(SqlOf(Advance(expected, next))) == Some(Advance(expected, next))
  {
    hide Marked, AfterPrefix, Literal, ReadDelete, ReadUpdate, ReadJobs, ReadInsert, JobsInto;
    var start, rest := "UPDATE maintenance_state SET value=", Literal(Str(next)) + (" WHERE key=" + Marked(expected));
    UpdateRead(expected, next);
    PrefixCut(start, rest);
    Grouped3(start, Literal(Str(next)), " WHERE key=", Marked(expected));
    NotPrefix("DELETE FROM sqlite_sequence " + "WHERE name=", SqlOf(Advance(expected, next)), 0);
  }

  lemma IsInsert(s: Statement)
    requires s.InsertRow? || s.InsertJobs?
    ensures AfterPrefix("DELETE FROM sqlite_sequence " + "WHERE name=", SqlOf(s)) == None
    ensures AfterPrefix("UPDATE maintenance_state SET value=", SqlOf(s)) == None
  {
    hide Guard, Selected, TableName, NoteFiles, AfterPrefix, IntText;
    NotPrefix("DELETE FROM sqlite_sequence " + "WHERE name=", SqlOf(s), 0);
    NotPrefix("UPDATE maintenance_state SET value=", SqlOf(s), 0);
  }

  lemma DigitsTaken(digits: string, rest: string)
    requires (forall i :: 0 <= i < |digits| ==> IsDigit(digits[i])) && rest != "" && !IsDigit(rest[0])
    ensures TakeWhile(IsDigit, digits + rest) == digits && (digits + rest)[|digits|..] == rest
  {
    TakeWhileStops(IsDigit, digits, rest);
  }

  lemma JobsRead(at: nat, expected: string)
    ensures ReadJobs(IntText(at) + (NoteFiles() + Guard(expected))) == Some(InsertJobs(at, expected))
  {
    IntRoundTrip(at);
    assert forall i :: 0 <= i < |IntText(at)| ==> IsDigit(IntText(at)[i]);
    hide IntText, IntValue, IsIntText, NoteFiles, Guard, AfterPrefix, ReadGuard, TakeWhile;
    NotesStart();
    DigitsTaken(IntText(at), NoteFiles() + Guard(expected));
    GuardReads(expected);
    PrefixCut(NoteFiles(), Guard(expected));
  }

  lemma NotesStart()
    ensures NoteFiles() != "" && NoteFiles()[0] == ' '
  {
    hide Literal;
  }

  lemma InsertJobsReads(at: nat, expected: string)
    ensures ReadStatement(SqlOf(InsertJobs(at, expected))) == Some(InsertJobs(at, expected))
  {
    hide Guard, IntText, NoteFiles, JobsInto, AfterPrefix, ReadJobs, ReadDelete, ReadUpdate, ReadInsert;
    var rest := NoteFiles() + Guard(expected);
    JobsRead(at, expected);
    PrefixCut(JobsInto(), IntText(at) + rest);
    Grouped3(JobsInto(), IntText(at), NoteFiles(), Guard(expected));
    IsInsert(InsertJobs(at, expected));
  }

  lemma SelectedRead(row: Row, expected: string)
    requires AllowedRow(row) && AllReadBack(row.values)
    ensures ReadSelected(row.table, Body(row, Guard(expected))) == Some(InsertRow(row, expected))
  {
    hide ParseCells, ColumnNames, SplitCommas, CutWhere, ReadGuard, Guard, AllowedCell, NoGap, DumpCodec.Closed;
    var names, cells := JoinCommas(Names(row.columns)), JoinCommas(Literals(row.values));
    NamesAreList(row.columns);
    ColumnsRoundTrip(Names(row.columns), row.columns);
    CellsRoundTrip(row.values);
    CellsNoGap(row.values);
    GuardReads(expected);
    hide JoinCommas, Names, Literals, IsColumnList, AllReadBack;
    var cut := cells + WHERE + Guard(expected);
    var rest := SELECT + cut;
    NotClosingAll(names);
    TakeWhileStops(NotClosing, names, rest);
    hide TakeWhile;
    assert (names + rest)[|names|..] == rest;
    PrefixCut(SELECT, cut);
    CutList(cells, Guard(expected));
    RegroupBody(names, SELECT, cells, WHERE, Guard(expected));
  }

  lemma RegroupBody(a: string, b: string, c: string, d: string, e: string)
    ensures a + b + c + d + e == a + (b + (c + d + e))
  {
  }

  lemma CutList(cells: string, guard: string)
    requires NoGap(cells, Outside) && DumpCodec.Closed(cells)
    ensures CutWhere(cells + WHERE + guard, Outside) == Some((cells, guard))
  {
    CutPrinted(cells, guard, Outside);
  }

  lemma CellsNoGap(values: seq<Cell>)
    requires forall i :: 0 <= i < |values| ==> AllowedCell(values[i])
    ensures NoGap(JoinCommas(Literals(values)), Outside) && DumpCodec.Closed(JoinCommas(Literals(values)))
  {
    hide NoGap, DumpCodec.Closed, AllowedCell, Literal, JoinCommas;
    forall i | 0 <= i < |values|
      ensures DumpCodec.Closed(Literals(values)[i]) && NoGap(Literals(values)[i], Outside)
    {
      LiteralClosed(values[i]);
      LiteralNoGap(values[i]);
    }
    JoinedNoGap(Literals(values));
  }

  lemma NameTaken(name: string, rest: string)
    requires IsIdentifier(name)
    ensures TakeWhile(NotDoubleQuote, name + ("\"" + rest)) == name
  {
    NameChars(name);
    forall i | 0 <= i < |name| ensures NotDoubleQuote(name[i]) { assert name[i] in name; }
    TakeWhileStops(NotDoubleQuote, name, "\"" + rest);
  }

  lemma SequenceReads(body: string)
    ensures ReadInsert(SEQUENCE + ("(" + body)) == ReadSelected(SEQUENCE, body)
  {
    hide ReadSelected, TakeWhile, AfterPrefix;
    PrefixCut(SEQUENCE + "(", body);
    assert SEQUENCE + ("(" + body) == SEQUENCE + "(" + body;
  }

  lemma NamedText(table: string, body: string)
    ensures var s := ['"'] + table + ['"'] + ("(" + body);
      s[0] == '"' && s[1..] == table + ("\"" + ("(" + body)) && s[1 + |table|..] == "\"(" + body
  {
    var s := ['"'] + table + ['"'] + ("(" + body);
    assert s == ['"'] + (table + ("\"" + ("(" + body)));
    assert s == (['"'] + table) + ("\"(" + body);
  }

  lemma NamedReads(table: string, body: string)
    requires IsIdentifier(table)
    ensures ReadInsert(QuoteName(table) + ("(" + body)) == ReadSelected(table, body)
  {
    hide ReadSelected, TakeWhile, AfterPrefix, QuoteName, IsIdentifier;
    NameQuotes(table);
    NamedText(table, body);
    NameTaken(table, "(" + body);
    PrefixCut("\"(", body);
  }

  lemma TableReads(table: string, body: string)
    requires IsIdentifier(table)
    ensures ReadInsert(TableName(table) + ("(" + body)) == ReadSelected(table, body)
    ensures TableName(table) != "" && TableName(table)[0] != 'n'
  {
    hide ReadInsert, ReadSelected, Double;
    if table == SEQUENCE { SequenceReads(body); } else { NamedReads(table, body); }
  }

  function Body(row: Row, guard: string): string {
    JoinCommas(Names(row.columns)) + SELECT + JoinCommas(Literals(row.values)) + WHERE + guard
  }

  lemma SelectedBody(row: Row, guard: string)
    ensures Selected(row, guard) == "(" + Body(row, guard)
  {
    hide JoinCommas, Names, Literals;
    Regroup("", "(", JoinCommas(Names(row.columns)), SELECT, JoinCommas(Literals(row.values)), WHERE, guard);
  }

  lemma InsertSql(row: Row, expected: string)
    ensures SqlOf(InsertRow(row, expected)) ==
      "INSERT INTO " + (TableName(row.table) + ("(" + Body(row, Guard(expected))))
  {
    hide Selected, Guard, TableName, Body;
    SelectedBody(row, Guard(expected));
    Grouped3("INSERT INTO ", TableName(row.table), Selected(row, Guard(expected)), "");
  }

  lemma InsertRowReads(row: Row, expected: string)
    requires AllowedRow(row) && AllReadBack(row.values)
    ensures ReadStatement(SqlOf(InsertRow(row, expected))) == Some(InsertRow(row, expected))
  {
    hide Guard, AfterPrefix, ReadJobs, ReadDelete, ReadUpdate, ReadInsert, ReadSelected, TableName, AllReadBack,
      JobsInto, AllowedRow, Selected, Body, SqlOf;
    SelectedRead(row, expected);
    IdentifierTable(row);
    TableReads(row.table, Body(row, Guard(expected)));
    InsertSql(row, expected);
    PrefixCut("INSERT INTO ", TableName(row.table) + ("(" + Body(row, Guard(expected))));
    IsInsert(InsertRow(row, expected));
    NotJobs(row, expected);
  }

  lemma IdentifierTable(row: Row)
    requires AllowedRow(row)
    ensures IsIdentifier(row.table)
  {
  }

  lemma OtherPrefix(start: string, a: string, b: string)
    requires a != "" && b != "" && a[0] != b[0]
    ensures AfterPrefix(start + a, start + b) == None
  {
    NotPrefix(start + a, start + b, |start|);
  }

  lemma NotJobs(row: Row, expected: string)
    requires TableName(row.table) != "" && TableName(row.table)[0] != 'n'
    ensures AfterPrefix(JobsInto(), SqlOf(InsertRow(row, expected))) == None
  {
    hide Guard, Selected, TableName, AfterPrefix;
    var into := "notification_projection_jobs" + "(path,job_token,updated_at)\n" + "SELECT path,storage_key,datetime(";
    var rest := TableName(row.table) + Selected(row, Guard(expected));
    OtherPrefix("INSERT INTO ", into, rest);
    Grouped4("INSERT INTO ", "notification_projection_jobs", "(path,job_token,updated_at)\n",
             "SELECT path,storage_key,datetime(");
    Grouped3("INSERT INTO ", TableName(row.table), Selected(row, Guard(expected)), "");
  }

  lemma Grouped4(a: string, b: string, c: string, d: string)
    ensures a + b + c + d == a + (b + c + d)
  {
  }

  /** Every statement is read as what it was written for. */
  lemma StatementReads(s: Statement)
    requires Readable(s)
    ensures ReadStatement(SqlOf(s)) == Some(s)
  {
    hide SqlOf, ReadStatement, AllowedRow;
    match s
    case InsertRow(row, expected) => InsertRowReads(row, expected);
    case DeleteSequence(name, expected) => DeleteReads(name, expected);
    case InsertJobs(at, expected) => InsertJobsReads(at, expected);
    case Advance(expected, next) => UpdateReads(expected, next);
  }

  // ---------- queries read back ----------

  lemma {:induction false} LinesFront(ss: seq<Statement>)
    requires |ss| > 1
    ensures Lines(ss) == SqlOf(ss[0]) + ";" + ("\n" + Lines(ss[1..]))
    decreases |ss|
  {
    hide SqlOf;
    var n := |ss| - 1;
    var last := "\n" + SqlOf(ss[n]) + ";";
    if |ss| == 2 {
      assert ss[..1] == [ss[0]] && ss[1..] == [ss[1]];
      assert Lines(ss) == SqlOf(ss[0]) + ";" + "\n" + SqlOf(ss[1]) + ";";
    } else {
      LinesFront(ss[..n]);
      assert ss[..n][1..] == ss[1..][..n - 1] && ss[1..][n - 1] == ss[n];
      assert Lines(ss[1..]) == Lines(ss[1..][..n - 1]) + last by {
        assert Lines(ss[1..]) == Lines(ss[1..][..n - 1]) + "\n" + SqlOf(ss[n]) + ";";
      }
      assert Lines(ss) == Lines(ss[..n]) + last;
    }
  }

  function Texts(ss: seq<Statement>): seq<string> {
    if ss == [] then [] else [SqlOf(ss[0])] + Texts(ss[1..])
  }

  lemma OneLine(space: string, s: Statement, rest: string)
    requires AllSpace(space) && Readable(s)
    ensures Split(space + (SqlOf(s) + ";" + rest), Outside, "") ==
      var more := Split(rest, Outside, ""); if more.None? then None else Some([SqlOf(s)] + more.value)
  {
    hide SqlOf, Readable, DumpCodec.Closed, Tight, Split;
    StatementClosed(s);
    StatementSplits(space, SqlOf(s), rest);
    assert space + (SqlOf(s) + ";" + rest) == space + SqlOf(s) + ";" + rest;
  }

  lemma {:induction false} LinesSplit(space: string, ss: seq<Statement>)
    requires AllSpace(space) && ss != [] && forall i :: 0 <= i < |ss| ==> Readable(ss[i])
    ensures Split(space + Lines(ss), Outside, "") == Some(Texts(ss))
    decreases |ss|
  {
    hide SqlOf, Readable, Split;
    if |ss| == 1 {
      NothingSplits();
      OneLine(space, ss[0], "");
      assert Lines(ss) == SqlOf(ss[0]) + ";" + "";
      assert ss[1..] == [];
    } else {
      LinesSplit("\n", ss[1..]);
      LinesFront(ss);
      hide Lines;
      OneLine(space, ss[0], "\n" + Lines(ss[1..]));
    }
  }

  lemma NothingSplits()
    ensures Split("", Outside, "") == Some([])
  {
  }

  lemma {:induction false} AllRead(ss: seq<Statement>)
    requires forall i :: 0 <= i < |ss| ==> Readable(ss[i])
    ensures ReadStatements(Texts(ss)) == Some(ss)
    decreases |ss|
  {
    hide SqlOf, Readable, ReadStatement;
    if ss != [] {
      StatementReads(ss[0]);
      AllRead(ss[1..]);
      assert Texts(ss)[1..] == Texts(ss[1..]);
      assert [ss[0]] + ss[1..] == ss;
    }
  }

  /** A query's text says exactly its statements: verb, table, columns, values and expected marker of each. */
  lemma QueryReads(ss: seq<Statement>)
    requires ss != [] && forall i :: 0 <= i < |ss| ==> Readable(ss[i])
    ensures ReadQuery(Lines(ss)) == Some(ss)
  {
    hide Readable, SqlOf, Lines, ReadStatements;
    LinesSplit("", ss);
    assert "" + Lines(ss) == Lines(ss);
    AllRead(ss);
  }

  // ---------- the rows that a backup gives ----------

  lemma {:induction false} ParsedCells(text: string)
    requires ParseCells(text).Some?
    ensures forall c :: c in ParseCells(text).value ==> AllowedCell(c) && ReadsBack(c)
    decreases |text|
  {
    hide AllowedCell, ReadsBack, CellOf;
    if text != "" {
      TrimLeftShorter(text);
      var data := TrimLeft(text);
      var first := FirstCell(data);
      FirstIsAllowed(data);
      TrimLeftShorter(first.value.1);
      var rest := TrimLeft(first.value.1);
      if rest != "" { ParsedCells(rest[1..]); }
    }
  }

  lemma FirstIsAllowed(s: string)
    requires s != "" && FirstCell(s).Some?
    ensures AllowedCell(FirstCell(s).value.0) && ReadsBack(FirstCell(s).value.0)
  {
    if s[0] != '\'' { ReadCellIsAllowed(Trim(TakeWhile(NotComma, s))); }
    hide CellOf;
  }

  /** A row as `prepareRows` passes it on: as the backup reader gives it, up to safe integers put in. */
  ghost predicate Prepared(row: Row) {
    && |row.columns| == |row.values| > 0 && Distinct(row.columns)
    && forall i :: 0 <= i < |row.values| ==> AllowedCell(row.values[i]) && ReadsBack(row.values[i])
  }

  lemma ParsedInsert(statement: string)
    requires ParseInsert(statement).Some?
    ensures Prepared(ParseInsert(statement).value)
  {
    hide MatchInsert, ParseCells, AllowedCell, ReadsBack, IsIdentifier;
    var insert := MatchInsert(statement).value;
    ParsedCells(insert.data);
    var cells := ParseCells(insert.data).value;
    assert forall i :: 0 <= i < |cells| ==> cells[i] in cells;
    assert |SplitCommas(insert.list)| > 0;
  }

  lemma {:induction false} ParsedStatements(statements: seq<string>)
    requires ParseStatements(statements).Some?
    ensures forall r :: r in ParseStatements(statements).value ==> Prepared(r)
  {
    hide Skipped, ParseInsert, Prepared;
    if statements != [] {
      ParsedStatements(statements[1..]);
      if !Skipped(statements[0]) { ParsedInsert(statements[0]); }
    }
  }

  /** Every row that the backup reader gives is one whose statements read back, if it can be written at all. */
  lemma ParsedRowsArePrepared(sql: string)
    requires Parse(sql).Some?
    ensures forall r :: r in Parse(sql).value ==> Prepared(r)
  {
    ParsedStatements(Split(sql, Outside, "").value);
  }

  lemma PreparedIsReadable(row: Row, expected: string)
    requires Prepared(row) && Buildable(row)
    ensures var ss := StatementsOf(row, expected);
      ss.Some? && forall i :: 0 <= i < |ss.value| ==> Readable(ss.value[i])
  {
    hide IndexOf, AllowedCell, ReadsBack;
    assert IsIdentifier(SEQUENCE);
    assert AllReadBack(row.values);
  }
}
