/**
 Restoring rows into a new database (server-restore.ts): the guarded statements, their batches, and what
 any sequence of repeated, lost or late batch executions leaves behind.
 */
module RestoreBatches {
  import opened Common
  import opened Text
  import opened DumpCodec

  const MAX_ROWS := 40
  const MAX_UNITS := 20000
  const MAX_BYTES := 70000

  // ---------- the statements ----------

  /** The progress marker after `n` batches. */
  function Marker(plan: string, n: nat): string {
    plan + ":" + IntText(n)
  }

  lemma MarkerNames(plan: string, i: nat, j: nat)
    ensures Marker(plan, i) == Marker(plan, j) ==> i == j
  {
    IntRoundTrip(i);
    IntRoundTrip(j);
    assert Marker(plan, i)[|plan| + 1..] == IntText(i);
    assert Marker(plan, j)[|plan| + 1..] == IntText(j);
  }

  /** Every statement names the marker it expects. `at` is the time of the restore, in milliseconds. */
  datatype Statement =
    | InsertRow(row: Row, expected: string)
    | DeleteSequence(name: string, expected: string)
    | InsertJobs(at: nat, expected: string)
    | Advance(expected: string, next: string)

  function IndexOf(columns: seq<string>, name: string): (i: int)
    ensures -1 <= i < |columns|
    ensures i >= 0 ==> columns[i] == name
    ensures i < 0 <==> name !in columns
  {
    if columns == [] then -1
    else if columns[0] == name then 0
    else var i := IndexOf(columns[1..], name); if i < 0 then -1 else i + 1
  }

  /** The name a row of the sequence table is for. */
  function SequenceName(row: Row): Option<string> {
    var i := IndexOf(row.columns, "name");
    if 0 <= i < |row.values| && row.values[i].Str? then Some(row.values[i].s) else None
  }

  /** The statements of a row; none where `rowSql` refuses it. A row of the sequence table replaces the one there. */
  function StatementsOf(row: Row, expected: string): Option<seq<Statement>> {
    if !(forall i :: 0 <= i < |row.columns| ==> IsIdentifier(row.columns[i])) then None
    else if row.table == SEQUENCE then
      if SequenceName(row).None? then None
      else Some([DeleteSequence(SequenceName(row).value, expected), InsertRow(row, expected)])
    else if IsIdentifier(row.table) then Some([InsertRow(row, expected)])
    else None
  }

  const MARKER := "crate_restore_progress"

  /** The row of the progress marker, with the value it must have. */
  function Marked(expected: string): string {
    Literal(Str(MARKER)) + " AND value=" + Literal(Str(expected))
  }

  function Guard(expected: string): string {
    "EXISTS (SELECT 1 FROM " + "maintenance_state WHERE key=" + Marked(expected) + ")"
  }

  /** The columns and values of a row, behind its table. */
  function Selected(row: Row, guard: string): string {
    "(" + JoinCommas(Names(row.columns)) + ") SELECT " + JoinCommas(Literals(row.values)) + " WHERE " + guard
  }

  function TableName(table: string): string {
    if table == SEQUENCE then SEQUENCE else QuoteName(table)
  }

  /** Which files get a reminder job: the notes in the policy's folder. */
  function NoteFiles(): string {
    " / 1000," + Literal(Str("unixepoch")) + ") FROM files\nWHERE lower(path) LIKE " + Literal(Str("%.md"))
    + " AND EXISTS (SELECT 1 FROM " + "notification_policy WHERE id=1 AND " + "path >= folder_path || "
    + Literal(Str("/")) + " AND path < folder_path || " + Literal(Str("0")) + ")\nAND "
  }

  function JobsInto(): string {
    "INSERT INTO " + "notification_projection_jobs" + "(path,job_token,updated_at)\n"
    + "SELECT path,storage_key,datetime("
  }

  /** A statement without its terminator. */
  function SqlOf(s: Statement): string {
    match s
    case InsertRow(row, expected) => "INSERT INTO " + TableName(row.table) + Selected(row, Guard(expected))
    case DeleteSequence(name, expected) =>
      "DELETE FROM sqlite_sequence " + "WHERE name=" + Literal(Str(name)) + " AND " + Guard(expected)
    case InsertJobs(at, expected) => JobsInto() + IntText(at) + NoteFiles() + Guard(expected)
    case Advance(expected, next) =>
      "UPDATE maintenance_state SET value=" + Literal(Str(next)) + " WHERE key=" + Marked(expected)
  }

  /** Statements, each with its terminator, on lines of their own. */
  function Lines(ss: seq<Statement>): string {
    if ss == [] then ""
    else if |ss| == 1 then SqlOf(ss[0]) + ";"
    else Lines(ss[..|ss| - 1]) + "\n" + SqlOf(ss[|ss| - 1]) + ";"
  }

  predicate Buildable(row: Row) {
    StatementsOf(row, "").Some?
  }

  /** The statement of a row; empty for a row that is refused. */
  function RowSql(row: Row, expected: string): string {
    var ss := StatementsOf(row, expected);
    if ss.None? then "" else Lines(ss.value)
  }

  lemma RowSqlNotEmpty(row: Row, expected: string)
    ensures RowSql(row, expected) != "" <==> Buildable(row)
  {
    hide SqlOf, IndexOf;
  }

  /** The rows of one batch as text, each on its own line. */
  function RowsText(rows: seq<Row>, expected: string): string
  {
    if rows == [] then "" else RowsText(rows[..|rows| - 1], expected) + RowSql(rows[|rows| - 1], expected) + "\n"
  }

  /** Batch `i` as text: its rows under its own guard, then the step of the marker. */
  function BatchText(rows: seq<Row>, plan: string, i: nat): string
  {
    RowsText(rows, Marker(plan, i)) + SqlOf(Advance(Marker(plan, i), Marker(plan, i + 1))) + ";"
  }

  // ---------- the batches ----------

  /** A row is refused if it cannot be written or its statement is too long under the guard at hand. */
  predicate Accepted(row: Row, plan: string, i: nat) {
    Buildable(row) && Utf8Length(RowSql(row, Marker(plan, i))) <= MAX_BYTES
  }

  /** Another row may still join batch `i`. */
  predicate Joins(rows: seq<Row>, row: Row, plan: string, i: nat)
  {
    |rows| < MAX_ROWS && Units(RowsText(rows, Marker(plan, i))) + Units(RowSql(row, Marker(plan, i))) <= MAX_UNITS
  }

  /** One finished or growing batch: a single row of any accepted length, or rows that each still fitted. */
  predicate Filled(rows: seq<Row>, plan: string, i: nat)
  {
    && (forall r :: r in rows ==> Buildable(r))
    && 0 < |rows| <= MAX_ROWS
    && (|rows| == 1 || Units(RowsText(rows, Marker(plan, i))) <= MAX_UNITS + 1)
    && Accepted(rows[0], plan, if i == 0 then 0 else i - 1)
    && (forall k :: 1 <= k < |rows| ==> Accepted(rows[k], plan, i))
  }

  /** Batches are filled in order, and each ends only where the next row does not fit. */
  predicate Batched(groups: seq<seq<Row>>, plan: string) {
    && (forall i :: 0 <= i < |groups| ==> Filled(groups[i], plan, i))
    && (forall i :: 0 < i < |groups| ==> !Joins(groups[i - 1], groups[i][0], plan, i - 1))
  }

  /** The texts of the finished batches, before the step of the marker is added. */
  predicate Buffers(texts: seq<string>, groups: seq<seq<Row>>, plan: string)
  {
    |texts| == |groups| && forall i :: 0 <= i < |groups| ==> texts[i] == RowsText(groups[i], Marker(plan, i))
  }

  lemma RowJoins(rows: seq<Row>, row: Row, plan: string, i: nat)
    ensures RowsText(rows + [row], Marker(plan, i)) ==
      RowsText(rows, Marker(plan, i)) + RowSql(row, Marker(plan, i)) + "\n"
    ensures Units(RowsText(rows + [row], Marker(plan, i))) ==
            Units(RowsText(rows, Marker(plan, i))) + Units(RowSql(row, Marker(plan, i))) + 1
  {
    hide RowSql, Buildable, Marker;
    assert (rows + [row])[..|rows|] == rows;
    var before := RowsText(rows, Marker(plan, i));
    var sql := RowSql(row, Marker(plan, i));
    UnitsConcat(before + sql, "\n");
    UnitsConcat(before, sql);
    assert Units("\n") == 1;
  }

  lemma SameBuildable(row: Row, expected: string)
    ensures StatementsOf(row, expected).Some? <==> Buildable(row)
  {
  }

  lemma FlattenMore(groups: seq<seq<Row>>, rows: seq<Row>)
    ensures Flatten(groups + [rows]) == Flatten(groups) + rows
  {
    assert (groups + [rows])[..|groups|] == groups;
  }

  /** The batches so far, the growing one included. */
  function Grown(groups: seq<seq<Row>>, current: seq<Row>): seq<seq<Row>> {
    if current == [] then groups else groups + [current]
  }

  lemma EmptyText(rows: seq<Row>, expected: string)
    requires forall r :: r in rows ==> Buildable(r)
    ensures RowsText(rows, expected) == "" <==> rows == []
  {
    if rows != [] { RowSqlNotEmpty(rows[|rows| - 1], expected); }
    hide RowSql, Buildable;
  }

  /** A row that fits, or that comes first, extends the growing batch. */
  lemma RowAdded(groups: seq<seq<Row>>, current: seq<Row>, row: Row, plan: string)
    requires Batched(Grown(groups, current), plan) && Accepted(row, plan, |groups|)
    requires current != [] && Joins(current, row, plan, |groups|)
    ensures Batched(groups + [current + [row]], plan)
  {
    hide RowSql, Buildable, Marker;
    var n := |groups|;
    var grown := groups + [current + [row]];
    assert Grown(groups, current)[n] == current;
    RowJoins(current, row, plan, n);
    forall i | 0 <= i < |grown| ensures Filled(grown[i], plan, i) {
      if i < n { assert grown[i] == Grown(groups, current)[i]; }
    }
    forall i | 0 < i < |grown| ensures !Joins(grown[i - 1], grown[i][0], plan, i - 1) {
      assert grown[i - 1] == Grown(groups, current)[i - 1] && grown[i][0] == Grown(groups, current)[i][0];
    }
  }

  /** A row that does not fit starts the next batch. */
  lemma RowStarts(groups: seq<seq<Row>>, row: Row, plan: string)
    requires Batched(groups, plan) && Accepted(row, plan, if groups == [] then 0 else |groups| - 1)
    requires groups != [] ==> !Joins(groups[|groups| - 1], row, plan, |groups| - 1)
    ensures Batched(groups + [[row]], plan)
  {
    hide RowSql, Marker, RowsText;
    var n := |groups|;
    var grown := groups + [[row]];
    forall i | 0 <= i < |grown| ensures Filled(grown[i], plan, i) {
      if i < n { assert grown[i] == groups[i]; }
    }
    forall i | 0 < i < |grown| ensures !Joins(grown[i - 1], grown[i][0], plan, i - 1) {
      assert grown[i - 1] == groups[i - 1];
      if i < n { assert grown[i] == groups[i]; }
    }
  }

  /** A batch must be closed before the row. */
  predicate Closes(buffer: string, count: nat, statement: string) {
    buffer != "" && (Units(buffer) + Units(statement) > MAX_UNITS || count >= MAX_ROWS)
  }

  lemma ClosesWhenFull(current: seq<Row>, row: Row, plan: string, i: nat)
    requires Buildable(row) && forall r :: r in current ==> Buildable(r)
    ensures Closes(RowsText(current, Marker(plan, i)), |current|, RowSql(row, Marker(plan, i))) <==>
            current != [] && !Joins(current, row, plan, i)
  {
    EmptyText(current, Marker(plan, i));
    hide RowSql, Buildable, Marker, RowsText;
  }

  /** The state of the loop: finished texts, and the growing one with its rows. */
  predicate Filling(done: seq<string>, buffer: string, count: nat, closed: seq<seq<Row>>, current: seq<Row>,
    plan: string) {
    && Batched(Grown(closed, current), plan) && Buffers(done, closed, plan)
    && (closed != [] ==> current != []) && count == |current|
    && buffer == RowsText(current, Marker(plan, |done|))
  }

  lemma Adding(done: seq<string>, buffer: string, count: nat, closed: seq<seq<Row>>, current: seq<Row>, row: Row,
    plan: string)
    requires Filling(done, buffer, count, closed, current, plan) && Accepted(row, plan, |done|)
    requires !Closes(buffer, count, RowSql(row, Marker(plan, |done|)))
    ensures Filling(done, buffer + RowSql(row, Marker(plan, |done|)) + "\n", count + 1, closed, current + [row], plan)
    ensures Flatten(Grown(closed, current + [row])) == Flatten(Grown(closed, current)) + [row]
  {
    hide RowSql, Marker, RowsText, Joins, Filled, Closes;
    assert Buildable(row);
    assert forall r :: r in current ==> Buildable(r) by { CurrentBuildable(closed, current, plan); }
    ClosesWhenFull(current, row, plan, |done|);
    hide Buildable, Accepted;
    RowJoins(current, row, plan, |done|);
    FlattenMore(closed, current);
    FlattenMore(closed, current + [row]);
    if current != [] {
      RowAdded(closed, current, row, plan);
    } else {
      assert [] + [row] == [row];
      RowStarts([], row, plan);
    }
  }

  lemma Closing(done: seq<string>, buffer: string, count: nat, closed: seq<seq<Row>>, current: seq<Row>, row: Row,
    plan: string)
    requires Filling(done, buffer, count, closed, current, plan) && Accepted(row, plan, |done|)
    requires Closes(buffer, count, RowSql(row, Marker(plan, |done|)))
    ensures Filling(done + [buffer], RowSql(row, Marker(plan, |done| + 1)) + "\n", 1, closed + [current], [row], plan)
    ensures Flatten(Grown(closed + [current], [row])) == Flatten(Grown(closed, current)) + [row]
  {
    hide RowSql, Marker, RowsText, Joins, Filled, Closes;
    assert Buildable(row);
    assert forall r :: r in current ==> Buildable(r) by { CurrentBuildable(closed, current, plan); }
    ClosesWhenFull(current, row, plan, |done|);
    hide Buildable, Accepted;
    BuffersMore(done, closed, current, plan);
    hide Buffers;
    assert (closed + [current])[|closed|] == current;
    RowStarts(closed + [current], row, plan);
    hide Batched, Flatten;
    FlattenMore(closed + [current], [row]);
    FirstLine(row, plan, |done| + 1);
  }

  lemma FirstLine(row: Row, plan: string, i: nat)
    ensures RowsText([row], Marker(plan, i)) == RowSql(row, Marker(plan, i)) + "\n"
  {
    hide RowSql, Marker;
    assert [row][..0] == [];
    var sql := RowSql(row, Marker(plan, i));
    assert "" + sql + "\n" == sql + "\n";
  }

  lemma CurrentBuildable(closed: seq<seq<Row>>, current: seq<Row>, plan: string)
    requires Batched(Grown(closed, current), plan)
    ensures forall r :: r in current ==> Buildable(r)
  {
    if current != [] { assert Grown(closed, current)[|closed|] == current; }
  }

  /** The buffer is empty only before the first row. */
  lemma LastClosed(done: seq<string>, buffer: string, count: nat, closed: seq<seq<Row>>, current: seq<Row>,
    plan: string)
    requires Filling(done, buffer, count, closed, current, plan)
    ensures Buffers(if buffer == "" then done else done + [buffer], Grown(closed, current), plan)
    ensures |done| == |closed| && Batched(Grown(closed, current), plan)
  {
    CurrentBuildable(closed, current, plan);
    EmptyText(current, Marker(plan, |done|));
    hide RowsText, Batched, Marker;
    BuffersMore(done, closed, current, plan);
  }

  lemma NothingFilled(plan: string)
    ensures Filling([], "", 0, [], [], plan) && Flatten<Row>([]) == []
  {
  }

  /** The batch that decides whether the next row is accepted. */
  function Current(groups: seq<seq<Row>>): nat { if groups == [] then 0 else |groups| - 1 }

  /**
   * `rowBatches`. The batches partition the rows in order, each holds at most 40 rows, every statement of
   * batch `i` names marker `i`, and a batch ends only where the next row would not fit. It fails exactly on
   * a row that cannot be written, or one whose statement is too long under the guard at that point.
   */
  method RowBatches(rows: seq<Row>, plan: string) returns (texts: Option<seq<string>>, ghost groups: seq<seq<Row>>)
    ensures Batched(groups, plan)
    ensures texts.Some? ==>
      && Flatten(groups) == rows && |texts.value| == |groups|
      && forall i :: 0 <= i < |groups| ==> texts.value[i] == BatchText(groups[i], plan, i)
    ensures texts.None? ==>
      Flatten(groups) < rows && !Accepted(rows[|Flatten(groups)|], plan, Current(groups))
  {
    hide RowSql, Buildable, Marker, RowsText, Batched, Accepted, Closes, Joins, Buffers, Filling, Flatten, BatchText,
      SqlOf;
    var done: seq<string> := [];
    var buffer, count := "", 0;
    ghost var closed: seq<seq<Row>> := [];
    ghost var current: seq<Row> := [];
    NothingFilled(plan);
    for n := 0 to |rows|
      invariant Filling(done, buffer, count, closed, current, plan)
      invariant Flatten(Grown(closed, current)) == rows[..n]
      invariant |done| == |closed| == Current(Grown(closed, current))
    {
      var row := rows[n];
      groups := Grown(closed, current);
      assert rows[..n + 1] == rows[..n] + [row] && |rows[..n]| == n;
      LastClosed(done, buffer, count, closed, current, plan);
      AcceptedBytes(row, plan, |done|);
      if !Buildable(row) { return None, groups; }
      var statement := RowSql(row, Marker(plan, |done|));
      if Utf8Length(statement) > MAX_BYTES { return None, groups; }
      if Closes(buffer, count, statement) {
        Closing(done, buffer, count, closed, current, row, plan);
        done, buffer, count := done + [buffer], "", 0;
        closed, current := closed + [current], [];
      } else {
        Adding(done, buffer, count, closed, current, row, plan);
      }
      var line := RowSql(row, Marker(plan, |done|)) + "\n";
      assert "" + line == line && [] + [row] == [row];
      assert buffer + line == buffer + RowSql(row, Marker(plan, |done|)) + "\n";
      buffer, count, current := buffer + line, count + 1, current + [row];
    }
    assert rows[..|rows|] == rows;
    groups := Grown(closed, current);
    LastClosed(done, buffer, count, closed, current, plan);
    if buffer != "" { done := done + [buffer]; }
    BuffersAll(done, groups, plan);
    texts := Some(seq(|done|, i
      requires 0 <= i < |done| => done[i] + SqlOf(Advance(Marker(plan, i), Marker(plan, i + 1))) + ";"));
  }

  lemma AcceptedBytes(row: Row, plan: string, i: nat)
    ensures Accepted(row, plan, i) <==> Buildable(row) && Utf8Length(RowSql(row, Marker(plan, i))) <= MAX_BYTES
  {
  }

  lemma BuffersMore(done: seq<string>, closed: seq<seq<Row>>, current: seq<Row>, plan: string)
    requires Buffers(done, closed, plan)
    ensures Buffers(done + [RowsText(current, Marker(plan, |done|))], closed + [current], plan)
  {
    hide RowsText, Buildable, Marker;
    var texts := done + [RowsText(current, Marker(plan, |done|))];
    var all := closed + [current];
    forall i | 0 <= i < |all| ensures texts[i] == RowsText(all[i], Marker(plan, i)) {
      if i < |closed| { assert all[i] == closed[i]; }
    }
  }

  lemma BuffersAll(done: seq<string>, closed: seq<seq<Row>>, plan: string)
    requires Buffers(done, closed, plan)
    ensures |done| == |closed| && forall i :: 0 <= i < |closed| ==>
      done[i] + SqlOf(Advance(Marker(plan, i), Marker(plan, i + 1))) + ";" == BatchText(closed[i], plan, i)
  {
    hide SqlOf, RowsText, Marker, Buildable;
  }
}
