/**
 Executing restore batches (server-restore.ts): every query runs all its statements in one step, but it
 may be repeated, arrive late, or lose its response, and the process may stop between any two calls.
 */
module RestoreRuns {
  import opened Common
  import opened Text
  import opened DumpCodec
  import opened RestoreBatches
  import opened RestoreSql

  // ---------- what statements do ----------

  /** The restore database: its marker, the inserted rows in order, the sequence table, and reminder jobs. */
  datatype Target = Target(marker: string, rows: seq<Row>, sequences: seq<Row>, jobs: seq<Row>)

  /** `bump` is what inserting a row does to the sequence table by itself; `project` derives jobs from rows. */
  datatype Engine = Engine(bump: (seq<Row>, Row) -> seq<Row>, project: (nat, seq<Row>) -> seq<Row>)

  /** One restore: the hash of what it restores, and its time. */
  datatype Plan = Plan(hash: string, at: nat)

  /** The sequence table without the rows of a name. */
  function Without(sequences: seq<Row>, name: string): seq<Row> {
    if sequences == [] then []
    else
      var last := sequences[|sequences| - 1];
      Without(sequences[..|sequences| - 1], name) + if SequenceName(last) == Some(name) then [] else [last]
  }

  /** One statement; every one checks its own guard. */
  function Run(e: Engine, s: Statement, db: Target): Target {
    if db.marker != s.expected then db
    else match s
      case InsertRow(row, _) =>
        if row.table == SEQUENCE then db.(sequences := db.sequences + [row])
        else db.(rows := db.rows + [row], sequences := e.bump(db.sequences, row))
      case DeleteSequence(name, _) => db.(sequences := Without(db.sequences, name))
      case InsertJobs(at, _) => db.(jobs := db.jobs + e.project(at, db.rows))
      case Advance(_, next) => db.(marker := next)
  }

  function RunAll(e: Engine, ss: seq<Statement>, db: Target): Target
    decreases |ss|
  {
    if ss == [] then db else Run(e, ss[|ss| - 1], RunAll(e, ss[..|ss| - 1], db))
  }

  function RowStatements(rows: seq<Row>, expected: string): seq<Statement>
    requires forall r :: r in rows ==> Buildable(r)
  {
    if rows == [] then []
    else
      SameBuildable(rows[|rows| - 1], expected);
      RowStatements(rows[..|rows| - 1], expected) + StatementsOf(rows[|rows| - 1], expected).value
  }

  /** Batch `i`, or behind the last batch the query that adds the reminder jobs. */
  function Query(groups: seq<seq<Row>>, plan: Plan, i: nat): seq<Statement>
    requires Batched(groups, plan.hash) && i <= |groups|
  {
    (if i < |groups| then assert Filled(groups[i], plan.hash, i); RowStatements(groups[i], Marker(plan.hash, i))
     else [InsertJobs(plan.at, Marker(plan.hash, i))])
    + [Advance(Marker(plan.hash, i), Marker(plan.hash, i + 1))]
  }

  // ---------- the text of a query ----------

  lemma {:induction false} LinesJoin(a: seq<Statement>, b: seq<Statement>)
    requires a != [] && b != []
    ensures Lines(a + b) == Lines(a) + "\n" + Lines(b)
    decreases |b|
  {
    hide SqlOf;
    var n := |b| - 1;
    assert (a + b)[..|a + b| - 1] == a + b[..n];
    if n > 0 {
      LinesJoin(a, b[..n]);
      assert Lines(a + b) == Lines(a) + "\n" + Lines(b[..n]) + "\n" + SqlOf(b[n]) + ";";
      assert Lines(b) == Lines(b[..n]) + "\n" + SqlOf(b[n]) + ";";
    } else {
      assert a + b[..0] == a;
    }
  }

  lemma {:induction false} LinesAreRows(rows: seq<Row>, expected: string)
    requires rows != [] && forall r :: r in rows ==> Buildable(r)
    ensures RowStatements(rows, expected) != []
    ensures RowsText(rows, expected) == Lines(RowStatements(rows, expected)) + "\n"
  {
    hide SqlOf, Buildable, Lines, IndexOf, SequenceName;
    var n := |rows| - 1;
    SameBuildable(rows[n], expected);
    var last := StatementsOf(rows[n], expected).value;
    if n > 0 {
      LinesAreRows(rows[..n], expected);
      LinesJoin(RowStatements(rows[..n], expected), last);
      Regrouped(Lines(RowStatements(rows[..n], expected)), "\n", Lines(last));
    } else {
      assert rows[..0] == [] && RowStatements([], expected) + last == last;
      assert "" + Lines(last) + "\n" == Lines(last) + "\n";
    }
  }

  lemma Regrouped(a: string, b: string, c: string)
    ensures a + b + c + b == (a + b + c) + b
  {
  }

  /** The text of a batch, as `rowBatches` writes it, is the text of these statements. */
  lemma QueryIsText(groups: seq<seq<Row>>, plan: Plan, i: nat)
    requires Batched(groups, plan.hash) && i < |groups|
    ensures BatchText(groups[i], plan.hash, i) == Lines(Query(groups, plan, i))
  {
    assert Filled(groups[i], plan.hash, i);
    LinesAreRows(groups[i], Marker(plan.hash, i));
    hide SqlOf, RowsText, Lines, Marker, RowStatements, Batched, Filled, Buildable;
    var rows := RowStatements(groups[i], Marker(plan.hash, i));
    var step := Advance(Marker(plan.hash, i), Marker(plan.hash, i + 1));
    LinesJoin(rows, [step]);
    OneLineText(step);
    assert Lines(rows) + "\n" + (SqlOf(step) + ";") == Lines(rows) + "\n" + SqlOf(step) + ";";
  }

  lemma OneLineText(s: Statement)
    ensures Lines([s]) == SqlOf(s) + ";"
  {
  }

  ghost predicate AllPrepared(groups: seq<seq<Row>>) {
    forall i, r :: 0 <= i < |groups| && r in groups[i] ==> Prepared(r)
  }

  lemma {:induction false} RowsReadable(rows: seq<Row>, expected: string)
    requires forall r :: r in rows ==> Buildable(r) && Prepared(r)
    ensures forall s :: s in RowStatements(rows, expected) ==> Readable(s)
  {
    hide Readable, Prepared, Buildable, StatementsOf;
    if rows != [] {
      var n := |rows| - 1;
      assert rows[n] in rows;
      SameBuildable(rows[n], expected);
      PreparedIsReadable(rows[n], expected);
      RowsReadable(rows[..n], expected);
    }
  }

  /**
   * What is sent says what is meant: the text of a batch, and that of the query behind the last one, reads back as
   * exactly its statements, each with its row and the marker it is guarded by.
   */
  lemma TextMeansQuery(groups: seq<seq<Row>>, plan: Plan, i: nat)
    requires Batched(groups, plan.hash) && AllPrepared(groups) && i <= |groups|
    ensures ReadQuery(Lines(Query(groups, plan, i))) == Some(Query(groups, plan, i))
    ensures i < |groups| ==> ReadQuery(BatchText(groups[i], plan.hash, i)) == Some(Query(groups, plan, i))
  {
    if i < |groups| {
      assert Filled(groups[i], plan.hash, i);
      RowsReadable(groups[i], Marker(plan.hash, i));
      QueryIsText(groups, plan, i);
    }
    hide Marker, RowStatements, Batched, Filled, Buildable, ReadQuery, Lines, Prepared, BatchText;
    var q := Query(groups, plan, i);
    forall k | 0 <= k < |q| ensures Readable(q[k]) {
      if i < |groups| && k < |q| - 1 { assert q[k] in RowStatements(groups[i], Marker(plan.hash, i)); }
    }
    QueryReads(q);
  }

  /** The server executes a text: its statements in order, or nothing if it is not one. */
  function RunText(e: Engine, text: string, db: Target): Target {
    var ss := ReadQuery(text);
    if ss.None? then db else RunAll(e, ss.value, db)
  }

  // ---------- what rows mean ----------

  /** The effect of one row: ordinary rows are added once, a sequence row replaces what stands there. */
  function Put(e: Engine, row: Row, db: Target): Target {
    if row.table == SEQUENCE
    then if SequenceName(row).None? then db
         else db.(sequences := Without(db.sequences, SequenceName(row).value) + [row])
    else db.(rows := db.rows + [row], sequences := e.bump(db.sequences, row))
  }

  function PutAll(e: Engine, rows: seq<Row>, db: Target): Target {
    if rows == [] then db else Put(e, rows[|rows| - 1], PutAll(e, rows[..|rows| - 1], db))
  }

  lemma {:induction false} PutAllConcat(e: Engine, a: seq<Row>, b: seq<Row>, db: Target)
    ensures PutAll(e, a + b, db) == PutAll(e, b, PutAll(e, a, db))
    decreases |b|
  {
    if b == [] {
      assert a + b == a;
    } else {
      assert (a + b)[..|a + b| - 1] == a + b[..|b| - 1];
      PutAllConcat(e, a, b[..|b| - 1], db);
    }
  }

  lemma {:induction false} PutKeepsMarker(e: Engine, rows: seq<Row>, db: Target, marker: string)
    ensures PutAll(e, rows, db).marker == db.marker && PutAll(e, rows, db).jobs == db.jobs
    ensures PutAll(e, rows, db.(marker := marker)) == PutAll(e, rows, db).(marker := marker)
  {
    if rows != [] { PutKeepsMarker(e, rows[..|rows| - 1], db, marker); }
  }

  lemma {:induction false} RunConcat(e: Engine, a: seq<Statement>, b: seq<Statement>, db: Target)
    ensures RunAll(e, a + b, db) == RunAll(e, b, RunAll(e, a, db))
    decreases |b|
  {
    hide Run;
    if b == [] {
      assert a + b == a;
    } else {
      assert (a + b)[..|a + b| - 1] == a + b[..|b| - 1];
      RunConcat(e, a, b[..|b| - 1], db);
    }
  }

  /** The one or two statements of a row. */
  lemma RowRuns(e: Engine, row: Row, expected: string, db: Target)
    requires Buildable(row)
    ensures StatementsOf(row, expected).Some?
    ensures RunAll(e, StatementsOf(row, expected).value, db) == if db.marker == expected then Put(e, row, db) else db
  {
    hide IndexOf, SequenceName, IsIdentifier, Without;
    var ss := StatementsOf(row, expected).value;
    assert RunAll(e, [], db) == db;
    assert ss[..1] == [ss[0]] && [ss[0]][..0] == [];
    assert RunAll(e, [ss[0]], db) == Run(e, ss[0], db);
  }

  /** The statements of some rows take effect together or not at all. */
  lemma {:induction false} RowsRun(e: Engine, rows: seq<Row>, expected: string, db: Target)
    requires forall r :: r in rows ==> Buildable(r)
    ensures RunAll(e, RowStatements(rows, expected), db) == if db.marker == expected then PutAll(e, rows, db) else db
  {
    hide Buildable, StatementsOf, Run, Put;
    if rows == [] {
      RunNone(e, db);
    } else {
      var n := |rows| - 1;
      assert rows[n] in rows;
      RowsRun(e, rows[..n], expected, db);
      var before := RunAll(e, RowStatements(rows[..n], expected), db);
      PutKeepsMarker(e, rows[..n], db, db.marker);
      RowRuns(e, rows[n], expected, before);
      RunConcat(e, RowStatements(rows[..n], expected), StatementsOf(rows[n], expected).value, db);
    }
  }

  // ---------- exactly once ----------

  /** A database that holds exactly the rows of the first `k` batches; behind the last batch, the jobs too. */
  function After(e: Engine, groups: seq<seq<Row>>, plan: Plan, k: nat): Target
    requires k <= |groups| + 1
  {
    if k <= |groups| then PutAll(e, Flatten(groups[..k]), Target(Marker(plan.hash, k), [], [], []))
    else
      var all := After(e, groups, plan, |groups|);
      all.(marker := Marker(plan.hash, k), jobs := e.project(plan.at, all.rows))
  }

  lemma AfterMarker(e: Engine, groups: seq<seq<Row>>, plan: Plan, k: nat)
    requires k <= |groups| + 1
    ensures After(e, groups, plan, k).marker == Marker(plan.hash, k)
    ensures k <= |groups| ==> After(e, groups, plan, k).jobs == []
  {
    if k <= |groups| { PutKeepsMarker(e, Flatten(groups[..k]), Target(Marker(plan.hash, k), [], [], []), ""); }
  }

  /** The next batch in turn. */
  lemma NextBatch(e: Engine, groups: seq<seq<Row>>, plan: Plan, k: nat)
    requires Batched(groups, plan.hash) && k < |groups|
    ensures RunAll(e, Query(groups, plan, k), After(e, groups, plan, k)) == After(e, groups, plan, k + 1)
  {
    var db := After(e, groups, plan, k);
    AfterMarker(e, groups, plan, k);
    assert Filled(groups[k], plan.hash, k);
    RowsThenStep(e, groups[k], Marker(plan.hash, k), Marker(plan.hash, k + 1), db);
    hide Marker, Buildable, Batched, Filled, PutAll, RowStatements, Put, RunAll, After;
    BatchPut(e, groups, plan, k);
  }

  lemma RowsThenStep(e: Engine, rows: seq<Row>, expected: string, next: string, db: Target)
    requires (forall r :: r in rows ==> Buildable(r)) && db.marker == expected
    ensures RunAll(e, RowStatements(rows, expected) + [Advance(expected, next)], db) ==
      PutAll(e, rows, db).(marker := next)
  {
    hide Buildable, Put, PutAll, RunAll, RowStatements;
    RowsRun(e, rows, expected, db);
    RunMore(e, RowStatements(rows, expected), Advance(expected, next), db);
    PutKeepsMarker(e, rows, db, next);
  }

  lemma RunMore(e: Engine, ss: seq<Statement>, s: Statement, db: Target)
    ensures RunAll(e, ss + [s], db) == Run(e, s, RunAll(e, ss, db))
  {
    hide Run;
    assert (ss + [s])[..|ss|] == ss;
  }

  lemma RunNone(e: Engine, db: Target)
    ensures RunAll(e, [], db) == db
  {
  }

  lemma BatchPut(e: Engine, groups: seq<seq<Row>>, plan: Plan, k: nat)
    requires k < |groups|
    ensures PutAll(e, groups[k], After(e, groups, plan, k)).(marker := Marker(plan.hash, k + 1)) ==
      After(e, groups, plan, k + 1)
  {
    hide Marker, Put, PutAll;
    var none := Target(Marker(plan.hash, k), [], [], []);
    FlattenMore(groups[..k], groups[k]);
    assert groups[..k] + [groups[k]] == groups[..k + 1];
    PutAllConcat(e, Flatten(groups[..k]), groups[k], none);
    PutKeepsMarker(e, Flatten(groups[..k + 1]), none, Marker(plan.hash, k + 1));
  }

  lemma AfterLast(e: Engine, groups: seq<seq<Row>>, plan: Plan)
    ensures var all := After(e, groups, plan, |groups|);
      After(e, groups, plan, |groups| + 1) ==
        all.(marker := Marker(plan.hash, |groups| + 1), jobs := e.project(plan.at, all.rows))
  {
    hide Marker, PutAll, Flatten;
  }

  lemma LastStatements(groups: seq<seq<Row>>, plan: Plan)
    requires Batched(groups, plan.hash)
    ensures Query(groups, plan, |groups|) ==
            [InsertJobs(plan.at, Marker(plan.hash, |groups|))]
              + [Advance(Marker(plan.hash, |groups|), Marker(plan.hash, |groups| + 1))]
  {
    hide Marker, Batched;
  }

  /** The query behind the last batch. */
  lemma LastQuery(e: Engine, groups: seq<seq<Row>>, plan: Plan)
    requires Batched(groups, plan.hash)
    ensures RunAll(e, Query(groups, plan, |groups|), After(e, groups, plan, |groups|)) ==
      After(e, groups, plan, |groups| + 1)
  {
    var k := |groups|;
    var db := After(e, groups, plan, k);
    AfterMarker(e, groups, plan, k);
    AfterLast(e, groups, plan);
    LastStatements(groups, plan);
    hide Marker, Batched, PutAll, RunAll, After, Query, RowStatements;
    RunMore(e, [], InsertJobs(plan.at, Marker(plan.hash, k)), db);
    RunMore(e, [InsertJobs(plan.at, Marker(plan.hash, k))], Advance(Marker(plan.hash, k), Marker(plan.hash, k + 1)),
      db);
    RunNone(e, db);
    assert [] + [InsertJobs(plan.at, Marker(plan.hash, k))] == [InsertJobs(plan.at, Marker(plan.hash, k))];
    assert [] + e.project(plan.at, db.rows) == e.project(plan.at, db.rows);
  }

  /** A query that is out of turn, because it is repeated or late or early, changes nothing. */
  lemma {:induction false} OtherQuery(e: Engine, ss: seq<Statement>, expected: string, db: Target)
    requires (forall s :: s in ss ==> s.expected == expected) && db.marker != expected
    ensures RunAll(e, ss, db) == db
  {
    if ss != [] {
      assert ss[|ss| - 1] in ss;
      OtherQuery(e, ss[..|ss| - 1], expected, db);
    }
  }

  lemma QueryNamesItself(groups: seq<seq<Row>>, plan: Plan, i: nat)
    requires Batched(groups, plan.hash) && i <= |groups|
    ensures forall s :: s in Query(groups, plan, i) ==> s.expected == Marker(plan.hash, i)
  {
    if i < |groups| {
      assert Filled(groups[i], plan.hash, i);
      RowsNameMarker(groups[i], Marker(plan.hash, i));
    }
    hide Marker, Buildable, Batched, Filled, RowStatements;
  }

  lemma {:induction false} RowsNameMarker(rows: seq<Row>, expected: string)
    requires forall r :: r in rows ==> Buildable(r)
    ensures forall s :: s in RowStatements(rows, expected) ==> s.expected == expected
  {
    hide IndexOf, SequenceName, IsIdentifier;
    if rows != [] {
      var n := |rows| - 1;
      assert rows[n] in rows;
      RowsNameMarker(rows[..n], expected);
      SameBuildable(rows[n], expected);
    }
  }

  lemma QueryEffect(e: Engine, groups: seq<seq<Row>>, plan: Plan, k: nat, i: nat)
    requires Batched(groups, plan.hash) && k <= |groups| + 1 && i <= |groups|
    ensures RunAll(e, Query(groups, plan, i), After(e, groups, plan, k)) ==
      After(e, groups, plan, if i == k then k + 1 else k)
  {
    hide Query, After, Marker, Batched, RunAll;
    if i == k {
      if k < |groups| { NextBatch(e, groups, plan, k); } else { LastQuery(e, groups, plan); }
    } else {
      AfterMarker(e, groups, plan, k);
      MarkerNames(plan.hash, i, k);
      QueryNamesItself(groups, plan, i);
      OtherQuery(e, Query(groups, plan, i), Marker(plan.hash, i), After(e, groups, plan, k));
    }
  }

  /** How far a history of executions gets. */
  function Progress(executions: seq<nat>, from: nat): nat {
    if executions == [] then from
    else
      var k := Progress(executions[..|executions| - 1], from);
      if executions[|executions| - 1] == k then k + 1 else k
  }

  function Execute(e: Engine, groups: seq<seq<Row>>, plan: Plan, executions: seq<nat>, db: Target): Target
    requires Batched(groups, plan.hash) && forall j :: 0 <= j < |executions| ==> executions[j] <= |groups|
  {
    if executions == [] then db
    else
      var n := |executions| - 1;
      RunAll(e, Query(groups, plan, executions[n]), Execute(e, groups, plan, executions[..n], db))
  }

  /** After any history of repeated, lost and late executions the database holds exactly the rows of the
      first `k` batches, where `k` is what its marker says. */
  lemma {:induction false} ExactlyOnce(e: Engine, groups: seq<seq<Row>>, plan: Plan, executions: seq<nat>, from: nat)
    requires Batched(groups, plan.hash) && from <= |groups| + 1 && forall j :: 0 <= j < |executions| ==>
      executions[j] <= |groups|
    ensures from <= Progress(executions, from) <= |groups| + 1
    ensures Execute(e, groups, plan, executions, After(e, groups, plan, from)) ==
      After(e, groups, plan, Progress(executions, from))
  {
    hide After, Query, Batched;
    if executions != [] {
      var n := |executions| - 1;
      ExactlyOnce(e, groups, plan, executions[..n], from);
      QueryEffect(e, groups, plan, Progress(executions[..n], from), executions[n]);
    }
  }

  // ---------- the restored contents ----------

  function Ordinary(rows: seq<Row>): seq<Row> {
    if rows == [] then []
    else Ordinary(rows[..|rows| - 1]) + (if rows[|rows| - 1].table == SEQUENCE then [] else [rows[|rows| - 1]])
  }

  lemma {:induction false} PutsOrdinary(e: Engine, rows: seq<Row>, db: Target)
    ensures PutAll(e, rows, db).rows == db.rows + Ordinary(rows)
  {
    if rows == [] {
      assert db.rows + [] == db.rows;
    } else {
      PutsOrdinary(e, rows[..|rows| - 1], db);
      assert Ordinary(rows[..|rows| - 1]) + [] == Ordinary(rows[..|rows| - 1]);
    }
  }

  /** Rows of the sequence table, one for each name. */
  predicate IsSequences(rows: seq<Row>) {
    && (forall i :: 0 <= i < |rows| ==> rows[i].table == SEQUENCE && SequenceName(rows[i]).Some?)
    && (forall i, j :: 0 <= i < j < |rows| ==> SequenceName(rows[i]) != SequenceName(rows[j]))
  }

  /** The rows of a name in the sequence table. */
  function Named(sequences: seq<Row>, name: string): seq<Row> {
    if sequences == [] then []
    else
      var last := sequences[|sequences| - 1];
      Named(sequences[..|sequences| - 1], name) + if SequenceName(last) == Some(name) then [last] else []
  }

  lemma NamedMore(sequences: seq<Row>, row: Row, name: string)
    ensures Named(sequences + [row], name) ==
      Named(sequences, name) + if SequenceName(row) == Some(name) then [row] else []
  {
    hide SequenceName;
    assert (sequences + [row])[..|sequences|] == sequences;
  }

  lemma {:induction false} NamedWithout(sequences: seq<Row>, gone: string, name: string)
    ensures Named(Without(sequences, gone), name) == if name == gone then [] else Named(sequences, name)
  {
    hide SequenceName;
    if sequences != [] {
      var n := |sequences| - 1;
      var last := sequences[n];
      NamedWithout(sequences[..n], gone, name);
      NamedMore(Without(sequences[..n], gone), last, name);
      if SequenceName(last) == Some(gone) {
        assert Without(sequences[..n], gone) + [] == Without(sequences[..n], gone);
      }
    }
  }

  lemma {:induction false} PutsSequences(e: Engine, rows: seq<Row>, db: Target)
    requires IsSequences(rows)
    ensures forall i :: 0 <= i < |rows| ==>
      Named(PutAll(e, rows, db).sequences, SequenceName(rows[i]).value) == [rows[i]]
  {
    hide IndexOf, SequenceName, Named, Without;
    if rows != [] {
      var n := |rows| - 1;
      var before := PutAll(e, rows[..n], db).sequences;
      var name := SequenceName(rows[n]).value;
      PutsSequences(e, rows[..n], db);
      forall i | 0 <= i < |rows|
        ensures Named(PutAll(e, rows, db).sequences, SequenceName(rows[i]).value) == [rows[i]]
      {
        NamedWithout(before, name, SequenceName(rows[i]).value);
        NamedMore(Without(before, name), rows[n], SequenceName(rows[i]).value);
        if i < n { assert rows[..n][i] == rows[i]; }
      }
    }
  }

  /** A finished restore holds the ordinary rows once, in order. Sequence rows come last in a backup, so
      whatever the insertions did to the sequence table, each sequence ends as it was backed up. */
  lemma RestoredContents(e: Engine, groups: seq<seq<Row>>, plan: Plan, rows: seq<Row>, sequences: seq<Row>)
    requires Flatten(groups) == rows + sequences && IsSequences(sequences)
    ensures var db := After(e, groups, plan, |groups| + 1);
      && db.rows == Ordinary(Flatten(groups))
      && db.jobs == e.project(plan.at, Ordinary(Flatten(groups)))
      && forall i :: 0 <= i < |sequences| ==>
           Named(db.sequences, SequenceName(sequences[i]).value) == [sequences[i]]
  {
    hide IndexOf, SequenceName, Marker, Put, PutAll, Ordinary;
    var n := |groups|;
    var none := Target(Marker(plan.hash, n), [], [], []);
    assert groups[..n] == groups;
    PutsOrdinary(e, Flatten(groups), none);
    assert [] + Ordinary(Flatten(groups)) == Ordinary(Flatten(groups));
    PutAllConcat(e, rows, sequences, none);
    PutsSequences(e, sequences, PutAll(e, rows, none));
  }

  // ---------- resuming ----------

  /** The number of batches a marker of this plan stands for. */
  function ProgressOf(plan: string, marker: string): Option<nat> {
    if |marker| <= |plan| || marker[..|plan|] != plan || marker[|plan|] != ':' then None
    else
      var number := marker[|plan| + 1..];
      if IsIntText(number) && IntValue(number) >= 0 then Some(IntValue(number)) else None
  }

  lemma MarkerRead(plan: string, k: nat)
    ensures ProgressOf(plan, Marker(plan, k)) == Some(k)
  {
    IntRoundTrip(k);
    hide IntText, IntValue, IsIntText;
    var marker := Marker(plan, k);
    assert marker[..|plan|] == plan && marker[|plan|] == ':';
    assert marker[|plan| + 1..] == IntText(k);
  }

  /** Two plans do not read each other's markers. */
  lemma OtherPlansMarker(plan: string, other: string, k: nat)
    requires |plan| == |other| && plan != other
    ensures ProgressOf(plan, Marker(other, k)).None?
  {
    assert Marker(other, k)[..|other|] == other;
  }

  datatype Outcome = Stopped | Foreign | Restored

  /** The restore database and the queries of earlier attempts that may still arrive. */
  class Database {
    const engine: Engine
    const plan: Plan
    const batches: seq<string>
    ghost const groups: seq<seq<Row>>
    var db: Target

    /** The batches are what `rowBatches` made of prepared rows. */
    ghost predicate Planned() {
      && Batched(groups, plan.hash) && AllPrepared(groups) && |batches| == |groups|
      && forall i :: 0 <= i < |groups| ==> batches[i] == BatchText(groups[i], plan.hash, i)
    }

    /** Holds exactly the rows of its first `k` batches. */
    ghost predicate At(k: nat)
      reads this
    {
      Planned() && k <= |groups| + 1 && db == After(engine, groups, plan, k)
    }

    /** Belongs to another operation: the marker is not one that this plan writes. */
    ghost predicate IsForeign()
      reads this
    {
      var progress := ProgressOf(plan.hash, db.marker);
      Planned() && (progress.None? || progress.value > |groups| + 1)
    }

    constructor (engine: Engine, plan: Plan, batches: seq<string>, ghost groups: seq<seq<Row>>)
      requires Batched(groups, plan.hash) && AllPrepared(groups) && |batches| == |groups|
      requires forall i :: 0 <= i < |groups| ==> batches[i] == BatchText(groups[i], plan.hash, i)
      ensures At(0) && this.engine == engine && this.plan == plan && this.groups == groups
    {
      this.engine, this.plan, this.batches, this.groups := engine, plan, batches, groups;
      db := Target(Marker(plan.hash, 0), [], [], []);
      new;
      assert groups[..0] == [] && Flatten<Row>([]) == [];
    }

    /** The text that is sent: a batch, or behind the last one the query for the reminder jobs. */
    function TextAt(index: nat): string {
      if index < |batches| then batches[index]
      else
        var step := Advance(Marker(plan.hash, index), Marker(plan.hash, index + 1));
        Lines([InsertJobs(plan.at, Marker(plan.hash, index)), step])
    }

    lemma TextRuns(index: nat, k: nat)
      requires At(k) && index <= |groups|
      ensures RunText(engine, TextAt(index), db) == After(engine, groups, plan, if index == k then k + 1 else k)
    {
      hide After, Marker, Batched, RunAll, ReadQuery, BatchText, Lines, AllPrepared, RowStatements;
      TextMeansQuery(groups, plan, index);
      QueryEffect(engine, groups, plan, k, index);
      if index == |groups| {
        LastStatements(groups, plan);
        var jobs := InsertJobs(plan.at, Marker(plan.hash, index));
        var step := Advance(Marker(plan.hash, index), Marker(plan.hash, index + 1));
        assert [jobs] + [step] == [jobs, step];
      }
    }

    /** A query arrives and is executed. */
    method Perform(index: nat, ghost k: nat)
      requires At(k) && index <= |groups|
      modifies this
      ensures At(if index == k then k + 1 else k)
    {
      TextRuns(index, k);
      hide After, Planned, RunText, TextAt;
      db := RunText(engine, TextAt(index), db);
    }

    /** Queries of earlier attempts, or repetitions of this one's, that arrive now. */
    method Arrive(late: seq<nat>, ghost k: nat)
      requires At(k) && forall j :: 0 <= j < |late| ==> late[j] <= |groups|
      modifies this
      ensures At(Progress(late, k)) && k <= Progress(late, k)
    {
      hide After, Planned;
      for n := 0 to |late|
        invariant k <= Progress(late[..n], k) && At(Progress(late[..n], k))
      {
        assert late[..n + 1][..n] == late[..n];
        Perform(late[n], Progress(late[..n], k));
      }
      assert late[..|late|] == late;
    }

    /** Sends query `index` and has its response, after whatever arrives first. */
    method Send(index: nat, late: seq<nat>, ghost k: nat) returns (ghost reached: nat)
      requires At(k) && index <= |groups| && forall j :: 0 <= j < |late| ==> late[j] <= |groups|
      modifies this
      ensures At(reached) && k <= reached && (index <= k ==> index < reached)
    {
      hide After, Planned;
      Arrive(late, k);
      Perform(index, Progress(late, k));
      reached := if index == Progress(late, k) then index + 1 else Progress(late, k);
    }

    /**
     * One attempt: it reads the marker and continues behind it, sending texts. It may stop after any number of
     * calls, and before each call any queries sent earlier may arrive. However it ends, the database holds exactly
     * the rows of its first batches and never fewer than before; an attempt that ends by itself has restored all.
     * It refuses a database exactly if another operation's marker is in it, and leaves that one alone.
     */
    method Restore(calls: nat, late: nat -> seq<nat>, ghost k: nat) returns (outcome: Outcome, ghost reached: nat)
      requires At(k) || IsForeign()
      requires forall n, j :: 0 <= j < |late(n)| ==> late(n)[j] <= |groups|
      modifies this
      ensures old(IsForeign()) ==> db == old(db) && (calls > 0 ==> outcome == Foreign)
      ensures old(At(k)) ==> At(reached) && k <= reached && outcome != Foreign
      ensures old(At(k)) && outcome == Restored ==> reached == |groups| + 1
      ensures old(At(k)) && calls > |groups| + 1 ==> outcome == Restored
    {
      reached := k;
      if calls == 0 { return Stopped, reached; }
      assert |batches| == |groups|;
      hide After, Planned, Marker, ProgressOf;
      var progress := ProgressOf(plan.hash, db.marker);
      if At(k) { MarkerAt(k); }
      if progress.None? || progress.value > |batches| + 1 { return Foreign, reached; }
      var index, sent := progress.value, 1;
      while index < |batches|
        invariant At(reached) && k <= reached && index <= reached
        invariant sent == index - progress.value + 1 && (index <= |batches| || sent == 1)
        decreases |batches| - index
      {
        if sent == calls { return Stopped, reached; }
        reached := Send(index, late(sent), reached);
        index, sent := index + 1, sent + 1;
      }
      if sent == calls { return Stopped, reached; }
      reached := Send(|batches|, late(sent), reached);
      outcome := Restored;
    }

    /** The marker tells how many queries have taken effect. */
    lemma MarkerAt(k: nat)
      requires At(k)
      ensures ProgressOf(plan.hash, db.marker) == Some(k) && k <= |groups| + 1 && |batches| == |groups| && !IsForeign()
    {
      AfterMarker(engine, groups, plan, k);
      MarkerRead(plan.hash, k);
      hide After, Marker, ProgressOf;
    }
  }
}
