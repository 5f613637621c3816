/**
 The export inside a run of everything that happens to the database: writers, other attempts, releases and
 migrations. What attempts of one backup read is what was frozen when it began.
 */
module UpgradeRun {
  import Pause = UpgradePause
  import Export = UpgradeExport

  /** The database of a server: its tables, and what each version of a table holds, in key order. */
  datatype Server = Server(names: seq<string>, rows: (string, int) -> seq<Export.Row>)

  ghost predicate WellOrdered(server: Server) {
    forall name, version :: Export.Sorted(server.rows(name, version))
  }

  function RowsIn(server: Server, contents: map<string, int>, i: nat): seq<Export.Row> {
    if i < |server.names| && server.names[i] in contents then server.rows(server.names[i], contents[server.names[i]])
      else []
  }

  /** At which state of a run each remote call of the export is answered: any number of events may come between
      two calls, and none of them goes back. */
  ghost predicate IsSchedule(schedule: nat -> nat, first: nat, last: nat) {
    && (forall t: nat :: first <= schedule(t) <= last)
    && (forall s: nat, t: nat :: s <= t ==> schedule(s) <= schedule(t))
  }

  /** What the tables hold when a remote call is answered. */
  ghost function Contents(server: Server, ss: seq<Pause.State>, schedule: nat -> nat, first: nat, last: nat):
    (nat, nat) -> seq<Export.Row>
    requires first <= last < |ss| && IsSchedule(schedule, first, last)
  {
    (t: nat, i: nat) => RowsIn(server, ss[schedule(t)].contents, i)
  }

  predicate IsGuarded(server: Server, i: nat) { i < |server.names| && server.names[i] !in Pause.CONTROL }

  /** The same backup is being exported from one state to another. */
  ghost predicate SameExport(tables: set<string>, ss: seq<Pause.State>, es: seq<Pause.Event>, first: nat, last: nat) {
    && Pause.IsRun(tables, ss, es) && first <= last < |ss|
    && Pause.Exporting(ss[first].progress) && Pause.Exporting(ss[last].progress)
    && ss[first].progress.value.epoch == ss[last].progress.value.epoch
  }

  lemma RowsAreSorted(server: Server, contents: map<string, int>, i: nat)
    requires WellOrdered(server)
    ensures Export.Sorted(RowsIn(server, contents, i))
  {
    hide Export.Sorted;
    if i < |server.names| && server.names[i] in contents {
      var name, version := server.names[i], contents[server.names[i]];
      assert Export.Sorted(server.rows(name, version));
    } else {
      NoneSorted();
    }
  }

  lemma NoneSorted()
    ensures Export.Sorted([])
  {
  }

  /** What a guarded table holds depends on the guarded contents alone. */
  lemma GuardedRows(server: Server, a: map<string, int>, b: map<string, int>, i: nat)
    requires Pause.Guarded(a) == Pause.Guarded(b) && IsGuarded(server, i)
    ensures RowsIn(server, a, i) == RowsIn(server, b, i)
  {
    var name := server.names[i];
    assert name in a <==> name in Pause.Guarded(a);
    assert name in b <==> name in Pause.Guarded(b);
    if name in a { assert Pause.Guarded(a)[name] == a[name] && Pause.Guarded(b)[name] == b[name]; }
  }

  /** Between reading a saved position and a compare-and-set that still finds the same export, every guarded
      table reads as it was frozen. */
  lemma ReadsWhatWasFrozen(tables: set<string>, ss: seq<Pause.State>, es: seq<Pause.Event>, first: nat, k: nat,
                           last: nat, server: Server, i: nat)
    requires SameExport(tables, ss, es, first, last) && first <= k <= last && IsGuarded(server, i)
    ensures RowsIn(server, ss[k].contents, i) == RowsIn(server, ss[last].frozen, i)
    ensures ss[k].frozen == ss[last].frozen
  {
    Pause.SameExport(tables, ss, es, first, k, last);
    Pause.RunKeeps(tables, ss, es, k);
    assert Pause.Guarded(ss[k].contents) == Pause.Guarded(ss[k].frozen);
    hide Pause.IsRun;
    GuardedRows(server, ss[k].contents, ss[k].frozen, i);
  }

  /** The backup as the export sees it while that run goes on. */
  ghost predicate IsBackupOf(b: Export.Backup, server: Server, ss: seq<Pause.State>, schedule: nat -> nat, first: nat,
                             last: nat)
  {
    && first <= last < |ss| && IsSchedule(schedule, first, last) && |b.tables| == |server.names|
    && b.contents == Contents(server, ss, schedule, first, last)
    && Export.Injective(b.sha256)
    && forall i :: 0 <= i < |b.tables| ==> b.tables[i].guarded == IsGuarded(server, i)
  }

  /** That the tables are paused, which the export relies on, is what the guards give it in every run. */
  lemma ExportSeesPausedTables(tables: set<string>, ss: seq<Pause.State>, es: seq<Pause.Event>, first: nat, last: nat,
                               server: Server, schedule: nat -> nat, b: Export.Backup)
    requires SameExport(tables, ss, es, first, last) && WellOrdered(server)
    requires IsBackupOf(b, server, ss, schedule, first, last)
    ensures Export.Wellformed(b)
  {
    hide SameExport;
    forall t: nat, i: nat ensures Export.Sorted(b.contents(t, i)) {
      RowsAreSorted(server, ss[schedule(t)].contents, i);
    }
    forall t: nat, i: nat | i < |b.tables| && b.tables[i].guarded ensures b.contents(t, i) == b.contents(0, i) {
      ReadsWhatWasFrozen(tables, ss, es, first, schedule(t), last, server, i);
      ReadsWhatWasFrozen(tables, ss, es, first, schedule(0), last, server, i);
    }
  }

  /**
   * Whatever writers, stale attempts, releases and migrations do, and however often it is interrupted: a finished
   * export that still stands holds for every guarded table exactly the rows that were frozen when it began.
   */
  lemma FinishedHoldsWhatWasFrozen(tables: set<string>, ss: seq<Pause.State>, es: seq<Pause.Event>, first: nat,
                                   last: nat, server: Server, schedule: nat -> nat, b: Export.Backup,
                                   objects: map<string, string>, parts: seq<string>)
    returns (exported: seq<seq<Export.Row>>)
    requires SameExport(tables, ss, es, first, last) && WellOrdered(server)
    requires IsBackupOf(b, server, ss, schedule, first, last)
    requires Export.Good(b, objects, Export.Finishing(parts))
    ensures |exported| == |b.tables|
    ensures Export.Concat(objects, parts) == Export.HEADER + Export.TablesText(b.tables, exported) + b.tail
    ensures forall i :: 0 <= i < |b.tables| && IsGuarded(server, i) ==>
      exported[i] == RowsIn(server, ss[last].frozen, i)
  {
    ExportSeesPausedTables(tables, ss, es, first, last, server, schedule, b);
    hide SameExport, Export.Good, Export.Wellformed, Export.Concat, Export.TablesText;
    exported := Export.FinishedHoldsEveryGuardedRow(b, objects, parts);
    forall i | 0 <= i < |b.tables| && IsGuarded(server, i) ensures exported[i] == RowsIn(server, ss[last].frozen, i) {
      ReadsWhatWasFrozen(tables, ss, es, first, schedule(0), last, server, i);
    }
  }
}
