/**
 Why an export may rely on paused tables: the write guards and the saved progress as they change together
 (upgrade-checkpoint.ts, `createUpgradeCheckpoint`; database.ts, the guards). Requests are compare-and-set
 or single transactions and may execute at any time, so stale attempts are events like any other.
 */
module UpgradePause {
  import opened Common

  datatype Action = Insert | Update | Delete
  datatype Guard = Guard(table: string, action: Action)

  datatype Phase = Copying | Dumping(table: nat, after: Option<real>) | Finishing | Complete

  /** The saved text. `epoch` stands for the creation time that a freeze writes; copying has none. */
  datatype Saved = Saved(prefix: nat, epoch: nat, phase: Phase)

  /** `contents` versions each table; `frozen` is what the tables held at the last freeze that took effect. */
  datatype State = State(guards: set<Guard>, contents: map<string, int>, progress: Option<Saved>, frozen: map<string,
    int>, epochs: nat)

  datatype Event =
    | Write(table: string, action: Action, version: int)
    | Start(previous: Option<Saved>, prefix: nat)
    | Restart(expected: Saved)
    | Freeze(expected: Saved)
    | Advance(expected: Saved, phase: Phase)
    | Finish(expected: Saved)
    | Release
    | Migrate(contents: map<string, int>)

  const CONTROL := {"maintenance_state", "crate_schema", "crate_migrations", "crate_release"}

  /** The guards of every table that is not a control table. */
  function AllGuards(tables: set<string>): (guards: set<Guard>)
    ensures forall t, a :: Guard(t, a) in guards <==> t in tables && t !in CONTROL
  {
    set t, a: Action | t in tables && t !in CONTROL :: Guard(t, a)
  }

  /** `writesPaused` */
  predicate WritesPaused(tables: set<string>, guards: set<Guard>) {
    forall t :: t in tables && t !in CONTROL ==>
      Guard(t, Insert) in guards && Guard(t, Update) in guards && Guard(t, Delete) in guards
  }

  function Guarded(contents: map<string, int>): map<string, int> {
    map t | t in contents && t !in CONTROL :: contents[t]
  }

  predicate Exporting(p: Option<Saved>) {
    p.Some? && (p.value.phase.Dumping? || p.value.phase.Finishing?)
  }

  predicate Enabled(tables: set<string>, s: State, e: Event) {
    match e
    case Write(table, action, _) => table in tables && Guard(table, action) !in s.guards
    case Start(previous, _) => previous.None? || previous.value.phase.Complete?
    case Restart(expected) => Exporting(Some(expected))
    case Freeze(expected) => expected.phase.Copying?
    case Advance(expected, phase) => expected.phase.Dumping? && (phase.Dumping? || phase.Finishing?)
    case Finish(expected) => expected.phase.Finishing?
    case Release => true
    case Migrate(_) => s.progress.Some? && s.progress.value.phase.Complete?
  }

  function Swap(s: State, expected: Option<Saved>, next: Saved): State {
    if s.progress == expected then s.(progress := Some(next)) else s
  }

  function Apply(tables: set<string>, s: State, e: Event): State
    requires Enabled(tables, s, e)
  {
    match e
    case Write(table, _, version) => s.(contents := s.contents[table := version])
    case Start(previous, prefix) => Swap(s, previous, Saved(prefix, 0, Copying))
    case Restart(expected) => Swap(s, Some(expected), Saved(expected.prefix, 0, Copying))
    case Freeze(expected) =>
      var guarded := s.(guards := s.guards + AllGuards(tables));
      if s.progress != Some(expected) then guarded
      else guarded.(progress := Some(Saved(expected.prefix, s.epochs + 1, Dumping(0, None))),
                    frozen := s.contents, epochs := s.epochs + 1)
    case Advance(expected, phase) => Swap(s, Some(expected), expected.(phase := phase))
    case Finish(expected) => Swap(s, Some(expected), expected.(phase := Complete))
    case Release => s.(guards := {}, progress := None)
    case Migrate(contents) => s.(contents := contents, guards := s.guards + AllGuards({"auth_tokens"}))
  }

  /** While a backup is exported every guard stands, and the guarded tables hold what they held at its freeze. */
  ghost predicate Inv(tables: set<string>, s: State) {
    && (Exporting(s.progress) ==> WritesPaused(tables, s.guards) && Guarded(s.contents) == Guarded(s.frozen))
    && (s.progress.Some? ==> s.progress.value.epoch <= s.epochs)
    && (s.progress.Some? && s.progress.value.phase.Copying? ==> s.progress.value.epoch == 0)
    && (Exporting(s.progress) ==> s.progress.value.epoch == s.epochs > 0)
  }

  lemma StepKeeps(tables: set<string>, s: State, e: Event)
    requires Inv(tables, s) && Enabled(tables, s, e)
    ensures Inv(tables, Apply(tables, s, e))
  {
    if e.Write? && Exporting(s.progress) {
      assert e.action == Insert || e.action == Update || e.action == Delete;
      assert e.table in CONTROL;
      assert Guarded(s.contents[e.table := e.version]) == Guarded(s.contents);
    }
  }

  ghost predicate IsRun(tables: set<string>, ss: seq<State>, es: seq<Event>) {
    && |ss| == |es| + 1 && ss[0].progress == None
    && forall i :: 0 <= i < |es| ==> Enabled(tables, ss[i], es[i]) && ss[i + 1] == Apply(tables, ss[i], es[i])
  }

  lemma {:induction false} RunKeeps(tables: set<string>, ss: seq<State>, es: seq<Event>, i: nat)
    requires IsRun(tables, ss, es) && i < |ss|
    ensures Inv(tables, ss[i])
  {
    if i > 0 {
      RunKeeps(tables, ss, es, i - 1);
      StepKeeps(tables, ss[i - 1], es[i - 1]);
    }
  }

  /** The release lets every writer go on, and leaves no backup to be taken for the next upgrade's. */
  lemma ReleaseResumesWriters(tables: set<string>, s: State, table: string, action: Action, version: int)
    requires table in tables
    ensures var s' := Apply(tables, s, Release);
      && Enabled(tables, s', Write(table, action, version))
      && Decide(s'.progress, WritesPaused(tables, s'.guards)) == StartAnew
  {
  }

  /** A migration leaves the tokens guarded, whose table it may have replaced; a writer changes its own table alone. */
  lemma OthersStayAsTheyAre(tables: set<string>, s: State, e: Event, action: Action)
    requires Enabled(tables, s, e)
    ensures e.Migrate? ==> Guard("auth_tokens", action) in Apply(tables, s, e).guards
    ensures e.Write? ==> Apply(tables, s, e).contents == s.contents[e.table := e.version]
  {
  }

  /** An export that was left behind does not come back: its creation time is not written again. */
  lemma EpochStays(tables: set<string>, s: State, e: Event, epoch: nat)
    requires Inv(tables, s) && Enabled(tables, s, e) && epoch <= s.epochs
    ensures epoch <= Apply(tables, s, e).epochs
    ensures Exporting(Apply(tables, s, e).progress) && Apply(tables, s, e).progress.value.epoch == epoch ==>
      Exporting(s.progress) && s.progress.value.epoch == epoch && Apply(tables, s, e).frozen == s.frozen
  {
  }

  /** One step back from an export that still stands. */
  lemma ExportBefore(tables: set<string>, ss: seq<State>, es: seq<Event>, i: nat, j: nat, epoch: nat)
    requires IsRun(tables, ss, es) && i < j < |ss| && Exporting(ss[i].progress) && ss[i].progress.value.epoch == epoch
    requires Exporting(ss[j].progress) && ss[j].progress.value.epoch == epoch
    ensures Exporting(ss[j - 1].progress) && ss[j - 1].progress.value.epoch == epoch && ss[j - 1].frozen == ss[j].frozen
  {
    hide Apply, Enabled, Inv;
    RunKeeps(tables, ss, es, j - 1);
    EpochsGrow(tables, ss, es, i, j - 1);
    EpochStays(tables, ss[j - 1], es[j - 1], epoch);
  }

  lemma {:induction false} SameExport(tables: set<string>, ss: seq<State>, es: seq<Event>, i: nat, k: nat, j: nat)
    requires IsRun(tables, ss, es) && i <= k <= j < |ss|
    requires Exporting(ss[i].progress) && Exporting(ss[j].progress)
      && ss[j].progress.value.epoch == ss[i].progress.value.epoch
    ensures Exporting(ss[k].progress) && ss[k].progress.value.epoch == ss[i].progress.value.epoch
      && ss[k].frozen == ss[j].frozen
    decreases j
  {
    hide IsRun;
    if k < j {
      ExportBefore(tables, ss, es, i, j, ss[i].progress.value.epoch);
      SameExport(tables, ss, es, i, k, j - 1);
    }
  }

  lemma {:induction false} EpochsGrow(tables: set<string>, ss: seq<State>, es: seq<Event>, i: nat, j: nat)
    requires IsRun(tables, ss, es) && i <= j < |ss| && Exporting(ss[i].progress)
    ensures ss[i].progress.value.epoch <= ss[j].epochs
    decreases j
  {
    RunKeeps(tables, ss, es, j);
    if i < j {
      EpochsGrow(tables, ss, es, i, j - 1);
      RunKeeps(tables, ss, es, j - 1);
      hide Inv;
      EpochStays(tables, ss[j - 1], es[j - 1], ss[i].progress.value.epoch);
    }
  }

  /**
   * If an attempt read a saved position and its compare-and-set still finds the same export, then all along
   * every guard stood and the guarded tables held the same rows, whatever other attempts, writers, releases
   * and migrations did: the pages it read in between belong together.
   */
  lemma SavedExportWasPaused(tables: set<string>, ss: seq<State>, es: seq<Event>, i: nat, k: nat, j: nat)
    requires IsRun(tables, ss, es) && i <= k <= j < |ss|
    requires Exporting(ss[i].progress) && Exporting(ss[j].progress)
      && ss[j].progress.value.epoch == ss[i].progress.value.epoch
    ensures WritesPaused(tables, ss[k].guards) && Guarded(ss[k].contents) == Guarded(ss[i].contents)
  {
    SameExport(tables, ss, es, i, k, j);
    SameExport(tables, ss, es, i, i, j);
    RunKeeps(tables, ss, es, k);
    RunKeeps(tables, ss, es, i);
  }

  // ---------- what an attempt does ----------

  datatype Decision = AlreadyBackedUp | StartAnew | StartOver | Copy | ContinueDump | ContinueFinish

  /** How `createUpgradeCheckpoint` goes on from what it reads. */
  function Decide(progress: Option<Saved>, paused: bool): Decision {
    if progress.Some? && progress.value.phase.Complete? && paused then AlreadyBackedUp
    else if progress.None? || progress.value.phase.Complete? then StartAnew
    else if progress.value.phase.Copying? then Copy
    else if !paused then StartOver
    else if progress.value.phase.Dumping? then ContinueDump
    else ContinueFinish
  }

  /** The guards are read before the progress, and others may come in between. An export that stood when the
      guards were read, and is read as standing, is continued; it is started over only if it began in between. */
  lemma InterruptedExportContinues(tables: set<string>, ss: seq<State>, es: seq<Event>, i: nat, j: nat)
    requires IsRun(tables, ss, es) && i <= j < |ss| && Exporting(ss[j].progress)
    ensures var decision := Decide(ss[j].progress, WritesPaused(tables, ss[i].guards));
      && (decision in {ContinueDump, ContinueFinish} <==> WritesPaused(tables, ss[i].guards))
      && (Exporting(ss[i].progress) ==> decision in {ContinueDump, ContinueFinish})
      && (decision == StartOver ==> !Exporting(ss[i].progress) && i < j)
  {
    RunKeeps(tables, ss, es, i);
    RunKeeps(tables, ss, es, j);
  }
}
