/**
 One attempt at the backup before an upgrade (upgrade-checkpoint.ts, `createUpgradeCheckpoint`; database.ts,
 `prepareDeploymentDatabase`), request by request, while others are at work: what it continues, what it starts
 anew, and that it migrates only under a complete backup.
 */
module UpgradeAttempt {
  import opened Common
  import opened UpgradePause
  import F = FenceCalls
  import R = FenceRecords

  // ---------- a complete backup was finished ----------

  predicate IsComplete(p: Option<Saved>) { p.Some? && p.value.phase.Complete? }

  /** Request `k` finished the backup, under all guards and with the guarded tables as they were frozen. */
  ghost predicate Finished(tables: set<string>, ss: seq<State>, es: seq<Event>, k: nat, complete: Saved) {
    && k < |es| && |ss| == |es| + 1 && es[k].Finish? && es[k].expected == complete.(phase := Finishing)
    && ss[k].progress == Some(es[k].expected) && ss[k + 1].progress == Some(complete)
    && WritesPaused(tables, ss[k].guards) && Guarded(ss[k].contents) == Guarded(ss[k].frozen)
  }

  lemma OnlyFinishCompletes(tables: set<string>, s: State, e: Event)
    requires Enabled(tables, s, e) && IsComplete(Apply(tables, s, e).progress)
    ensures Apply(tables, s, e).progress == s.progress ||
      (&& e.Finish? && s.progress == Some(e.expected) && e.expected.phase.Finishing?
       && Apply(tables, s, e).progress == Some(e.expected.(phase := Complete)))
  {
  }

  /** A complete backup that anyone reads was finished by a request that took effect, and has stood since. */
  lemma {:induction false} CompleteWasFinished(tables: set<string>, ss: seq<State>, es: seq<Event>, j: nat)
    returns (k: nat)
    requires IsRun(tables, ss, es) && j < |ss| && IsComplete(ss[j].progress)
    ensures k < j && Finished(tables, ss, es, k, ss[j].progress.value)
    ensures forall m :: k < m <= j ==> ss[m].progress == ss[j].progress
  {
    hide Apply, Enabled;
    assert j > 0;
    OnlyFinishCompletes(tables, ss[j - 1], es[j - 1]);
    if ss[j - 1].progress == ss[j].progress {
      k := CompleteWasFinished(tables, ss, es, j - 1);
    } else {
      k := j - 1;
      RunKeeps(tables, ss, es, k);
    }
  }

  /** An attempt takes a backup for done only if it reads a complete one under all guards, and that one was
      finished by a request that took effect. */
  lemma BackedUpWasFinished(tables: set<string>, ss: seq<State>, es: seq<Event>, i: nat, j: nat) returns (k: nat)
    requires IsRun(tables, ss, es) && i <= j < |ss|
    requires Decide(ss[j].progress, WritesPaused(tables, ss[i].guards)) == AlreadyBackedUp
    ensures WritesPaused(tables, ss[i].guards) && IsComplete(ss[j].progress)
    ensures k < j && Finished(tables, ss, es, k, ss[j].progress.value)
  {
    k := CompleteWasFinished(tables, ss, es, j);
  }

  // ---------- one attempt ----------

  /** A request without an answer may have been executed all the same. */
  datatype Answer = Answered | Lost(executed: bool)

  /** A conditional request for the saved progress; it may come at any time. */
  predicate IsRequest(e: Event) {
    match e
    case Start(previous, _) => previous.None? || previous.value.phase.Complete?
    case Restart(expected) => Exporting(Some(expected))
    case Freeze(expected) => expected.phase.Copying?
    case Advance(expected, phase) => expected.phase.Dumping? && (phase.Dumping? || phase.Finishing?)
    case Finish(expected) => expected.phase.Finishing?
    case _ => false
  }

  function Expected(e: Event): Option<Saved>
    requires IsRequest(e)
  {
    if e.Start? then e.previous else Some(e.expected)
  }

  /** The progress that a request leaves if it finds the one it expects. */
  function Next(e: Event): Option<Saved>
    requires IsRequest(e) && !e.Freeze?
  {
    match e
    case Start(_, prefix) => Some(Saved(prefix, 0, Copying))
    case Restart(expected) => Some(Saved(expected.prefix, 0, Copying))
    case Advance(expected, phase) => Some(expected.(phase := phase))
    case Finish(expected) => Some(expected.(phase := Complete))
  }

  /** Writers may have changed tables in between. */
  predicate Written(a: State, b: State) {
    b == a.(contents := b.contents)
  }

  /** Every guard stands, and the guarded tables are as they were frozen. */
  predicate Held(tables: set<string>, s: State) {
    WritesPaused(tables, s.guards) && Guarded(s.contents) == Guarded(s.frozen)
  }

  lemma WriteKeepsHeld(tables: set<string>, s: State, e: Event)
    requires e.Write? && Enabled(tables, s, e)
    ensures Written(s, Apply(tables, s, e)) && (Held(tables, s) ==> Held(tables, Apply(tables, s, e)))
  {
    if Held(tables, s) {
      assert e.action == Insert || e.action == Update || e.action == Delete;
      assert e.table in CONTROL;
      assert Guarded(s.contents[e.table := e.version]) == Guarded(s.contents);
    }
  }

  /** The fenced calls that complete a backup. */
  function BackupCalls(copying: bool): seq<F.Call> {
    (if copying then [F.RequireVerification, F.Mutate(R.FreezeUpgradeData, None)] else [])
    + [F.Mutate(R.VerifyUpgradeCheckpoint, None)]
  }

  /** The calls made so far begin the expected ones. */
  predicate Fits(before: seq<F.Call>, calls: seq<F.Call>, expected: seq<F.Call>) {
    before <= calls <= before + expected
  }

  function GuardCalls(present: bool): seq<F.Call> {
    if present then [F.RequireVerification] else []
  }

  lemma FirstCallsFit(c: F.UpdateConditions, before: seq<F.Call>, calls: seq<F.Call>)
    requires Fits(before, calls, GuardCalls(c.guardsPresent))
    ensures Fits(before, calls, F.CheckpointCalls(c))
    ensures calls == before + GuardCalls(c.guardsPresent) && c.backupComplete ==> calls == before + F.CheckpointCalls(c)
  {
  }

  /** What the reads say about the fenced calls to come. */
  function ReadConditions(ids: seq<string>, guards: set<Guard>, decision: Decision): F.UpdateConditions {
    F.UpdateConditions(false, false, ids, guards != {}, decision == AlreadyBackedUp,
      decision == StartAnew || decision == StartOver || decision == Copy, 0, false, false)
  }

  lemma CallsFit(c: F.UpdateConditions, before: seq<F.Call>, calls: seq<F.Call>)
    requires !c.backupComplete && Fits(before + GuardCalls(c.guardsPresent), calls, BackupCalls(c.backupCopying))
    ensures Fits(before, calls, F.CheckpointCalls(c))
    ensures calls == before + GuardCalls(c.guardsPresent) + BackupCalls(c.backupCopying) ==>
      calls == before + F.CheckpointCalls(c)
  {
    assert F.CheckpointCalls(c) == GuardCalls(c.guardsPresent) + BackupCalls(c.backupCopying);
    assert before + GuardCalls(c.guardsPresent) + BackupCalls(c.backupCopying) == before + F.CheckpointCalls(c);
  }

  /** The progress that an attempt goes on with. */
  function Chosen(decision: Decision, read: Option<Saved>, prefix: nat): Saved {
    if decision == StartAnew || read.None? then Saved(prefix, 0, Copying)
    else if decision == StartOver then Saved(read.value.prefix, 0, Copying)
    else read.value
  }

  /** A backup that starts anew or over is copied; every other one goes on from what was read. */
  lemma ChosenFits(decision: Decision, read: Option<Saved>, prefix: nat, paused: bool)
    requires decision == Decide(read, paused)
    ensures var chosen := Chosen(decision, read, prefix);
      && (decision == AlreadyBackedUp <==> chosen.phase.Complete?)
      && (decision == AlreadyBackedUp ==> IsComplete(read) && read == Some(chosen))
      && (decision == StartAnew ==> (read.None? || IsComplete(read)) && chosen == Saved(prefix, 0, Copying))
      && (decision == StartOver ==> Exporting(read) && chosen == Saved(read.value.prefix, 0, Copying))
      && (decision != StartAnew && decision != StartOver ==> read == Some(chosen))
      && (chosen.phase.Copying? <==> decision == StartAnew || decision == StartOver || decision == Copy)
      && (!chosen.phase.Copying? && decision != AlreadyBackedUp ==> Exporting(read))
  {
  }

  lemma MigrateKeepsProgress(tables: set<string>, s: State, e: Event)
    requires e.Migrate? && Enabled(tables, s, e)
    ensures Apply(tables, s, e).progress == s.progress && Apply(tables, s, e).contents == e.contents
    ensures WritesPaused(tables, s.guards) ==> WritesPaused(tables, Apply(tables, s, e).guards)
  {
  }

  lemma StillFinished(tables: set<string>, ss: seq<State>, es: seq<Event>, ss': seq<State>, es': seq<Event>, k: nat,
    complete: Saved)
    requires Finished(tables, ss, es, k, complete) && ss <= ss' && es <= es' && |ss'| == |es'| + 1
    ensures Finished(tables, ss', es', k, complete)
  {
  }

  /** What the migrations of a run made of the tables, in order. */
  function Migrated(es: seq<Event>): seq<map<string, int>> {
    if es == [] then []
    else
      var last := es[|es| - 1];
      Migrated(es[..|es| - 1]) + if last.Migrate? then [last.contents] else []
  }

  lemma {:induction false} NothingMore(es: seq<Event>, n: nat)
    requires n <= |es| && forall k :: n <= k < |es| ==> !es[k].Migrate?
    ensures Migrated(es) == Migrated(es[..n])
    decreases |es|
  {
    if n < |es| {
      NothingMore(es[..|es| - 1], n);
      assert es[..|es| - 1][..n] == es[..n];
    } else {
      assert es[..n] == es;
    }
  }

  lemma OneMore(es: seq<Event>, es': seq<Event>, e: Event)
    requires e.Migrate? && es <= es' && |es| < |es'| && es'[|es'| - 1] == e
    requires forall k :: |es| <= k < |es'| - 1 ==> !es'[k].Migrate?
    ensures Migrated(es') == Migrated(es) + [e.contents]
  {
    var before := es'[..|es'| - 1];
    NothingMore(before, |es|);
    assert before[..|es|] == es;
  }

  /** From event `first` on, every migration comes under the one backup that request `backup` finished. */
  ghost predicate MigratesUnder(tables: set<string>, ss: seq<State>, es: seq<Event>, first: nat, backup: nat,
    complete: Saved) {
    && |ss| == |es| + 1 && backup < first <= |es| && Finished(tables, ss, es, backup, complete)
    && forall k :: first <= k < |es| && es[k].Migrate? ==> ss[k].progress == Some(complete)
  }

  lemma NothingMigrated(tables: set<string>, ss: seq<State>, es: seq<Event>, first: nat, backup: nat, complete: Saved)
    requires |ss| == |es| + 1 && backup < first == |es| && Finished(tables, ss, es, backup, complete)
    ensures MigratesUnder(tables, ss, es, first, backup, complete)
  {
  }

  /** Nothing or one migration under the backup comes in addition, besides what writers do. */
  lemma MigratedOnce(tables: set<string>, ss: seq<State>, es: seq<Event>, ss': seq<State>, es': seq<Event>, first: nat,
    backup: nat, complete: Saved)
    requires MigratesUnder(tables, ss, es, first, backup, complete) && ss <= ss' && es <= es' && |ss'| == |es'| + 1
    requires forall k :: |es| <= k < |es'| && es'[k].Migrate? ==> ss'[k].progress == Some(complete)
    ensures MigratesUnder(tables, ss', es', first, backup, complete)
  {
    StillFinished(tables, ss, es, ss', es', backup, complete);
    forall k | first <= k < |es'| && es'[k].Migrate? ensures ss'[k].progress == Some(complete) {
      if k < |es| { assert es'[k] == es[k] && ss'[k] == ss[k]; }
    }
  }

  lemma OnlyUnderBackup(tables: set<string>, ss: seq<State>, es: seq<Event>, start: nat, first: nat, backup: nat,
    complete: Saved)
    requires MigratesUnder(tables, ss, es, first, backup, complete) && complete.phase.Complete?
    requires forall k :: start <= k < first ==> !es[k].Migrate?
    ensures forall k :: start <= k < |es| && es[k].Migrate? ==>
      backup < k && ss[k].progress == Some(complete) && Finished(tables, ss, es, backup, complete)
  {
  }

  lemma MigrationsBegin(ids: seq<string>, calls: seq<F.Call>)
    ensures calls == calls + F.MigrationCalls(ids[..0])
  {
  }

  lemma {:induction false} MoreMigrations(ids: seq<string>, n: nat)
    requires n < |ids|
    ensures F.MigrationCalls(ids[..n + 1]) == F.MigrationCalls(ids[..n]) + [F.Mutate(R.Migrate(ids[n]), None)]
    decreases n
  {
    if n == 0 {
      assert ids[..1] == [ids[0]] && ids[..0] == [];
      assert F.MigrationCalls([ids[0]][1..]) == [];
    } else {
      MoreMigrations(ids[1..], n - 1);
      assert ids[..n + 1][1..] == ids[1..][..n] && ids[..n][1..] == ids[1..][..n - 1];
    }
  }

  lemma MigrationsMade(c: F.UpdateConditions, start: seq<F.Call>, checked: seq<F.Call>, calls: seq<F.Call>)
    requires c.migrations != [] && checked == start + F.CheckpointCalls(c)
    requires calls == checked + [F.RequireVerification] + F.MigrationCalls(c.migrations)
    ensures calls == start + F.DatabaseCalls(c)
  {
  }

  class Attempt {
    const tables: set<string>
    /** What others do before each request, and how each request ends. */
    const others: nat -> seq<Event>
    const answers: nat -> Answer
    var s: State
    var clock: nat
    ghost var ss: seq<State>
    ghost var es: seq<Event>
    ghost var calls: seq<F.Call>

    constructor (tables: set<string>, ghost ss: seq<State>, ghost es: seq<Event>, s: State,
      others: nat -> seq<Event>, answers: nat -> Answer)
      requires IsRun(tables, ss, es) && s == ss[|es|]
      ensures Valid() && this.s == s && calls == [] && this.es == es && this.ss == ss
    {
      this.tables, this.others, this.answers, this.s, clock := tables, others, answers, s, 0;
      this.ss, this.es, calls := ss, es, [];
    }

    /** The attempt is part of a run. */
    ghost predicate Valid()
      reads this
    {
      IsRun(tables, ss, es) && s == ss[|es|]
    }

    /** Nobody but writers is at work, as the deployment fence sees to. */
    ghost predicate Fenced() {
      forall n, e :: e in others(n) ==> e.Write?
    }

    /** From now on every request is answered. */
    ghost predicate Undisturbed(n: nat) {
      Fenced() && forall k :: n <= k ==> answers(k).Answered?
    }

    method Take(e: Event)
      requires Valid() && Enabled(tables, s, e)
      modifies this`s, this`ss, this`es
      ensures Valid() && s == Apply(tables, old(s), e) && es == old(es) + [e] && old(ss) <= ss
    {
      hide Apply, Enabled;
      s := Apply(tables, s, e);
      ss, es := ss + [s], es + [e];
    }

    /** Others come first. */
    method Await()
      requires Valid()
      modifies this`s, this`ss, this`es
      ensures Valid() && old(es) <= es && old(ss) <= ss
      ensures Fenced() ==> Written(old(s), s) && (Held(tables, old(s)) ==> Held(tables, s))
      ensures Fenced() ==> forall k :: |old(es)| <= k < |es| ==> es[k].Write?
    {
      hide Apply, Enabled, IsRun, Held;
      var events := others(clock);
      for i := 0 to |events|
        invariant Valid() && old(es) <= es && old(ss) <= ss
        invariant Fenced() ==> Written(old(s), s) && (Held(tables, old(s)) ==> Held(tables, s))
        invariant Fenced() ==> forall k :: |old(es)| <= k < |es| ==> es[k].Write?
      {
        if Enabled(tables, s, events[i]) {
          assert events[i] in others(clock);
          if Fenced() { WriteKeepsHeld(tables, s, events[i]); }
          Take(events[i]);
        }
      }
    }

    /** A query that changes nothing. */
    method Look() returns (ok: bool)
      requires Valid()
      modifies this`s, this`ss, this`es, this`clock
      ensures Valid() && old(es) <= es && old(ss) <= ss
      ensures Fenced() ==> Written(old(s), s) && (Held(tables, old(s)) ==> Held(tables, s))
      ensures Fenced() ==> forall k :: |old(es)| <= k < |es| ==> es[k].Write?
      ensures Undisturbed(old(clock)) ==> ok && Undisturbed(clock)
    {
      hide IsRun, Held;
      Await();
      ok := answers(clock).Answered?;
      clock := clock + 1;
    }

    /** A request that may change something. `at` is what it finds if it is executed, `taken` whether it is. */
    method Request(e: Event) returns (answered: bool, at: State, ghost taken: bool)
      requires Valid() && (IsRequest(e) || (Fenced() && e.Migrate? && IsComplete(s.progress)))
      modifies this`s, this`ss, this`es, this`clock
      ensures Valid() && old(es) <= es && old(ss) <= ss && Enabled(tables, at, e)
      ensures Fenced() ==> Written(old(s), at) && (Held(tables, old(s)) ==> Held(tables, at))
      ensures !taken ==> !answered && s == at
      ensures taken ==> |es| > |old(es)| && es[|es| - 1] == e && ss[|es| - 1] == at && s == Apply(tables, at, e)
      ensures Fenced() ==> forall k :: |old(es)| <= k < |es| ==> es[k].Write? || (taken && k == |es| - 1)
      ensures Undisturbed(old(clock)) ==> answered && Undisturbed(clock)
    {
      hide IsRun, Held, Apply;
      Await();
      at := s;
      var answer := answers(clock);
      clock := clock + 1;
      answered := answer.Answered?;
      taken := answered || answer.executed;
      RunLength();
      if answered || answer.executed { Take(e); }
    }

    /** `saveProgress`: a compare-and-set that fails unless it is seen to have taken effect. */
    method Save(e: Event) returns (ok: bool)
      requires Valid() && IsRequest(e) && !e.Freeze?
      modifies this`s, this`ss, this`es, this`clock
      ensures Valid() && old(es) <= es && old(ss) <= ss
      ensures ok ==> s.progress == Next(e)
      ensures Fenced() ==> s.guards == old(s).guards && s.frozen == old(s).frozen && s.epochs == old(s).epochs
      ensures Fenced() && Held(tables, old(s)) ==> Held(tables, s)
      ensures Fenced() ==> forall k :: |old(es)| <= k < |es| ==> !es[k].Migrate?
      ensures Undisturbed(old(clock)) ==> Undisturbed(clock) && (old(s).progress == Expected(e) ==> ok)
    {
      hide IsRun, WritesPaused, Guarded;
      var answered, at, taken := Request(e);
      ok := answered && at.progress == Expected(e);
    }

    /** Copies what is there, then pauses the writers and starts the export. */
    method FreezeTables(copying: Saved) returns (ok: bool, dumping: Saved)
      requires Valid() && copying.phase.Copying?
      modifies this`s, this`ss, this`es, this`clock
      ensures Valid() && old(es) <= es && old(ss) <= ss
      ensures ok ==> s.progress == Some(dumping)
      ensures ok ==> dumping.phase == Dumping(0, None) && dumping.prefix == copying.prefix
      ensures ok ==> Held(tables, s)
      ensures Fenced() ==> forall k :: |old(es)| <= k < |es| ==> !es[k].Migrate?
      ensures Undisturbed(old(clock)) ==> Undisturbed(clock)
      ensures Undisturbed(old(clock)) && old(s).progress == Some(copying) ==> ok && dumping.epoch == old(s).epochs + 1
    {
      hide IsRun, WritesPaused, Guarded, Held;
      var answered, at, taken := Request(Freeze(copying));
      dumping := Saved(copying.prefix, at.epochs + 1, Dumping(0, None));
      if !answered { return false, dumping; }
      var seen := Look();
      ok := seen && at.progress == Some(copying) && s.progress == Some(dumping);
      if ok { ExportIsHeld(); }
    }

    lemma RunLength()
      requires Valid()
      ensures |ss| == |es| + 1
    {
    }

    lemma ExportIsHeld()
      requires Valid() && Exporting(s.progress)
      ensures Held(tables, s)
    {
      RunKeeps(tables, ss, es, |es|);
    }
  
    /** Exports the paused tables page by page, and goes on to the finishing phase. */
    method Dump(dumping: Saved, pages: seq<Phase>) returns (ok: bool, exported: Saved)
      requires Valid() && dumping.phase.Dumping? && forall p :: p in pages ==> p.Dumping?
      modifies this`s, this`ss, this`es, this`clock
      ensures Valid() && old(es) <= es && old(ss) <= ss
      ensures exported == dumping.(phase := Finishing) && (ok ==> s.progress == Some(exported) && Held(tables, s))
      ensures Fenced() ==> (forall k :: |old(es)| <= k < |es| ==> !es[k].Migrate?) && s.epochs == old(s).epochs
      ensures Undisturbed(old(clock)) ==> Undisturbed(clock) && (old(s).progress == Some(dumping) ==> ok)
    {
      hide IsRun, Held;
      var saved := dumping;
      exported := dumping.(phase := Finishing);
      for n := 0 to |pages|
        invariant Valid() && old(es) <= es && old(ss) <= ss && saved.phase.Dumping?
        invariant saved == dumping.(phase := saved.phase)
        invariant Fenced() ==> (forall k :: |old(es)| <= k < |es| ==> !es[k].Migrate?) && s.epochs == old(s).epochs
        invariant Undisturbed(old(clock)) ==> Undisturbed(clock)
        invariant Undisturbed(old(clock)) && old(s).progress == Some(dumping) ==> s.progress == Some(saved)
      {
        ok := Save(Advance(saved, pages[n]));
        if !ok { return; }
        saved := saved.(phase := pages[n]);
      }
      ok := Save(Advance(saved, Finishing));
      if ok { ExportIsHeld(); }
    }

    /** `finishArchive`: marks the exported backup complete, and sees that it is. */
    method FinishArchive(exported: Saved) returns (ok: bool)
      requires Valid() && exported.phase.Finishing?
      modifies this`s, this`ss, this`es, this`clock
      ensures Valid() && old(es) <= es && old(ss) <= ss
      ensures ok ==> s.progress == Some(exported.(phase := Complete))
      ensures Fenced() ==> forall k :: |old(es)| <= k < |es| ==> !es[k].Migrate?
      ensures Fenced() && Held(tables, old(s)) ==> Held(tables, s)
      ensures Undisturbed(old(clock)) ==> Undisturbed(clock) && (old(s).progress == Some(exported) ==> ok)
      ensures Fenced() ==> s.epochs == old(s).epochs
    {
      hide IsRun, WritesPaused, Guarded;
      var answered, at, taken := Request(Finish(exported));
      if !answered { return false; }
      var seen := Look();
      ok := seen && s.progress == Some(exported.(phase := Complete));
    }

    /** Freezes a backup that is still copying, dumps one that is not exported yet, and finishes it. */
    method CompleteBackup(start: Saved, pages: seq<Phase>) returns (done: bool)
      requires Valid() && !start.phase.Complete? && forall p :: p in pages ==> p.Dumping?
      modifies this
      ensures Valid() && old(es) <= es && old(ss) <= ss
      ensures Fits(old(calls), calls, BackupCalls(start.phase.Copying?))
      ensures done ==> calls == old(calls) + BackupCalls(start.phase.Copying?)
      ensures done ==> IsComplete(s.progress) && s.progress.value.prefix == start.prefix
      ensures done && !start.phase.Copying? ==> s.progress.value.epoch == start.epoch
      ensures done && Fenced() && (start.phase.Copying? || Held(tables, old(s))) ==> Held(tables, s)
      ensures Fenced() ==> forall k :: |old(es)| <= k < |es| ==> !es[k].Migrate?
      ensures Undisturbed(old(clock)) ==> Undisturbed(clock) && (old(s).progress == Some(start) ==> done)
      ensures Undisturbed(old(clock)) && old(s).progress == Some(start) && start.phase.Copying? ==>
        s.progress.value.epoch == old(s).epochs + 1
    {
      hide IsRun, Held;
      var saved := start;
      if saved.phase.Copying? {
        calls := calls + [F.RequireVerification, F.Mutate(R.FreezeUpgradeData, None)];
        done, saved := FreezeTables(saved);
        if !done { return; }
      }
      if saved.phase.Dumping? {
        done, saved := Dump(saved, pages);
        if !done { return; }
      }
      calls := calls + [F.Mutate(R.VerifyUpgradeCheckpoint, None)];
      done := FinishArchive(saved);
    }

    /** The guards first and then the progress; any guard requires verification from then on. */
    method ReadSaved() returns (ok: bool, guards: set<Guard>, read: Option<Saved>, ghost i: nat, ghost j: nat)
      requires Valid()
      modifies this
      ensures Valid() && old(es) <= es && old(ss) <= ss
      ensures Fits(old(calls), calls, GuardCalls(guards != {}))
      ensures ok ==> calls == old(calls) + GuardCalls(guards != {})
      ensures ok ==> |old(es)| <= i <= j < |ss| && ss[i].guards == guards && ss[j].progress == read == s.progress
      ensures ok && Fenced() ==> s.guards == guards
      ensures Fenced() ==> forall k :: |old(es)| <= k < |es| ==> !es[k].Migrate?
      ensures Undisturbed(old(clock)) ==> ok && Undisturbed(clock) && Written(old(s), s) && old(s).guards == guards
    {
      hide IsRun, Held;
      guards, read, i, j := {}, None, |es|, |es|;
      ok := Look();
      if !ok { return; }
      guards, i := s.guards, |es|;
      RunLength();
      if guards != {} { calls := calls + [F.RequireVerification]; }
      ok := Look();
      read, j := s.progress, |es|;
      RunLength();
    }

    /**
     * `createUpgradeCheckpoint`. State `i` of the run is the one whose guards are read, state `j` the one whose
     * progress is. When it is done the saved backup is complete: the one read, if every guard was read; a new one,
     * if there was none or a complete one without its guards; and otherwise the one it read under the same name, the
     * same export if the guards were read too. It requires verification and freezes as the conditions read demand.
     * Nothing keeps it from getting done but an unanswered request or another attempt.
     */
    method CreateUpgradeCheckpoint(prefix: nat, pages: seq<Phase>, ids: seq<string>)
      returns (done: bool, ghost c: F.UpdateConditions, ghost i: nat, ghost j: nat)
      requires Valid() && forall p :: p in pages ==> p.Dumping?
      modifies this
      ensures Valid() && old(es) <= es && old(ss) <= ss
      ensures c.migrations == ids && Fits(old(calls), calls, F.CheckpointCalls(c))
      ensures done ==> |old(es)| <= i <= j < |ss| && IsComplete(s.progress)
      ensures done ==> Conditions(c, ss[i], ss[j]) && calls == old(calls) + F.CheckpointCalls(c)
      ensures done ==> ContinuesFrom(ss[i].guards, ss[j].progress, prefix, s.progress.value)
      ensures done && Fenced() ==> if c.backupComplete then WritesPaused(tables, s.guards) else Held(tables, s)
      ensures Fenced() ==> forall k :: |old(es)| <= k < |es| ==> !es[k].Migrate?
      ensures Undisturbed(old(clock)) ==>
        && done && Undisturbed(clock) && old(s).guards == ss[i].guards && old(s).progress == ss[j].progress
        && (c.backupCopying ==> s.progress.value.epoch == old(s).epochs + 1)
    {
      hide IsRun, Held, ContinuesFrom, Conditions, WritesPaused, Fits, F.CheckpointCalls, BackupCalls, GuardCalls,
        Decide, Chosen, Apply;
      ghost var start := calls;
      var guards, read;
      done, guards, read, i, j := ReadSaved();
      var decision := Decide(read, WritesPaused(tables, guards));
      c := ReadConditions(ids, guards, decision);
      FirstCallsFit(c, start, calls);
      if !done { return; }
      DecidedConditions(c, ss[i], ss[j]);
      ChosenFits(decision, read, prefix, WritesPaused(tables, guards));
      var saved := Chosen(decision, read, prefix);
      if decision == AlreadyBackedUp {
        FirstCallsFit(c, start, calls);
        DecidedContinues(guards, read, prefix, read.value);
        return;
      }
      if decision == StartAnew || decision == StartOver {
        done := Save(if decision == StartAnew then Start(read, prefix) else Restart(read.value));
        if !done { return; }
      } else if Exporting(read) {
        ExportIsHeld();
      }
      done := CompleteBackup(saved, pages);
      CallsFit(c, start, calls);
      if done { DecidedContinues(guards, read, prefix, s.progress.value); }
    }

    /**
     * The upgrade branch of `prepareDeploymentDatabase`, with nobody but writers besides: the backup, then one
     * migration after the other. It migrates only under a complete backup, one that some request finished under
     * all guards, and not at all if the backup does not get done. Undisturbed it applies every migration, and the
     * writers stay paused over what the last one left.
     */
    method UpgradeDatabase(prefix: nat, pages: seq<Phase>, ids: seq<string>, schemas: seq<map<string, int>>)
      returns (ok: bool, ghost c: F.UpdateConditions, ghost backup: nat)
      requires Valid() && Fenced() && |ids| == |schemas| > 0 && forall p :: p in pages ==> p.Dumping?
      modifies this
      ensures Valid() && old(es) <= es && old(ss) <= ss && c.migrations == ids
      ensures forall k :: |old(es)| <= k < |es| && es[k].Migrate? ==>
        backup < k && IsComplete(ss[k].progress) && Finished(tables, ss, es, backup, ss[k].progress.value)
      ensures ok ==> calls == old(calls) + F.DatabaseCalls(c) && IsComplete(s.progress)
      ensures ok ==> Migrated(es) == Migrated(old(es)) + schemas
      ensures ok ==> WritesPaused(tables, s.guards) && Guarded(s.contents) == Guarded(schemas[|schemas| - 1])
      ensures Undisturbed(old(clock)) ==> ok
    {
      hide IsRun, Held, Apply, Enabled, Finished, F.DatabaseCalls, Fits, WritesPaused, MigratesUnder, Migrated,
        F.MigrationCalls, Guarded;
      backup := 0;
      ghost var i, j;
      ok, c, i, j := CreateUpgradeCheckpoint(prefix, pages, ids);
      if !ok { return; }
      PausedAfterBackup(c.backupComplete);
      ghost var first, complete := |es|, s.progress.value;
      RunLength();
      backup := CompleteWasFinished(tables, ss, es, first);
      NothingMigrated(tables, ss, es, first, backup, complete);
      NothingMore(es, |old(es)|);
      assert es[..|old(es)|] == old(es);
      ghost var before := calls;
      calls := calls + [F.RequireVerification];
      ok := ApplyMigrations(ids, schemas, first, backup, complete);
      OnlyUnderBackup(tables, ss, es, |old(es)|, first, backup, complete);
      if ok { MigrationsMade(c, old(calls), before, calls); }
    }

    /** One migration after the other, under the complete backup. */
    method ApplyMigrations(ids: seq<string>, schemas: seq<map<string, int>>, ghost first: nat, ghost backup: nat,
      ghost complete: Saved)
      returns (ok: bool)
      requires Valid() && Fenced() && s.progress == Some(complete) && complete.phase.Complete?
      requires |ids| == |schemas| > 0 && MigratesUnder(tables, ss, es, first, backup, complete)
      requires WritesPaused(tables, s.guards)
      modifies this
      ensures Valid() && old(es) <= es && old(ss) <= ss && s.progress == Some(complete)
      ensures MigratesUnder(tables, ss, es, first, backup, complete) && WritesPaused(tables, s.guards)
      ensures ok ==> calls == old(calls) + F.MigrationCalls(ids) && Migrated(es) == Migrated(old(es)) + schemas
      ensures ok ==> Guarded(s.contents) == Guarded(schemas[|schemas| - 1])
      ensures Undisturbed(old(clock)) ==> ok && Undisturbed(clock)
    {
      hide IsRun, Held, Apply, Enabled, Finished, WritesPaused, MigratesUnder, Migrated, F.MigrationCalls, Guarded;
      MigrationsBegin(ids, calls);
      for n := 0 to |ids|
        invariant Valid() && old(es) <= es && old(ss) <= ss && s.progress == Some(complete)
        invariant MigratesUnder(tables, ss, es, first, backup, complete)
        invariant calls == old(calls) + F.MigrationCalls(ids[..n])
        invariant Migrated(es) == Migrated(old(es)) + schemas[..n] && WritesPaused(tables, s.guards)
        invariant n > 0 ==> Guarded(s.contents) == Guarded(schemas[n - 1])
        invariant Undisturbed(old(clock)) ==> Undisturbed(clock)
      {
        MoreMigrations(ids, n);
        assert schemas[..n + 1] == schemas[..n] + [schemas[n]];
        ok := ApplyMigration(ids[n], schemas[n], first, backup, complete);
        if !ok { return; }
      }
      ok := true;
      assert ids[..|ids|] == ids && schemas[..|ids|] == schemas;
    }

    lemma PausedAfterBackup(backupComplete: bool)
      requires if backupComplete then WritesPaused(tables, s.guards) else Held(tables, s)
      ensures WritesPaused(tables, s.guards)
    {
    }

    /** One migration under the complete backup. */
    method ApplyMigration(id: string, schema: map<string, int>, ghost first: nat, ghost backup: nat,
      ghost complete: Saved)
      returns (ok: bool)
      requires Valid() && Fenced() && s.progress == Some(complete) && complete.phase.Complete?
      requires MigratesUnder(tables, ss, es, first, backup, complete)
      modifies this
      ensures Valid() && old(es) <= es && old(ss) <= ss && s.progress == Some(complete)
      ensures MigratesUnder(tables, ss, es, first, backup, complete)
      ensures calls == old(calls) + [F.Mutate(R.Migrate(id), None)]
      ensures ok ==> Migrated(es) == Migrated(old(es)) + [schema]
      ensures old(WritesPaused(tables, s.guards)) ==>
        WritesPaused(tables, s.guards) && (ok ==> Guarded(s.contents) == Guarded(schema))
      ensures Undisturbed(old(clock)) ==> ok && Undisturbed(clock)
    {
      hide IsRun, Held, Apply, Enabled, MigratesUnder, Migrated, WritesPaused, Guarded;
      calls := calls + [F.Mutate(R.Migrate(id), None)];
      var at;
      ghost var taken;
      ok, at, taken := Request(Migrate(schema));
      MigrateKeepsProgress(tables, at, Migrate(schema));
      RunLength();
      MigratedOnce(tables, old(ss), old(es), ss, es, first, backup, complete);
      if ok { OneMore(old(es), es, Migrate(schema)); }
    }

    /** Which fenced calls the attempt makes, by what it reads. */
    ghost predicate Conditions(c: F.UpdateConditions, atGuards: State, atProgress: State) {
      var paused := WritesPaused(tables, atGuards.guards);
      && (c.guardsPresent <==> atGuards.guards != {})
      && (c.backupComplete <==> IsComplete(atProgress.progress) && paused)
      && (c.backupCopying <==> !(paused && (IsComplete(atProgress.progress) || Exporting(atProgress.progress))))
    }

    /** How the complete backup follows from the progress that was read. */
    ghost predicate ContinuesFrom(guards: set<Guard>, read: Option<Saved>, prefix: nat, complete: Saved) {
      var paused := WritesPaused(tables, guards);
      && (IsComplete(read) && paused ==> complete == read.value)
      && (read.None? || (IsComplete(read) && !paused) ==> complete.prefix == prefix)
      && (read.Some? && !IsComplete(read) ==> complete.prefix == read.value.prefix)
      && (Exporting(read) && paused ==> complete.epoch == read.value.epoch)
    }

    lemma DecidedConditions(c: F.UpdateConditions, atGuards: State, atProgress: State)
      requires c.guardsPresent <==> atGuards.guards != {}
      requires var decision := Decide(atProgress.progress, WritesPaused(tables, atGuards.guards));
        && c.backupComplete == (decision == AlreadyBackedUp)
        && c.backupCopying == (decision == StartAnew || decision == StartOver || decision == Copy)
      ensures Conditions(c, atGuards, atProgress)
    {
    }

    lemma DecidedContinues(guards: set<Guard>, read: Option<Saved>, prefix: nat, complete: Saved)
      requires var decision := Decide(read, WritesPaused(tables, guards));
        var chosen := Chosen(decision, read, prefix);
        complete.prefix == chosen.prefix && (!chosen.phase.Copying? ==> complete.epoch == chosen.epoch)
        && (decision == AlreadyBackedUp ==> Some(complete) == read)
      ensures ContinuesFrom(guards, read, prefix, complete)
    {
    }
  }
}
