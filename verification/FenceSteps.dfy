/**
 Which steps an update and a deletion record, in which order and how often, and what becomes of each when it is
 the last one recorded: recovery knows every step of an update, and a deletion may repeat every step of its own
 (fence.ts, provisioner.ts, update-recovery.ts, delete-fence.ts).
 */
module FenceSteps {
  import opened Common
  import opened FenceRecords
  import opened FenceCalls

  /** The step that a call leaves in the record. */
  function RecordedStep(call: Call): Option<Step> {
    match call
    case RequireVerification => None
    case Mutate(step, _) => Some(step)
    case Upload => Some(UploadWorker)
    case Checkpoint(step) => Some(step)
    case CompleteVerification => Some(VerifyDeployment)
  }

  predicate Records(calls: seq<Call>, step: Step) {
    exists i :: 0 <= i < |calls| && RecordedStep(calls[i]) == Some(step)
  }

  // ---------- how often ----------

  /** How often an update makes a call, from what it finds out. Requiring verification sends nothing. */
  function Occurrences(c: UpdateConditions, call: Call): nat
    requires !call.RequireVerification?
  {
    var upgrades := c.migrations != [];
    match call
    case Upload => 1
    case CompleteVerification => 1
    case Checkpoint(step) =>
      if step == PrepareDatabase || (step == EnableServerAddress && c.addressEnabled) then 1 else 0
    case Mutate(step, batchHash) =>
      if batchHash.Some? then 0
      else match step
        case CreateFileBucket => if c.createsBucket then 1 else 0
        case InitializeDatabase => if !upgrades && c.emptyDatabase then 1 else 0
        case FreezeUpgradeData => if upgrades && !c.backupComplete && c.backupCopying then 1 else 0
        case VerifyUpgradeCheckpoint => if upgrades && !c.backupComplete then 1 else 0
        case Migrate(id) => multiset(c.migrations)[id]
        case CreateServerAddress => c.addressAttempts
        case ConfigureMaintenance => 1
        case EnableServerAddress => if c.addressEnabled then 0 else 1
        case ResumeUpgradedServer => if c.guardsToRelease then 1 else 0
        case RecordRelease => 1
        case _ => 0
  }

  function Times(calls: seq<Call>, call: Call): nat {
    multiset(calls)[call]
  }

  lemma TimesConcat(a: seq<Call>, b: seq<Call>, call: Call)
    ensures Times(a + b, call) == Times(a, call) + Times(b, call)
  {
    assert multiset(a + b) == multiset(a) + multiset(b);
  }

  lemma TimesWhen(condition: bool, calls: seq<Call>, call: Call)
    ensures Times(When(condition, calls), call) == if condition then Times(calls, call) else 0
  {
  }

  lemma TimesOne(one: Call, call: Call)
    ensures Times([one], call) == if call == one then 1 else 0
  {
  }

  lemma TimesNone(call: Call)
    ensures Times([], call) == 0
  {
  }

  lemma TimesTwo(one: Call, two: Call, call: Call)
    ensures Times([one, two], call) == (if call == one then 1 else 0) + (if call == two then 1 else 0)
  {
    assert [one, two] == [one] + [two];
    TimesConcat([one], [two], call);
  }

  lemma {:induction false} MigrationsOccur(ids: seq<string>, call: Call)
    ensures Times(MigrationCalls(ids), call) ==
      if call.Mutate? && call.step.Migrate? && call.batchHash.None? then multiset(ids)[call.step.id] else 0
  {
    if ids != [] {
      MigrationsOccur(ids[1..], call);
      assert ids == [ids[0]] + ids[1..];
      assert multiset(ids) == multiset{ids[0]} + multiset(ids[1..]);
      TimesConcat([Mutate(Migrate(ids[0]), None)], MigrationCalls(ids[1..]), call);
    }
  }

  lemma {:induction false} AttemptsOccur(attempt: Call, n: nat, call: Call)
    ensures Times(Repeated(attempt, n), call) == if call == attempt then n else 0
  {
    if n > 0 {
      AttemptsOccur(attempt, n - 1, call);
      TimesConcat([attempt], Repeated(attempt, n - 1), call);
    }
  }

  predicate IsDatabaseStep(step: Step) {
    step.Migrate? || step in {InitializeDatabase, FreezeUpgradeData, VerifyUpgradeCheckpoint}
  }

  lemma CheckpointOccur(c: UpdateConditions, call: Call)
    requires !call.RequireVerification?
    ensures Times(CheckpointCalls(c), call) ==
      (if call == Mutate(FreezeUpgradeData, None) && !c.backupComplete && c.backupCopying then 1 else 0)
      + (if call == Mutate(VerifyUpgradeCheckpoint, None) && !c.backupComplete then 1 else 0)
  {
    hide Times;
    var freeze := [RequireVerification, Mutate(FreezeUpgradeData, None)];
    var verify := [Mutate(VerifyUpgradeCheckpoint, None)];
    TimesTwo(RequireVerification, Mutate(FreezeUpgradeData, None), call);
    TimesOne(Mutate(VerifyUpgradeCheckpoint, None), call);
    TimesOne(RequireVerification, call);
    TimesWhen(c.backupCopying, freeze, call);
    TimesConcat(When(c.backupCopying, freeze), verify, call);
    TimesWhen(!c.backupComplete, When(c.backupCopying, freeze) + verify, call);
    TimesWhen(c.guardsPresent, [RequireVerification], call);
    TimesConcat(When(c.guardsPresent, [RequireVerification]),
                When(!c.backupComplete, When(c.backupCopying, freeze) + verify), call);
  }

  /** The database part of an update, call by call. */
  lemma DatabaseOccur(c: UpdateConditions, call: Call)
    requires !call.RequireVerification?
    ensures Times(DatabaseCalls(c), call) ==
      if call.Mutate? && IsDatabaseStep(call.step) then Occurrences(c, call) else 0
  {
    hide Times, CheckpointCalls, MigrationCalls;
    MigrationsOccur(c.migrations, call);
    CheckpointOccur(c, call);
    TimesOne(RequireVerification, call);
    TimesTwo(RequireVerification, Mutate(InitializeDatabase, None), call);
    TimesWhen(c.emptyDatabase, [RequireVerification, Mutate(InitializeDatabase, None)], call);
    TimesConcat(CheckpointCalls(c), [RequireVerification], call);
    TimesConcat(CheckpointCalls(c) + [RequireVerification], MigrationCalls(c.migrations), call);
  }

  lemma PublishOccur(c: UpdateConditions, call: Call)
    requires !call.RequireVerification?
    ensures Times(PublishCalls(c), call) ==
      if call == Upload || call == Mutate(ConfigureMaintenance, None)
        || call == (if c.addressEnabled then Checkpoint(EnableServerAddress) else Mutate(EnableServerAddress, None))
      then 1 else 0
  {
    hide Times;
    var address := if c.addressEnabled then Checkpoint(EnableServerAddress) else Mutate(EnableServerAddress, None);
    TimesTwo(RequireVerification, Upload, call);
    TimesTwo(Mutate(ConfigureMaintenance, None), address, call);
    TimesConcat([RequireVerification, Upload], [Mutate(ConfigureMaintenance, None), address], call);
    assert PublishCalls(c) == [RequireVerification, Upload] + [Mutate(ConfigureMaintenance, None), address];
  }

  lemma ReleaseOccur(guardsToRelease: bool, call: Call)
    ensures Times(ReleaseCalls(guardsToRelease), call) ==
      if call == Mutate(RecordRelease, None) || call == CompleteVerification
        || (guardsToRelease && call == Mutate(ResumeUpgradedServer, None)) then 1 else 0
  {
    hide Times;
    TimesOne(Mutate(ResumeUpgradedServer, None), call);
    TimesWhen(guardsToRelease, [Mutate(ResumeUpgradedServer, None)], call);
    TimesTwo(Mutate(RecordRelease, None), CompleteVerification, call);
    TimesConcat(When(guardsToRelease, [Mutate(ResumeUpgradedServer, None)]),
                [Mutate(RecordRelease, None), CompleteVerification], call);
  }

  /** What comes before the Worker is published. */
  function BeforePublishing(c: UpdateConditions): seq<Call> {
    When(c.createsBucket, [Mutate(CreateFileBucket, None)])
    + DatabaseCalls(c) + [Checkpoint(PrepareDatabase)]
    + Repeated(Mutate(CreateServerAddress, None), c.addressAttempts)
  }

  lemma UpdateSplits(c: UpdateConditions)
    ensures UpdateCalls(c) == BeforePublishing(c) + PublishCalls(c) + ReleaseCalls(c.guardsToRelease)
  {
  }

  lemma BeforePublishingOccur(c: UpdateConditions, call: Call)
    requires !call.RequireVerification?
    ensures Times(BeforePublishing(c), call) ==
      (if call.Mutate? && IsDatabaseStep(call.step) then Occurrences(c, call) else 0)
      + (if call == Mutate(CreateFileBucket, None) && c.createsBucket then 1 else 0)
      + (if call == Checkpoint(PrepareDatabase) then 1 else 0)
      + (if call == Mutate(CreateServerAddress, None) then c.addressAttempts else 0)
  {
    hide Times, DatabaseCalls, Repeated, Occurrences;
    DatabaseOccur(c, call);
    AttemptsOccur(Mutate(CreateServerAddress, None), c.addressAttempts, call);
    TimesOne(Mutate(CreateFileBucket, None), call);
    TimesOne(Checkpoint(PrepareDatabase), call);
    var bucket := When(c.createsBucket, [Mutate(CreateFileBucket, None)]);
    TimesWhen(c.createsBucket, [Mutate(CreateFileBucket, None)], call);
    TimesConcat(bucket, DatabaseCalls(c), call);
    TimesConcat(bucket + DatabaseCalls(c), [Checkpoint(PrepareDatabase)], call);
    TimesConcat(bucket + DatabaseCalls(c) + [Checkpoint(PrepareDatabase)],
                Repeated(Mutate(CreateServerAddress, None), c.addressAttempts), call);
  }

  /** An update makes each call exactly as often as its conditions say: it uploads once, applies each migration
      once, and freezes exactly if it upgrades and its backup has yet to be copied. */
  lemma UpdateOccurrences(c: UpdateConditions, call: Call)
    requires !call.RequireVerification?
    ensures Times(UpdateCalls(c), call) == Occurrences(c, call)
  {
    hide Times, BeforePublishing, PublishCalls, ReleaseCalls, UpdateCalls;
    BeforePublishingOccur(c, call);
    PublishOccur(c, call);
    ReleaseOccur(c.guardsToRelease, call);
    UpdateSplits(c);
    TimesConcat(BeforePublishing(c), PublishCalls(c), call);
    TimesConcat(BeforePublishing(c) + PublishCalls(c), ReleaseCalls(c.guardsToRelease), call);
  }

  // ---------- in which order ----------

  function Stage(step: Step): nat {
    match step
    case AcquireDeployment => 0
    case CreateFileBucket => 1
    case InitializeDatabase => 2
    case FreezeUpgradeData => 3
    case VerifyUpgradeCheckpoint => 4
    case Migrate(_) => 5
    case PrepareDatabase => 6
    case CreateServerAddress => 7
    case DeleteWorker => 8
    case UploadWorker => 9
    case ConfigureMaintenance => 10
    case EnableServerAddress => 11
    case EnableDeletionAddress => 11
    case ResumeUpgradedServer => 12
    case RecordRelease => 13
    case VerifyDeployment => 14
    case DeleteR2Objects => 15
    case DeleteR2Bucket => 16
    case DeleteD1Database => 17
  }

  /** The steps recorded lie between two stages. */
  predicate Within(calls: seq<Call>, low: nat, high: nat) {
    forall i :: 0 <= i < |calls| && RecordedStep(calls[i]).Some? ==>
      low <= Stage(RecordedStep(calls[i]).value) <= high
  }

  predicate InOrder(calls: seq<Call>) {
    forall i, j :: 0 <= i < j < |calls| && RecordedStep(calls[i]).Some? && RecordedStep(calls[j]).Some? ==>
      Stage(RecordedStep(calls[i]).value) <= Stage(RecordedStep(calls[j]).value)
  }

  lemma Joined(a: seq<Call>, b: seq<Call>, low: nat, middle: nat, above: nat, high: nat)
    requires InOrder(a) && InOrder(b) && Within(a, low, middle) && Within(b, above, high)
    requires low <= middle <= above <= high
    ensures InOrder(a + b) && Within(a + b, low, high)
  {
    hide Stage, RecordedStep;
  }

  lemma {:induction false} MigrationsInOrder(ids: seq<string>)
    ensures InOrder(MigrationCalls(ids)) && Within(MigrationCalls(ids), 5, 5)
  {
    if ids != [] {
      MigrationsInOrder(ids[1..]);
      Joined([Mutate(Migrate(ids[0]), None)], MigrationCalls(ids[1..]), 5, 5, 5, 5);
    }
  }

  lemma {:induction false} AttemptsInOrder(n: nat)
    ensures var attempts := Repeated(Mutate(CreateServerAddress, None), n);
      InOrder(attempts) && Within(attempts, 7, 7)
  {
    if n > 0 {
      AttemptsInOrder(n - 1);
      Joined([Mutate(CreateServerAddress, None)], Repeated(Mutate(CreateServerAddress, None), n - 1), 7, 7, 7, 7);
    }
  }

  lemma DatabaseInOrder(c: UpdateConditions)
    ensures InOrder(DatabaseCalls(c)) && Within(DatabaseCalls(c), 2, 5)
  {
    if c.migrations != [] {
      MigrationsInOrder(c.migrations);
      assert InOrder(CheckpointCalls(c)) && Within(CheckpointCalls(c), 2, 4);
      Joined(CheckpointCalls(c), [RequireVerification], 2, 4, 4, 4);
      Joined(CheckpointCalls(c) + [RequireVerification], MigrationCalls(c.migrations), 2, 4, 5, 5);
    }
  }

  lemma BeforePublishingInOrder(c: UpdateConditions)
    ensures InOrder(BeforePublishing(c)) && Within(BeforePublishing(c), 1, 7)
  {
    DatabaseInOrder(c);
    AttemptsInOrder(c.addressAttempts);
    var bucket := When(c.createsBucket, [Mutate(CreateFileBucket, None)]);
    assert InOrder(bucket) && Within(bucket, 1, 1);
    assert InOrder([Checkpoint(PrepareDatabase)]) && Within([Checkpoint(PrepareDatabase)], 6, 6);
    hide DatabaseCalls, Repeated, InOrder, Within;
    Joined(bucket, DatabaseCalls(c), 1, 1, 2, 5);
    Joined(bucket + DatabaseCalls(c), [Checkpoint(PrepareDatabase)], 1, 5, 6, 6);
    Joined(bucket + DatabaseCalls(c) + [Checkpoint(PrepareDatabase)],
           Repeated(Mutate(CreateServerAddress, None), c.addressAttempts), 1, 6, 7, 7);
  }

  lemma PublishInOrder(c: UpdateConditions)
    ensures InOrder(PublishCalls(c)) && Within(PublishCalls(c), 9, 11)
  {
  }

  lemma ReleaseInOrder(guardsToRelease: bool)
    ensures InOrder(ReleaseCalls(guardsToRelease)) && Within(ReleaseCalls(guardsToRelease), 12, 14)
  {
  }

  /** An update goes through its stages in order: the bucket, the freeze and the backup before the migrations, the
      database before the upload, and the release record and the verification behind everything else. */
  lemma UpdateInOrder(c: UpdateConditions)
    ensures InOrder(UpdateCalls(c)) && Within(UpdateCalls(c), 1, 14)
  {
    BeforePublishingInOrder(c);
    PublishInOrder(c);
    ReleaseInOrder(c.guardsToRelease);
    UpdateSplits(c);
    hide BeforePublishing, PublishCalls, ReleaseCalls, UpdateCalls, InOrder, Within;
    Joined(BeforePublishing(c), PublishCalls(c), 1, 7, 9, 11);
    Joined(BeforePublishing(c) + PublishCalls(c), ReleaseCalls(c.guardsToRelease), 1, 11, 12, 14);
  }

  lemma {:induction false} MigrationAt(ids: seq<string>, i: nat)
    requires i < |ids|
    ensures |MigrationCalls(ids)| == |ids| && MigrationCalls(ids)[i] == Mutate(Migrate(ids[i]), None)
  {
    if i > 0 { MigrationAt(ids[1..], i - 1); } else if |ids| > 1 { MigrationAt(ids[1..], 0); }
  }

  lemma Inside(a: seq<Call>, b: seq<Call>, c: seq<Call>, i: nat)
    requires i < |b|
    ensures (a + b + c)[|a| + i] == b[i]
  {
  }

  /** The migrations follow one another in the order of the release. */
  lemma MigrationsInSequence(c: UpdateConditions) returns (k: nat)
    ensures k + |c.migrations| <= |UpdateCalls(c)|
    ensures forall i :: 0 <= i < |c.migrations| ==> UpdateCalls(c)[k + i] == Mutate(Migrate(c.migrations[i]), None)
  {
    hide CheckpointCalls, MigrationCalls, PublishCalls, ReleaseCalls, Repeated;
    k := 0;
    if c.migrations != [] {
      MigrationAt(c.migrations, 0);
      var bucket := When(c.createsBucket, [Mutate(CreateFileBucket, None)]);
      var front := bucket + (CheckpointCalls(c) + [RequireVerification]);
      var back := [Checkpoint(PrepareDatabase)] + Repeated(Mutate(CreateServerAddress, None), c.addressAttempts)
        + PublishCalls(c) + ReleaseCalls(c.guardsToRelease);
      k := |front|;
      UpdateAround(c);
      hide UpdateCalls;
      forall i | 0 <= i < |c.migrations| ensures UpdateCalls(c)[k + i] == Mutate(Migrate(c.migrations[i]), None) {
        MigrationAt(c.migrations, i);
        Inside(front, MigrationCalls(c.migrations), back, i);
      }
    }
  }

  lemma UpdateAround(c: UpdateConditions)
    requires c.migrations != []
    ensures UpdateCalls(c) == When(c.createsBucket, [Mutate(CreateFileBucket, None)])
      + (CheckpointCalls(c) + [RequireVerification]) + MigrationCalls(c.migrations)
      + ([Checkpoint(PrepareDatabase)] + Repeated(Mutate(CreateServerAddress, None), c.addressAttempts)
      + PublishCalls(c) + ReleaseCalls(c.guardsToRelease))
  {
    hide CheckpointCalls, MigrationCalls, PublishCalls, ReleaseCalls, Repeated, When;
    var bucket := When(c.createsBucket, [Mutate(CreateFileBucket, None)]);
    assert DatabaseCalls(c) == CheckpointCalls(c) + [RequireVerification] + MigrationCalls(c.migrations);
    assert bucket + DatabaseCalls(c) ==
      bucket + (CheckpointCalls(c) + [RequireVerification]) + MigrationCalls(c.migrations);
  }

  lemma {:induction false} RequiredSince(required: bool, calls: seq<Call>)
    requires CompleteVerification !in calls && (required || RequireVerification in calls)
    ensures RequiredAfter(required, calls)
    decreases calls
  {
    if calls != [] { RequiredSince(required || calls[0] == RequireVerification, calls[1..]); }
  }

  /** An upgrade that finds write guards requires verification before anything but the bucket, and until its last
      call: a failure on the way leaves the row held. */
  lemma GuardsKeepItRequired(c: UpdateConditions, required: bool, i: nat)
    requires c.migrations != [] && c.guardsPresent && (if c.createsBucket then 1 else 0) < i < |UpdateCalls(c)|
    ensures RequiredAfter(required, UpdateCalls(c)[..i])
  {
    hide MigrationCalls, PublishCalls, ReleaseCalls, Repeated;
    CompletesOnlyLast(c);
    var first := if c.createsBucket then 1 else 0;
    assert UpdateCalls(c)[first] == RequireVerification by {
      assert DatabaseCalls(c)[0] == RequireVerification;
    }
    hide UpdateCalls;
    assert UpdateCalls(c)[..i][first] == RequireVerification;
    RequiredSince(required, UpdateCalls(c)[..i]);
  }

  /** Verification is required directly before a step that incurs a debt. */
  predicate Announced(calls: seq<Call>) {
    forall i :: 0 <= i < |calls| && calls[i] == RequireVerification ==>
      i + 1 < |calls| && Dispatches(calls[i + 1]).Some? && IncursDebt(Dispatches(calls[i + 1]).value)
  }

  lemma AnnouncedJoined(a: seq<Call>, b: seq<Call>)
    requires Announced(a) && Announced(b)
    ensures Announced(a + b)
  {
    hide IncursDebt, Dispatches;
  }

  lemma NothingAnnounced(calls: seq<Call>)
    requires RequireVerification !in calls
    ensures Announced(calls)
  {
  }

  lemma {:induction false} RepeatedOnly(call: Call, n: nat)
    ensures forall x :: x in Repeated(call, n) ==> x == call
  {
    if n > 0 { RepeatedOnly(call, n - 1); }
  }

  lemma {:induction false} OnlyMigrations(ids: seq<string>)
    ensures RequireVerification !in MigrationCalls(ids)
  {
    if ids != [] { OnlyMigrations(ids[1..]); }
  }

  lemma CheckpointAnnounced(c: UpdateConditions)
    requires !c.guardsPresent
    ensures Announced(CheckpointCalls(c))
  {
  }

  lemma DatabaseAnnounced(c: UpdateConditions)
    requires !c.guardsPresent
    ensures Announced(DatabaseCalls(c))
  {
    if c.migrations != [] {
      CheckpointAnnounced(c);
      OnlyMigrations(c.migrations);
      MigrationAt(c.migrations, 0);
      hide CheckpointCalls, MigrationCalls;
      var upgrade := [RequireVerification] + MigrationCalls(c.migrations);
      assert Announced(upgrade);
      AnnouncedJoined(CheckpointCalls(c), upgrade);
      assert DatabaseCalls(c) == CheckpointCalls(c) + upgrade;
    }
  }

  lemma PublishAnnounced(c: UpdateConditions)
    ensures Announced(PublishCalls(c)) && Announced(ReleaseCalls(c.guardsToRelease))
  {
    NothingAnnounced(ReleaseCalls(c.guardsToRelease));
  }

  lemma AttemptsAnnounced(c: UpdateConditions)
    ensures Announced(When(c.createsBucket, [Mutate(CreateFileBucket, None)]))
    ensures Announced(Repeated(Mutate(CreateServerAddress, None), c.addressAttempts))
    ensures Announced([Checkpoint(PrepareDatabase)])
  {
    RepeatedOnly(Mutate(CreateServerAddress, None), c.addressAttempts);
    NothingAnnounced(When(c.createsBucket, [Mutate(CreateFileBucket, None)]));
    NothingAnnounced(Repeated(Mutate(CreateServerAddress, None), c.addressAttempts));
    NothingAnnounced([Checkpoint(PrepareDatabase)]);
  }

  /** An update requires verification exactly where a debt is about to be incurred: the freeze, the first migration
      or the initialization, and the upload; besides that only where it finds write guards. */
  lemma DebtIsAnnounced(c: UpdateConditions)
    requires !c.guardsPresent
    ensures Announced(UpdateCalls(c))
  {
    hide Announced, PublishCalls, ReleaseCalls, Repeated, DatabaseCalls, When, UpdateCalls;
    DatabaseAnnounced(c);
    AttemptsAnnounced(c);
    PublishAnnounced(c);
    UpdateSplits(c);
    var bucket := When(c.createsBucket, [Mutate(CreateFileBucket, None)]);
    var attempts := Repeated(Mutate(CreateServerAddress, None), c.addressAttempts);
    AnnouncedJoined(bucket, DatabaseCalls(c));
    AnnouncedJoined(bucket + DatabaseCalls(c), [Checkpoint(PrepareDatabase)]);
    AnnouncedJoined(bucket + DatabaseCalls(c) + [Checkpoint(PrepareDatabase)], attempts);
    AnnouncedJoined(BeforePublishing(c), PublishCalls(c));
    AnnouncedJoined(BeforePublishing(c) + PublishCalls(c), ReleaseCalls(c.guardsToRelease));
  }

  // ---------- a terminal deletion ----------

  function DeletionOccurrences(c: DeletionConditions, call: Call): nat {
    match call
    case Upload => if c.bucket then 1 else 0
    case Mutate(step, None) =>
      (match step
       case DeleteWorker => if c.worker then 1 else 0
       case EnableDeletionAddress => if c.bucket then 1 else 0
       case DeleteR2Bucket => if c.bucket then 1 else 0
       case DeleteD1Database => if c.database then 1 else 0
       case _ => 0)
    case Mutate(step, Some(hash)) => if step == DeleteR2Objects && c.bucket then multiset(c.batches)[hash] else 0
    case _ => 0
  }

  lemma {:induction false} BatchesOccur(hashes: seq<string>, call: Call)
    ensures Times(BatchCalls(hashes), call) ==
      if call.Mutate? && call.step == DeleteR2Objects && call.batchHash.Some?
      then multiset(hashes)[call.batchHash.value] else 0
  {
    hide Times;
    if hashes == [] {
      TimesNone(call);
    } else {
      BatchesOccur(hashes[1..], call);
      TimesOne(Mutate(DeleteR2Objects, Some(hashes[0])), call);
      assert hashes == [hashes[0]] + hashes[1..];
      assert multiset(hashes) == multiset{hashes[0]} + multiset(hashes[1..]);
      TimesConcat([Mutate(DeleteR2Objects, Some(hashes[0]))], BatchCalls(hashes[1..]), call);
    }
  }

  function BucketCalls(hashes: seq<string>): seq<Call> {
    [Upload, Mutate(EnableDeletionAddress, None)] + BatchCalls(hashes) + [Mutate(DeleteR2Bucket, None)]
  }

  lemma BucketOccur(hashes: seq<string>, call: Call)
    ensures Times(BucketCalls(hashes), call) ==
      (if call == Upload || call == Mutate(EnableDeletionAddress, None) || call == Mutate(DeleteR2Bucket, None)
       then 1 else 0) + Times(BatchCalls(hashes), call)
  {
    hide Times, BatchCalls;
    var helper := [Upload, Mutate(EnableDeletionAddress, None)];
    TimesTwo(Upload, Mutate(EnableDeletionAddress, None), call);
    TimesOne(Mutate(DeleteR2Bucket, None), call);
    TimesConcat(helper, BatchCalls(hashes), call);
    TimesConcat(helper + BatchCalls(hashes), [Mutate(DeleteR2Bucket, None)], call);
  }

  /** A deletion removes each resource that it finds once, and publishes its helper only to empty a bucket. */
  lemma DeletionOccurs(c: DeletionConditions, call: Call)
    ensures Times(DeletionCalls(c), call) == DeletionOccurrences(c, call)
  {
    BatchesOccur(c.batches, call);
    BucketOccur(c.batches, call);
    hide Times, BatchCalls;
    var worker := When(c.worker, [Mutate(DeleteWorker, None)]);
    var database := When(c.database, [Mutate(DeleteD1Database, None)]);
    var bucket := When(c.bucket, BucketCalls(c.batches));
    TimesOne(Mutate(DeleteWorker, None), call);
    TimesOne(Mutate(DeleteD1Database, None), call);
    TimesWhen(c.worker, [Mutate(DeleteWorker, None)], call);
    TimesWhen(c.database, [Mutate(DeleteD1Database, None)], call);
    TimesWhen(c.bucket, BucketCalls(c.batches), call);
    TimesConcat(worker, bucket, call);
    TimesConcat(worker + bucket, database, call);
    assert DeletionCalls(c) == worker + bucket + database;
  }

  lemma {:induction false} BatchesInOrder(hashes: seq<string>)
    ensures InOrder(BatchCalls(hashes)) && Within(BatchCalls(hashes), 15, 15)
  {
    if hashes != [] {
      BatchesInOrder(hashes[1..]);
      Joined([Mutate(DeleteR2Objects, Some(hashes[0]))], BatchCalls(hashes[1..]), 15, 15, 15, 15);
    }
  }

  lemma OneInOrder(call: Call, stage: nat)
    requires RecordedStep(call).Some? && Stage(RecordedStep(call).value) == stage
    ensures InOrder([call]) && Within([call], stage, stage)
  {
  }

  lemma WhenInOrder(condition: bool, calls: seq<Call>, low: nat, high: nat)
    requires InOrder(calls) && Within(calls, low, high)
    ensures InOrder(When(condition, calls)) && Within(When(condition, calls), low, high)
  {
  }

  lemma BucketInOrder(hashes: seq<string>)
    ensures InOrder(BucketCalls(hashes)) && Within(BucketCalls(hashes), 9, 16)
  {
    hide InOrder, Within, BatchCalls;
    var helper := [Upload, Mutate(EnableDeletionAddress, None)];
    var last := Mutate(DeleteR2Bucket, None);
    OneInOrder(Upload, 9);
    OneInOrder(Mutate(EnableDeletionAddress, None), 11);
    Joined([Upload], [Mutate(EnableDeletionAddress, None)], 9, 9, 11, 11);
    assert helper == [Upload] + [Mutate(EnableDeletionAddress, None)];
    BatchesInOrder(hashes);
    OneInOrder(last, 16);
    Joined(helper, BatchCalls(hashes), 9, 11, 15, 15);
    Joined(helper + BatchCalls(hashes), [last], 9, 15, 16, 16);
  }

  /** The Worker goes first, the bucket only once it is empty, and the database last. */
  lemma DeletionInOrder(c: DeletionConditions)
    ensures InOrder(DeletionCalls(c)) && Within(DeletionCalls(c), 8, 17)
  {
    hide InOrder, Within, BatchCalls, When;
    var worker := When(c.worker, [Mutate(DeleteWorker, None)]);
    var database := When(c.database, [Mutate(DeleteD1Database, None)]);
    var bucket := When(c.bucket, BucketCalls(c.batches));
    OneInOrder(Mutate(DeleteWorker, None), 8);
    WhenInOrder(c.worker, [Mutate(DeleteWorker, None)], 8, 8);
    OneInOrder(Mutate(DeleteD1Database, None), 17);
    WhenInOrder(c.database, [Mutate(DeleteD1Database, None)], 17, 17);
    BucketInOrder(c.batches);
    WhenInOrder(c.bucket, BucketCalls(c.batches), 9, 16);
    Joined(worker, bucket, 8, 8, 9, 16);
    Joined(worker + bucket, database, 8, 16, 17, 17);
    assert DeletionCalls(c) == worker + bucket + database;
  }

  // ---------- what becomes of a recorded step ----------

  lemma Occurs(calls: seq<Call>, call: Call) returns (i: nat)
    requires Times(calls, call) > 0
    ensures i < |calls| && calls[i] == call
  {
    assert call in calls;
    i :| 0 <= i < |calls| && calls[i] == call;
  }

  lemma OccursOnce(calls: seq<Call>, i: nat, j: nat)
    requires i < j < |calls| && calls[i] == calls[j]
    ensures Times(calls, calls[i]) >= 2
  {
    TimesConcat(calls[..j], calls[j..], calls[i]);
    assert calls[..j] + calls[j..] == calls && calls[..j][i] == calls[i] && calls[j..][0] == calls[i];
    assert calls[i] in calls[..j] && calls[i] in calls[j..];
  }

  /** The steps that recovery knows are those that an update records, migrations aside, and its acquisition. */
  lemma UpdateStepsAreKnown(step: Step)
    ensures IsUpdateStep(step) <==>
      step == AcquireDeployment || (!step.Migrate? && exists c :: Records(UpdateCalls(c), step))
    ensures forall c :: Records(UpdateCalls(c), step) && step.Migrate? ==> step.id in c.migrations
  {
    forall c | Records(UpdateCalls(c), step) ensures IsUpdateStep(step) || (step.Migrate? && step.id in c.migrations) {
      UpdateRecords(c, step);
    }
    if IsUpdateStep(step) && step != AcquireDeployment { KnownStepIsRecorded(step); }
  }

  lemma UpdateRecords(c: UpdateConditions, step: Step)
    requires Records(UpdateCalls(c), step)
    ensures step != AcquireDeployment && (IsUpdateStep(step) || (step.Migrate? && step.id in c.migrations))
  {
    hide UpdateCalls;
    var i :| 0 <= i < |UpdateCalls(c)| && RecordedStep(UpdateCalls(c)[i]) == Some(step);
    UpdateOccurrences(c, UpdateCalls(c)[i]);
    assert UpdateCalls(c)[i] in UpdateCalls(c);
  }

  lemma KnownStepIsRecorded(step: Step)
    requires IsUpdateStep(step) && step != AcquireDeployment
    ensures exists c :: Records(UpdateCalls(c), step)
  {
    hide UpdateCalls;
    var migrations := if step == InitializeDatabase then [] else ["0001"];
    var c := UpdateConditions(true, true, migrations, true, false, true, 1, false, true);
    var call := if step == UploadWorker then Upload else if step == VerifyDeployment then CompleteVerification
      else if step == PrepareDatabase then Checkpoint(step) else Mutate(step, None);
    UpdateOccurrences(c, call);
    var i := Occurs(UpdateCalls(c), call);
    assert Records(UpdateCalls(c), step);
  }

  /** A deletion may repeat the steps that it records, the upload of its helper aside. */
  lemma DeletionStepsAreRepeatable(step: Step)
    ensures IsRepeatableDeletionStep(step) <==> step != UploadWorker && exists c :: Records(DeletionCalls(c), step)
  {
    forall c | Records(DeletionCalls(c), step) ensures IsRepeatableDeletionStep(step) || step == UploadWorker {
      DeletionRecords(c, step);
    }
    if IsRepeatableDeletionStep(step) { RepeatableStepIsRecorded(step); }
  }

  lemma DeletionRecords(c: DeletionConditions, step: Step)
    requires Records(DeletionCalls(c), step)
    ensures IsRepeatableDeletionStep(step) || step == UploadWorker
  {
    hide DeletionCalls;
    var i :| 0 <= i < |DeletionCalls(c)| && RecordedStep(DeletionCalls(c)[i]) == Some(step);
    DeletionOccurs(c, DeletionCalls(c)[i]);
    assert DeletionCalls(c)[i] in DeletionCalls(c);
  }

  lemma RepeatableStepIsRecorded(step: Step)
    requires IsRepeatableDeletionStep(step)
    ensures exists c :: Records(DeletionCalls(c), step)
  {
    hide DeletionCalls;
    var c := DeletionConditions(true, true, [""], true);
    var call := Mutate(step, if step == DeleteR2Objects then Some("") else None);
    DeletionOccurs(c, call);
    var i := Occurs(DeletionCalls(c), call);
    assert Records(DeletionCalls(c), step);
  }

  /** The release is published when call `i` is made: the Worker is uploaded and its maintenance configured. */
  predicate PublishedBefore(calls: seq<Call>, i: nat)
    requires i <= |calls|
  {
    Upload in calls[..i] && Mutate(ConfigureMaintenance, None) in calls[..i]
  }

  lemma PublishedByStage(c: UpdateConditions, i: nat)
    requires i < |UpdateCalls(c)| && RecordedStep(UpdateCalls(c)[i]).Some?
    ensures PublishedBefore(UpdateCalls(c), i) <==>
      Stage(RecordedStep(UpdateCalls(c)[i]).value) > Stage(ConfigureMaintenance)
  {
    hide UpdateCalls;
    var calls := UpdateCalls(c);
    var step := RecordedStep(calls[i]).value;
    UpdateInOrder(c);
    UpdateOccurrences(c, Upload);
    UpdateOccurrences(c, Mutate(ConfigureMaintenance, None));
    UpdateOccurrences(c, calls[i]);
    assert calls[i] in calls;
    var u := Occurs(calls, Upload);
    var k := Occurs(calls, Mutate(ConfigureMaintenance, None));
    if Stage(step) > 10 {
      assert u < i && k < i;
      assert calls[..i][u] == Upload && calls[..i][k] == Mutate(ConfigureMaintenance, None);
    } else if Mutate(ConfigureMaintenance, None) in calls[..i] {
      var j :| 0 <= j < i && calls[j] == Mutate(ConfigureMaintenance, None);
      OccursOnce(calls, j, i);
    }
  }

  /** Recovery reads the record of an update that owes verification, and none of its requests can be in flight. */
  predicate IsInterrupted(r: Record, worker: string, live: Option<LiveWorker>) {
    RecoveryTargetMatches(r, worker, live) && r.protocol1 && r.verificationPending == True && IsSettledStep(r)
  }

  /**
   * An update that stopped behind any of its calls is never stuck. Once its release was published it is verified,
   * if that build is live; before that it is resumed, by the build that started it or, behind a rejected
   * upload, by any build.
   */
  lemma InterruptedUpdateGoesOn(c: UpdateConditions, i: nat, r: Record, worker: string, live: Option<LiveWorker>,
                                fingerprint: Option<string>, registered: set<string>)
    requires i < |UpdateCalls(c)| && RecordedStep(UpdateCalls(c)[i]) == Some(r.step)
    requires IsInterrupted(r, worker, live) && !r.completionOnly && forall id :: id in c.migrations ==> id in registered
    ensures var decision := RecoveryDecision(r, worker, live, fingerprint, registered);
      && (decision == Verify <==>
           BuildMatches(live, r) && r.stepState == Confirmed && PublishedBefore(UpdateCalls(c), i))
      && (decision == Resume <==>
           decision != Verify && fingerprint.Some?
           && (r.fingerprint == fingerprint || (r.step == UploadWorker && r.stepState == Rejected)))
      && decision != Unlock
  {
    hide UpdateCalls, BuildMatches;
    assert Records(UpdateCalls(c), r.step);
    UpdateRecords(c, r.step);
    PublishedByStage(c, i);
  }

  /** The same before its first call, and for an attempt that only verifies what was published: that one is
      verified again, unless the writers were refused to be released. */
  lemma InterruptedVerificationGoesOn(guardsToRelease: bool, r: Record, worker: string, live: Option<LiveWorker>,
                                      fingerprint: Option<string>, registered: set<string>)
    requires r.step == AcquireDeployment || (r.completionOnly && Records(ReleaseCalls(guardsToRelease), r.step))
    requires IsInterrupted(r, worker, live)
    ensures var decision := RecoveryDecision(r, worker, live, fingerprint, registered);
      && (decision == Verify <==>
           BuildMatches(live, r) && r.completionOnly
           && (r.stepState == Confirmed || r.step != ResumeUpgradedServer))
      && (decision == Resume <==> decision != Verify && fingerprint.Some? && r.fingerprint == fingerprint)
      && decision != Unlock
  {
    hide BuildMatches;
    if r.step != AcquireDeployment { ReleaseRecords(guardsToRelease, r.step); }
  }

  lemma ReleaseRecords(guardsToRelease: bool, step: Step)
    requires Records(ReleaseCalls(guardsToRelease), step)
    ensures step == ResumeUpgradedServer || step == RecordRelease || step == VerifyDeployment
  {
  }

  /** A deletion takes over its own record at any of its steps, one whose request may be in flight included; only
      the upload of its helper must be settled or live. Any other record it takes over exactly once it is settled. */
  lemma DeletionTakesOver(c: DeletionConditions, r: Record, worker: string, resetId: string, helperTag: Option<Tag>)
    requires r.worker == worker
    ensures r.kind == Delete && r.resetId == Some(resetId) && Records(DeletionCalls(c), r.step) ==>
      (DeletionMayReplace(r, worker, resetId, helperTag) <==>
       r.step == UploadWorker ==> IsSettledStep(r) || (r.uploadTag.Some? && helperTag == r.uploadTag))
    ensures !(r.kind == Delete && r.resetId == Some(resetId)) ==>
      (DeletionMayReplace(r, worker, resetId, helperTag) <==> IsSettledStep(r))
  {
    hide DeletionCalls;
    if Records(DeletionCalls(c), r.step) { DeletionRecords(c, r.step); }
  }
}
