/**
 The order in which the provisioner, the published-update completion and the terminal deletion use
 their fence (provisioner.ts, database.ts, upgrade-checkpoint.ts, update-recovery.ts, delete.ts).
 */
module FenceCalls {
  import opened Common
  import opened FenceRecords

  /** One use of the fence object by the operation that holds it. */
  datatype Call =
    | RequireVerification
    | Mutate(step: Step, batchHash: Option<string>)
    | Upload
    | Checkpoint(step: Step)
    | CompleteVerification

  /** Everything an update finds out while it runs that decides which fenced steps it takes. */
  datatype UpdateConditions = UpdateConditions(
    createsBucket: bool,
    emptyDatabase: bool,
    migrations: seq<string>,
    guardsPresent: bool,
    backupComplete: bool,
    backupCopying: bool,
    addressAttempts: nat,
    addressEnabled: bool,
    guardsToRelease: bool)

  /** What a terminal deletion finds: the live Worker, the bucket with its batches of keys, the database. */
  datatype DeletionConditions = DeletionConditions(
    worker: bool, bucket: bool, batches: seq<string>, database: bool)

  function When(condition: bool, calls: seq<Call>): seq<Call> {
    if condition then calls else []
  }

  function CheckpointCalls(c: UpdateConditions): seq<Call> {
    When(c.guardsPresent, [RequireVerification])
    + When(!c.backupComplete,
           When(c.backupCopying, [RequireVerification, Mutate(FreezeUpgradeData, None)])
           + [Mutate(VerifyUpgradeCheckpoint, None)])
  }

  function MigrationCalls(ids: seq<string>): seq<Call> {
    if ids == [] then [] else [Mutate(Migrate(ids[0]), None)] + MigrationCalls(ids[1..])
  }

  function DatabaseCalls(c: UpdateConditions): seq<Call> {
    if c.migrations != [] then CheckpointCalls(c) + [RequireVerification] + MigrationCalls(c.migrations)
    else When(c.emptyDatabase, [RequireVerification, Mutate(InitializeDatabase, None)])
  }

  function Repeated(call: Call, n: nat): seq<Call> {
    if n == 0 then [] else [call] + Repeated(call, n - 1)
  }

  function ReleaseCalls(guardsToRelease: bool): seq<Call> {
    When(guardsToRelease, [Mutate(ResumeUpgradedServer, None)])
    + [Mutate(RecordRelease, None), CompleteVerification]
  }

  function PublishCalls(c: UpdateConditions): seq<Call> {
    [RequireVerification, Upload, Mutate(ConfigureMaintenance, None)]
    + (if c.addressEnabled then [Checkpoint(EnableServerAddress)] else [Mutate(EnableServerAddress, None)])
  }

  function UpdateCalls(c: UpdateConditions): seq<Call> {
    When(c.createsBucket, [Mutate(CreateFileBucket, None)])
    + DatabaseCalls(c) + [Checkpoint(PrepareDatabase)]
    + Repeated(Mutate(CreateServerAddress, None), c.addressAttempts)
    + PublishCalls(c) + ReleaseCalls(c.guardsToRelease)
  }

  function BatchCalls(hashes: seq<string>): seq<Call> {
    if hashes == [] then [] else [Mutate(DeleteR2Objects, Some(hashes[0]))] + BatchCalls(hashes[1..])
  }

  function DeletionCalls(c: DeletionConditions): seq<Call> {
    When(c.worker, [Mutate(DeleteWorker, None)])
    + When(c.bucket, [Upload, Mutate(EnableDeletionAddress, None)] + BatchCalls(c.batches)
      + [Mutate(DeleteR2Bucket, None)])
    + When(c.database, [Mutate(DeleteD1Database, None)])
  }

  /** A step after which the published code, the schema or the paused writers must be verified. */
  predicate IncursDebt(step: Step) {
    step == FreezeUpgradeData || step == InitializeDatabase || step == UploadWorker || step.Migrate?
  }

  /** The steps a call dispatches to the provider. */
  function Dispatches(call: Call): Option<Step> {
    match call
    case Mutate(step, _) => Some(step)
    case Upload => Some(UploadWorker)
    case _ => None
  }

  /** Every step that incurs a debt is dispatched while verification is required, and every Worker upload
      goes through `uploadWorker`, which gives it a receipt. */
  predicate Disciplined(required: bool, calls: seq<Call>)
    decreases calls
  {
    calls == [] ||
    (match calls[0]
     case RequireVerification => Disciplined(true, calls[1..])
     case CompleteVerification => Disciplined(false, calls[1..])
     case Mutate(step, _) => step != UploadWorker && (IncursDebt(step) ==> required)
       && Disciplined(required, calls[1..])
     case Upload => required && Disciplined(required, calls[1..])
     case Checkpoint(_) => Disciplined(required, calls[1..]))
  }

  /** Is verification required after the calls? */
  function RequiredAfter(required: bool, calls: seq<Call>): bool
    decreases calls
  {
    if calls == [] then required
    else match calls[0]
      case RequireVerification => RequiredAfter(true, calls[1..])
      case CompleteVerification => RequiredAfter(false, calls[1..])
      case _ => RequiredAfter(required, calls[1..])
  }

  lemma {:induction false} DisciplinedConcat(required: bool, a: seq<Call>, b: seq<Call>)
    ensures Disciplined(required, a + b) <==> Disciplined(required, a) && Disciplined(RequiredAfter(required, a), b)
    ensures RequiredAfter(required, a + b) == RequiredAfter(RequiredAfter(required, a), b)
    decreases a
  {
    if a == [] {
      assert a + b == b;
    } else {
      assert (a + b)[1..] == a[1..] + b;
      var next := match a[0] case RequireVerification => true case CompleteVerification => false case _ => required;
      DisciplinedConcat(next, a[1..], b);
    }
  }

  lemma {:induction false} MigrationsDisciplined(ids: seq<string>)
    ensures Disciplined(true, MigrationCalls(ids)) && RequiredAfter(true, MigrationCalls(ids))
  {
    if ids != [] {
      MigrationsDisciplined(ids[1..]);
      assert MigrationCalls(ids)[1..] == MigrationCalls(ids[1..]);
    }
  }

  lemma {:induction false} AttemptsDisciplined(required: bool, n: nat)
    ensures Disciplined(required, Repeated(Mutate(CreateServerAddress, None), n))
    ensures RequiredAfter(required, Repeated(Mutate(CreateServerAddress, None), n)) == required
  {
    if n > 0 {
      AttemptsDisciplined(required, n - 1);
      var all := Repeated(Mutate(CreateServerAddress, None), n);
      assert all[1..] == Repeated(Mutate(CreateServerAddress, None), n - 1);
    }
  }

  /** What one more call in front changes. */
  lemma DisciplinedCons(required: bool, call: Call, rest: seq<Call>)
    ensures Disciplined(required, [call] + rest) <==>
      (&& (Dispatches(call).Some? && IncursDebt(Dispatches(call).value) ==> required)
       && !(call.Mutate? && call.step == UploadWorker)
       && Disciplined(RequiredAfter(required, [call]), rest))
  {
    assert ([call] + rest)[1..] == rest;
    assert [call][1..] == [];
  }

  lemma CheckpointDisciplined(required: bool, c: UpdateConditions)
    ensures Disciplined(required, CheckpointCalls(c))
  {
    var guards := When(c.guardsPresent, [RequireVerification]);
    var freeze := When(c.backupCopying, [RequireVerification, Mutate(FreezeUpgradeData, None)]);
    var verify := [Mutate(VerifyUpgradeCheckpoint, None)];
    var backup := When(!c.backupComplete, freeze + verify);
    DisciplinedConcat(required, guards, backup);
    assert Disciplined(required, guards) by { DisciplinedCons(required, RequireVerification, []); }
    var before := RequiredAfter(required, guards);
    DisciplinedConcat(before, freeze, verify);
    assert Disciplined(before, freeze) by {
      assert [RequireVerification, Mutate(FreezeUpgradeData, None)] ==
        [RequireVerification] + [Mutate(FreezeUpgradeData, None)];
      DisciplinedCons(before, RequireVerification, [Mutate(FreezeUpgradeData, None)]);
      DisciplinedCons(true, Mutate(FreezeUpgradeData, None), []);
      assert [Mutate(FreezeUpgradeData, None)] + [] == [Mutate(FreezeUpgradeData, None)];
    }
  }

  lemma InitializeDisciplined(required: bool)
    ensures Disciplined(required, [RequireVerification, Mutate(InitializeDatabase, None)])
  {
    var initialize := [Mutate(InitializeDatabase, None)];
    assert [RequireVerification, Mutate(InitializeDatabase, None)] == [RequireVerification] + initialize;
    DisciplinedCons(required, RequireVerification, initialize);
    assert initialize == initialize + [];
    DisciplinedCons(true, Mutate(InitializeDatabase, None), []);
  }

  lemma UpgradeDisciplined(required: bool, checkpoint: seq<Call>, ids: seq<string>)
    requires Disciplined(required, checkpoint)
    ensures Disciplined(required, checkpoint + [RequireVerification] + MigrationCalls(ids))
  {
    MigrationsDisciplined(ids);
    DisciplinedCons(RequiredAfter(required, checkpoint), RequireVerification, MigrationCalls(ids));
    DisciplinedConcat(required, checkpoint, [RequireVerification] + MigrationCalls(ids));
    assert checkpoint + [RequireVerification] + MigrationCalls(ids) ==
      checkpoint + ([RequireVerification] + MigrationCalls(ids));
  }

  lemma DatabaseDisciplined(required: bool, c: UpdateConditions)
    ensures Disciplined(required, DatabaseCalls(c))
  {
    if c.migrations != [] {
      CheckpointDisciplined(required, c);
      UpgradeDisciplined(required, CheckpointCalls(c), c.migrations);
    } else {
      InitializeDisciplined(required);
    }
  }

  lemma ReleaseDisciplined(required: bool, guardsToRelease: bool)
    ensures Disciplined(required, ReleaseCalls(guardsToRelease))
  {
    var last := [CompleteVerification];
    assert Disciplined(required, last);
    DisciplinedCons(required, Mutate(RecordRelease, None), last);
    var two := [Mutate(RecordRelease, None)] + last;
    assert Disciplined(required, two);
    DisciplinedCons(required, Mutate(ResumeUpgradedServer, None), two);
    assert ReleaseCalls(false) == two;
    assert ReleaseCalls(true) == [Mutate(ResumeUpgradedServer, None)] + two;
  }

  lemma PublishDisciplined(required: bool, c: UpdateConditions)
    ensures Disciplined(required, PublishCalls(c))
  {
    var address := if c.addressEnabled then [Checkpoint(EnableServerAddress)] else [Mutate(EnableServerAddress, None)];
    assert address == [address[0]] + [];
    DisciplinedCons(true, address[0], []);
    DisciplinedCons(true, Mutate(ConfigureMaintenance, None), address);
    var two := [Mutate(ConfigureMaintenance, None)] + address;
    DisciplinedCons(true, Upload, two);
    DisciplinedCons(required, RequireVerification, [Upload] + two);
    assert PublishCalls(c) == [RequireVerification] + ([Upload] + two);
  }

  /** Whatever an update finds on the way, it requires verification before its first step that incurs a
      debt and gives that up only in its last call, by completing the verification. */
  lemma UpdateDisciplined(required: bool, c: UpdateConditions)
    ensures Disciplined(required, UpdateCalls(c))
    ensures UpdateCalls(c) != [] && UpdateCalls(c)[|UpdateCalls(c)| - 1] == CompleteVerification
    ensures forall i :: 0 <= i < |UpdateCalls(c)| - 1 ==> UpdateCalls(c)[i] != CompleteVerification
  {
    var bucket := When(c.createsBucket, [Mutate(CreateFileBucket, None)]);
    var attempts := Repeated(Mutate(CreateServerAddress, None), c.addressAttempts);
    assert Disciplined(required, bucket);
    DisciplinedConcat(required, bucket, DatabaseCalls(c));
    DatabaseDisciplined(RequiredAfter(required, bucket), c);
    var one := bucket + DatabaseCalls(c);
    DisciplinedConcat(required, one, [Checkpoint(PrepareDatabase)]);
    var two := one + [Checkpoint(PrepareDatabase)];
    DisciplinedConcat(required, two, attempts);
    AttemptsDisciplined(RequiredAfter(required, two), c.addressAttempts);
    DisciplinedConcat(required, two + attempts, PublishCalls(c));
    PublishDisciplined(RequiredAfter(required, two + attempts), c);
    DisciplinedConcat(required, two + attempts + PublishCalls(c), ReleaseCalls(c.guardsToRelease));
    ReleaseDisciplined(RequiredAfter(required, two + attempts + PublishCalls(c)), c.guardsToRelease);
    CompletesOnlyLast(c);
  }

  lemma CompletesOnlyLast(c: UpdateConditions)
    ensures forall i :: 0 <= i < |UpdateCalls(c)| - 1 ==> UpdateCalls(c)[i] != CompleteVerification
  {
    NoCompletion(c.migrations, c.addressAttempts);
    var front := When(c.createsBucket, [Mutate(CreateFileBucket, None)]) + DatabaseCalls(c)
      + [Checkpoint(PrepareDatabase)]
      + Repeated(Mutate(CreateServerAddress, None), c.addressAttempts) + PublishCalls(c);
    assert CompleteVerification !in front;
    assert UpdateCalls(c) == front + ReleaseCalls(c.guardsToRelease);
  }

  lemma {:induction false} NoCompletion(ids: seq<string>, n: nat)
    ensures CompleteVerification !in MigrationCalls(ids)
    ensures CompleteVerification !in Repeated(Mutate(CreateServerAddress, None), n)
    decreases |ids| + n
  {
    if ids != [] { NoCompletion(ids[1..], n); }
    if n > 0 { NoCompletion(ids, n - 1); }
  }

  lemma {:induction false} BatchesDisciplined(required: bool, hashes: seq<string>)
    ensures Disciplined(required, BatchCalls(hashes)) && RequiredAfter(required, BatchCalls(hashes)) == required
  {
    if hashes != [] {
      BatchesDisciplined(required, hashes[1..]);
      assert BatchCalls(hashes)[1..] == BatchCalls(hashes[1..]);
    }
  }

  /** A deletion holds its row through `deletionPending` instead of requiring verification. */
  lemma DeletionDisciplined(c: DeletionConditions)
    ensures Disciplined(true, DeletionCalls(c))
    ensures CompleteVerification !in DeletionCalls(c)
  {
    var worker := When(c.worker, [Mutate(DeleteWorker, None)]);
    var helper := [Upload, Mutate(EnableDeletionAddress, None)];
    var bucket := When(c.bucket, helper + BatchCalls(c.batches) + [Mutate(DeleteR2Bucket, None)]);
    var database := When(c.database, [Mutate(DeleteD1Database, None)]);
    BatchesDisciplined(true, c.batches);
    assert helper[1..] == [Mutate(EnableDeletionAddress, None)];
    DisciplinedConcat(true, helper, BatchCalls(c.batches));
    DisciplinedConcat(true, helper + BatchCalls(c.batches), [Mutate(DeleteR2Bucket, None)]);
    DisciplinedConcat(true, worker, bucket);
    DisciplinedConcat(true, worker + bucket, database);
    NoCompletionInBatches(c.batches);
  }

  lemma {:induction false} NoCompletionInBatches(hashes: seq<string>)
    ensures CompleteVerification !in BatchCalls(hashes)
  {
    if hashes != [] { NoCompletionInBatches(hashes[1..]); }
  }

  /** Requiring verification in advance never breaks the discipline. */
  lemma {:induction false} DisciplineIsMonotone(calls: seq<Call>)
    requires Disciplined(false, calls)
    ensures Disciplined(true, calls)
  {
    if calls != [] && !calls[0].RequireVerification? && !calls[0].CompleteVerification? {
      DisciplineIsMonotone(calls[1..]);
    }
  }
}
