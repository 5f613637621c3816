/**
 The record that a deployment or deletion keeps in the database's single fence row, and the
 decisions other parties take from reading it (fence.ts, update-recovery.ts, delete-fence.ts).
 */
module FenceRecords {
  import opened Common

  datatype Step =
    | AcquireDeployment | FreezeUpgradeData | VerifyUpgradeCheckpoint | ResumeUpgradedServer
    | PrepareDatabase | CreateFileBucket | InitializeDatabase | CreateServerAddress | UploadWorker
    | ConfigureMaintenance | EnableServerAddress | RecordRelease | VerifyDeployment
    | Migrate(id: string)
    | DeleteWorker | DeleteR2Objects | DeleteR2Bucket | DeleteD1Database | EnableDeletionAddress

  datatype StepState = Started | Confirmed | Rejected | Settled
  datatype Kind = Update | Delete

  /** An optional boolean property of a JSON object. */
  datatype Flag = Absent | False | True

  /** A receipt that one Worker upload carries. `owner` and `serial` stand for its random UUID. */
  datatype Tag = Tag(owner: nat, serial: nat)

  /** `owner` stands for the random UUID of one attempt; `protocol1` is `recoveryProtocol === 1`. */
  datatype Record = Record(
    owner: nat, worker: string, kind: Kind, version: string, fingerprint: Option<string>,
    protocol1: bool, step: Step, stepState: StepState, verificationPending: Flag,
    completionOnly: bool, deletionPending: bool, uploadTag: Option<Tag>,
    resetId: Option<string>, batchHash: Option<string>)

  /** The stored text. A record settled by the operator script is serialized differently, so it never
      equals a text that a client wrote. */
  datatype Text = ByClient(record: Record) | ByOperator(record: Record)

  predicate IsUpdateStep(step: Step) {
    || step == AcquireDeployment || step == FreezeUpgradeData || step == VerifyUpgradeCheckpoint
    || step == ResumeUpgradedServer || step == PrepareDatabase || step == CreateFileBucket
    || step == InitializeDatabase || step == CreateServerAddress || step == UploadWorker
    || step == ConfigureMaintenance || step == EnableServerAddress || step == RecordRelease
    || step == VerifyDeployment
  }

  predicate IsRepeatableDeletionStep(step: Step) {
    || step == DeleteWorker || step == DeleteR2Objects || step == DeleteR2Bucket
    || step == DeleteD1Database || step == EnableDeletionAddress
  }

  predicate IsSettledStep(r: Record) {
    r.stepState == Confirmed || r.stepState == Rejected || r.stepState == Settled
  }

  predicate IsPendingAddressActivation(r: Record) {
    r.kind == Update && r.protocol1 && r.verificationPending == True
    && r.step == EnableServerAddress && r.stepState == Started
  }

  predicate IsRejectedWorkerUpload(r: Record) {
    r.kind == Update && r.protocol1 && r.verificationPending == True
    && r.step == UploadWorker && r.stepState == Rejected
  }

  predicate AwaitsPublicationVerification(r: Record) {
    || IsPendingAddressActivation(r)
    || (&& r.stepState == Confirmed
        && (r.step == ResumeUpgradedServer || r.step == EnableServerAddress || r.step == RecordRelease
           || r.step == VerifyDeployment))
    || (&& r.completionOnly && IsSettledStep(r)
        && (r.step == AcquireDeployment || r.step == RecordRelease || r.step == VerifyDeployment))
  }

  /** A started step that may be repeated or superseded while its request is in flight: the address
      activation of an update, or a deletion step that only removes resources. */
  predicate IsBenign(r: Record) {
    || IsPendingAddressActivation(r)
    || (r.kind == Delete && r.stepState == Started && IsRepeatableDeletionStep(r.step))
  }

  /** The row must stay held: the update still needs verification, or the deletion must finish. */
  predicate Flagged(r: Record) {
    r.verificationPending == True || r.deletionPending
  }

  // ---------- recovery of an interrupted update ----------

  datatype Build = Build(version: string, fingerprint: string)

  /** What recovery reads from the live Worker. */
  datatype LiveWorker = LiveWorker(storageMatches: bool, build: Option<Build>, tag: Option<Tag>)

  datatype Decision = Blocked | Unlock | Verify | Resume

  predicate BuildMatches(live: Option<LiveWorker>, r: Record) {
    live.Some? && live.value.build.Some?
    && r.fingerprint == Some(live.value.build.value.fingerprint)
    && r.version == live.value.build.value.version
  }

  /** The live server and the record belong to the selected deployment. */
  predicate RecoveryTargetMatches(r: Record, worker: string, live: Option<LiveWorker>) {
    && (live.Some? ==> live.value.storageMatches && live.value.build.Some?)
    && r.worker == worker && r.kind == Update
  }

  /** The unique tag of a started upload is on the live Worker. */
  predicate PromotesUpload(r: Record, worker: string, live: Option<LiveWorker>, fingerprint: Option<string>) {
    && RecoveryTargetMatches(r, worker, live)
    && r.protocol1 && r.verificationPending == True && r.step == UploadWorker && r.stepState == Started
    && r.uploadTag.Some? && live.Some? && live.value.tag == r.uploadTag
    && BuildMatches(live, r) && fingerprint == r.fingerprint
  }

  /** What the check decides, after a possible promotion. `registered` holds the migration ids of this release. */
  function RecoveryDecision(r: Record, worker: string, live: Option<LiveWorker>, fingerprint: Option<string>,
                            registered: set<string>): Decision
  {
    var pendingAddress := IsPendingAddressActivation(r);
    var knownStep := IsUpdateStep(r.step) || (r.step.Migrate? && r.step.id in registered);
    if !RecoveryTargetMatches(r, worker, live) then Blocked
    else if r.protocol1 && r.step == UploadWorker && r.stepState == Started then Blocked
    else if !r.protocol1 || !(IsSettledStep(r) || pendingAddress) || !knownStep then Blocked
    else if r.verificationPending == True then
      if BuildMatches(live, r) && AwaitsPublicationVerification(r) then Verify
      else if pendingAddress then Blocked
      else if fingerprint.Some? && IsRejectedWorkerUpload(r) then Resume
      else if fingerprint.None? || fingerprint != r.fingerprint then Blocked
      else Resume
    else Unlock
  }

  /** `inspectTerminalDeletionFence`: may the deletion `resetId` of `worker` replace this record?
      `helperTag` is the receipt on the deletion's own cleanup Worker, when that Worker exists. */
  predicate DeletionMayReplace(r: Record, worker: string, resetId: string, helperTag: Option<Tag>) {
    && r.worker == worker
    && (|| IsSettledStep(r)
        || (&& r.kind == Delete && r.resetId == Some(resetId) && r.stepState == Started
            && (|| IsRepeatableDeletionStep(r.step)
                || (r.step == UploadWorker && r.uploadTag.Some? && helperTag == r.uploadTag))))
  }

  // ---------- the holder's own view ----------

  /** The fields of a `DeploymentFence`. */
  datatype Fence = Fence(value: Text, uncertain: bool, verificationPending: bool, databaseRemoved: bool,
    deletionPending: bool)

  function Open(value: Text): Fence {
    Fence(value, false, value.record.verificationPending == True, false,
          value.record.kind == Delete && value.record.deletionPending)
  }

  /** The record that `recordStep` writes next. */
  function NextRecord(f: Fence, step: Step, state: StepState, batchHash: Option<string>, tag: Option<Tag>): Record {
    var r := f.value.record;
    r.(step := step, stepState := state, batchHash := batchHash,
       uploadTag := if tag.Some? then tag else r.uploadTag,
       verificationPending :=
         if f.verificationPending || r.verificationPending == True
         then (if f.verificationPending then True else False) else r.verificationPending)
  }

  /** `finish` removes the row only when nothing is owed. */
  predicate MayFinish(f: Fence) {
    !f.databaseRemoved && !f.verificationPending && !f.uncertain && !f.deletionPending
  }

  // ---------- compare-and-set on the single row ----------

  datatype Request = Insert(value: Text) | Replace(expected: Text, next: Text) | Remove(expected: Text)

  predicate Wins(row: Option<Text>, q: Request) {
    match q
    case Insert(_) => row == None
    case Replace(expected, _) => row == Some(expected)
    case Remove(expected) => row == Some(expected)
  }

  function Execute(row: Option<Text>, q: Request): Option<Text> {
    if !Wins(row, q) then row
    else match q
      case Insert(value) => Some(value)
      case Replace(_, next) => Some(next)
      case Remove(_) => None
  }

  // ---------- what a decision guarantees ----------

  /** Recovery leaves alone every record under which a request could still publish or change data.
      The exception is an address activation, which it takes over only to verify the published build. */
  lemma RecoveryOnlyTakesSettledOrBenign(r: Record, worker: string, live: Option<LiveWorker>,
                                         fingerprint: Option<string>, registered: set<string>)
    ensures RecoveryDecision(r, worker, live, fingerprint, registered) != Blocked ==> IsSettledStep(r) || IsBenign(r)
    ensures RecoveryDecision(r, worker, live, fingerprint, registered) in {Resume, Unlock} ==> IsSettledStep(r)
    ensures RecoveryDecision(r, worker, live, fingerprint, registered) == Unlock <==>
      (&& RecoveryTargetMatches(r, worker, live) && r.protocol1 && IsSettledStep(r) && r.verificationPending != True
       && (IsUpdateStep(r.step) || (r.step.Migrate? && r.step.id in registered)))
  {
  }
}
