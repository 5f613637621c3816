/** The recovery check of an interrupted update (update-recovery.ts, `recoverDeployment`). */
module UpdateRecovery {
  import opened Common
  import opened FenceRecords
  import opened DeploymentFence

  datatype Report = NothingHeld | Recovered | Held | ResumeWith(value: Text) | VerifyWith(value: Text)

  function Promoted(t: Text): Text {
    ByClient(t.record.(stepState := Confirmed))
  }

  /**
   * The row is read once; `legible` says that what it holds is one text that parses as a record with a
   * well-formed owner, and anything else stays as it is. `beforePromotion` and `beforeRemoval` are its contents
   * when the two conditional requests execute. Whatever others do meanwhile, the check changes the row only from
   * the exact text it has inspected: a started upload whose receipt is live becomes confirmed, and a settled
   * update that owes nothing is removed. Every other record stays, and is at most offered for takeover. Whatever
   * it reports as removed was a settled record of an update of this server that owed no verification.
   */
  method RecoverDeployment(row: FenceRow, legible: bool, worker: string, live: Option<LiveWorker>,
                           fingerprint: Option<string>,
                           registered: set<string>, beforePromotion: Option<Text>, promotion: Delivery,
                           beforeRemoval: Option<Text>, removal: Delivery)
    returns (report: Report)
    modifies row
    ensures live.Some? && !(live.value.storageMatches && live.value.build.Some?) ==>
      report == Held && row.value == old(row.value)
    ensures old(row.value).None? ==> row.value == None && report in {NothingHeld, Held}
    ensures old(row.value).Some? && !legible ==> report == Held && row.value == old(row.value)
    ensures report == Recovered ==>
      && beforeRemoval.Some? && row.value == None
      && var gone := beforeRemoval.value.record;
         IsSettledStep(gone) && gone.kind == Update && gone.worker == worker && gone.verificationPending != True
           && gone.protocol1
    ensures old(row.value).Some? && legible ==>
      var read := old(row.value).value;
      var promotes := PromotesUpload(read.record, worker, live, fingerprint);
      var promoted := promotion == Answered && beforePromotion == Some(read);
      var value := if promotes then Promoted(read) else read;
      var decision := RecoveryDecision(value.record, worker, live, fingerprint, registered);
      if promotes && !promoted
        then report == Held && row.value == RowAfter(beforePromotion, Replace(read, value), promotion)
      else match decision
        case Resume => report == ResumeWith(value) && (promotes ==> row.value == Some(value))
          && (!promotes ==> row.value == old(row.value))
        case Verify => report == VerifyWith(value) && (promotes ==> row.value == Some(value))
          && (!promotes ==> row.value == old(row.value))
        case Blocked => report == Held && (promotes ==> row.value == Some(value))
          && (!promotes ==> row.value == old(row.value))
        case Unlock =>
          && row.value == RowAfter(beforeRemoval, Remove(value), removal)
          && report == (if removal == Answered && beforeRemoval == Some(value) then Recovered else Held)
  {
    if live.Some? && !live.value.storageMatches { return Held; }
    if live.Some? && live.value.build.None? { return Held; }
    if row.value.None? { return NothingHeld; }
    if !legible { return Held; }
    var value := row.value.value;
    if value.record.worker != worker || value.record.kind != Update { return Held; }
    if PromotesUpload(value.record, worker, live, fingerprint) {
      row.value := if promotion == NotExecuted then beforePromotion
        else Execute(beforePromotion, Replace(value, Promoted(value)));
      if promotion != Answered || beforePromotion != Some(value) { return Held; }
      value := Promoted(value);
    }
    match RecoveryDecision(value.record, worker, live, fingerprint, registered)
    case Blocked => return Held;
    case Verify => return VerifyWith(value);
    case Resume => return ResumeWith(value);
    case Unlock =>
      row.value := if removal == NotExecuted then beforeRemoval else Execute(beforeRemoval, Remove(value));
      report := if removal == Answered && beforeRemoval == Some(value) then Recovered else Held;
  }

  /** After a promotion the update can only be resumed, with the build that the receipt belongs to. */
  lemma PromotedUploadResumes(t: Text, worker: string, live: Option<LiveWorker>, fingerprint: Option<string>,
    registered: set<string>)
    requires PromotesUpload(t.record, worker, live, fingerprint)
    ensures RecoveryDecision(Promoted(t).record, worker, live, fingerprint, registered) == Resume
  {
  }

  /** What the provisioner asks of a record before it resumes the update with its own build (provisioner.ts). */
  predicate ProvisionerAccepts(r: Record, worker: string, fingerprint: string) {
    && r.kind == Update && r.worker == worker && r.protocol1 && IsSettledStep(r)
    && (r.fingerprint == Some(fingerprint) || IsRejectedWorkerUpload(r))
  }

  /** Three numbers with points between them. */
  predicate IsVersion(s: string) {
    exists i, j :: 0 < i && i + 1 < j < |s| - 1 && s[i] == '.' && s[j] == '.'
                   && forall k :: 0 <= k < |s| && k != i && k != j ==> '0' <= s[k] <= '9'
  }

  /** What the live Worker's message was parsed to, if anything. */
  predicate IsParsedBuild(live: Option<LiveWorker>) {
    live.Some? && live.value.build.Some? ==>
      IsVersion(live.value.build.value.version) && IsSha256Hex(live.value.build.value.fingerprint)
  }

  /** What `completePublishedDeployment` asks before it verifies a published update. */
  predicate CompletionAccepts(r: Record, worker: string) {
    && r.kind == Update && r.worker == worker && r.protocol1 && r.verificationPending == True
    && r.fingerprint.Some? && IsSha256Hex(r.fingerprint.value) && IsVersion(r.version)
       && AwaitsPublicationVerification(r)
  }

  /** The offers of recovery and the checks of those who take them up agree: an update that owes verification
      is offered for verification exactly if its build is live and the completion accepts it, and otherwise
      for resuming exactly if the provisioner accepts it, its step being known to this release. */
  lemma OffersAreAccepted(r: Record, worker: string, live: Option<LiveWorker>, fingerprint: string,
    registered: set<string>)
    requires RecoveryTargetMatches(r, worker, live) && r.verificationPending == True && IsParsedBuild(live)
    requires IsUpdateStep(r.step) || (r.step.Migrate? && r.step.id in registered)
    ensures RecoveryDecision(r, worker, live, Some(fingerprint), registered) == Verify <==>
            BuildMatches(live, r) && CompletionAccepts(r, worker)
    ensures RecoveryDecision(r, worker, live, Some(fingerprint), registered) == Resume <==>
            ProvisionerAccepts(r, worker, fingerprint) && !(BuildMatches(live, r) && CompletionAccepts(r, worker))
    ensures RecoveryDecision(r, worker, live, Some(fingerprint), registered) != Unlock
  {
  }
}
