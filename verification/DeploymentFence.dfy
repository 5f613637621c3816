/**
 The fence object itself (fence.ts, class `DeploymentFence`), with the row it shares with other clients.
 The environment is explicit: what others leave in the row between two of its requests, whether a
 database answer arrives, and how the provider answers.
 */
module DeploymentFence {
  import opened Common
  import opened FenceRecords

  /** The single row of `maintenance_state` that holds the fence. */
  class FenceRow {
    var value: Option<Text>

    constructor (value: Option<Text>)
      ensures this.value == value
    {
      this.value := value;
    }
  }

  /** A database request is executed and answered, executed without an answer, or not executed. */
  datatype Delivery = Answered | AnswerLost | NotExecuted

  /** `Refused` is a 4xx answer other than 408; `Unknown` a timeout, a transport failure or a 5xx. */
  datatype ProviderAnswer = Succeeded | Refused | Unknown

  datatype FenceError =
    | OwnershipChanged | NotCheckpointed | ProviderRejected | Uncertain
    | VerificationOwed | DeletionOwed | ReleaseUnconfirmed

  function RowAfter(row: Option<Text>, q: Request, net: Delivery): Option<Text> {
    if net == NotExecuted then row else Execute(row, q)
  }

  class DeploymentFence {
    var value: Text
    var uncertain: bool
    var verificationPending: bool
    var databaseRemoved: bool
    const deletionPending: bool

    function View(): Fence
      reads this
    {
      Fence(value, uncertain, verificationPending, databaseRemoved, deletionPending)
    }

    constructor (value: Text)
      ensures View() == Open(value)
    {
      this.value := value;
      uncertain := false;
      verificationPending := value.record.verificationPending == True;
      databaseRemoved := false;
      deletionPending := value.record.kind == Delete && value.record.deletionPending;
    }

    /** Compare-and-set from the last record this owner knows to the next one. A refused or unanswered
        request leaves the owner uncertain and its known record unchanged. */
    method RecordStep(row: FenceRow, step: Step, state: StepState, batchHash: Option<string>, tag: Option<Tag>,
      net: Delivery)
      returns (ok: bool)
      modifies row, `value, `uncertain
      ensures old(databaseRemoved) ==> ok && View() == old(View()) && row.value == old(row.value)
      ensures !old(databaseRemoved) ==>
        var next := ByClient(NextRecord(old(View()), step, state, batchHash, tag));
        && row.value == RowAfter(old(row.value), Replace(old(value), next), net)
        && ok == (net == Answered && old(row.value) == Some(old(value)))
        && View() == old(View()).(value := if ok then next else old(value), uncertain := old(uncertain) || !ok)
    {
      if databaseRemoved { return true; }
      var next := ByClient(NextRecord(View(), step, state, batchHash, tag));
      var won := row.value == Some(value);
      if net != NotExecuted && won { row.value := Some(next); }
      ok := net == Answered && won;
      if ok { value := next; } else { uncertain := true; }
    }

    /** One fenced mutation. `before` is what the row holds when the started record is written and `during`
        what it holds when the provider has answered; `sent` says that the operation ran, and
        `removesDatabase` that it removes the database, which takes the row with it. The operation runs only
        right after this owner's exact record was replaced by its started one. On success the row went from
        that started record to the confirmed one without anyone in between. */
    method Mutate(row: FenceRow, step: Step, batchHash: Option<string>, tag: Option<Tag>,
                  before: Option<Text>, first: Delivery, answer: ProviderAnswer, removesDatabase: bool,
                    during: Option<Text>, second: Delivery)
      returns (result: Result<(), FenceError>, sent: bool)
      modifies row, this
      ensures old(databaseRemoved) ==>
        result == Err(OwnershipChanged) && !sent && View() == old(View()) && row.value == old(row.value)
      ensures !old(databaseRemoved) ==>
        var started := ByClient(NextRecord(old(View()), step, Started, batchHash, tag));
        && sent == (old(row.value) == Some(old(value)) && before == Some(old(value)) && first == Answered)
        && (!sent ==> result.Err? && value == old(value))
        && (!sent && old(row.value) != Some(old(value)) ==> row.value == old(row.value) && View() == old(View()))
        && (!sent && old(row.value) == Some(old(value)) ==>
              uncertain && row.value == RowAfter(before, Replace(old(value), started), first))
        && (sent && answer == Unknown ==>
              result == Err(Uncertain) && uncertain && value == started && row.value == during)
        && (sent && answer == Succeeded && removesDatabase ==>
              result == Ok(()) && !uncertain && value == started && row.value == during)
        && (sent && answer != Unknown && !(answer == Succeeded && removesDatabase) ==>
              var state := if answer == Succeeded then Confirmed else Rejected;
              var settled := ByClient(NextRecord(old(View()).(value := started), step, state, None, None));
              && row.value == RowAfter(during, Replace(started, settled), second)
              && (if during == Some(started) && second == Answered
                  then value == settled && !uncertain && result ==
                    (if answer == Succeeded then Ok(()) else Err(ProviderRejected))
                  else value == started && uncertain && result == Err(NotCheckpointed)))
      ensures verificationPending == old(verificationPending)
      ensures databaseRemoved == (old(databaseRemoved) || (sent && answer == Succeeded && removesDatabase))
    {
      sent := false;
      if databaseRemoved || row.value != Some(value) { return Err(OwnershipChanged), false; }
      row.value := before;
      var recorded := RecordStep(row, step, Started, batchHash, tag, first);
      if !recorded { return Err(NotCheckpointed), false; }
      uncertain := true;
      sent := true;
      row.value := during;
      if answer == Unknown { return Err(Uncertain), true; }
      if answer == Succeeded && removesDatabase { RemovedDatabase(); }
      recorded := RecordStep(row, step, if answer == Succeeded then Confirmed else Rejected, None, None, second);
      if !recorded { return Err(NotCheckpointed), true; }
      uncertain := false;
      result := if answer == Succeeded then Ok(()) else Err(ProviderRejected);
    }

    method RequireVerification()
      modifies `verificationPending
      ensures View() == old(View()).(verificationPending := true)
    {
      verificationPending := true;
    }

    method RemovedDatabase()
      modifies `databaseRemoved
      ensures View() == old(View()).(databaseRemoved := true)
    {
      databaseRemoved := true;
    }

    /** Writes a record without the flag; if that cannot be confirmed, verification is owed again. */
    method CompleteVerification(row: FenceRow, net: Delivery) returns (ok: bool)
      modifies row, this
      ensures old(databaseRemoved) ==>
        ok && row.value == old(row.value) && View() == old(View()).(verificationPending := false)
      ensures !old(databaseRemoved) ==>
        var next := ByClient(NextRecord(old(View()).(verificationPending := false), VerifyDeployment, Confirmed, None,
          None));
        && next.record.verificationPending != True
        && row.value == RowAfter(old(row.value), Replace(old(value), next), net)
        && ok == (net == Answered && old(row.value) == Some(old(value)))
        && View() == (if ok then old(View()).(value := next, verificationPending := false)
                      else old(View()).(verificationPending := true, uncertain := true))
    {
      verificationPending := false;
      ok := RecordStep(row, VerifyDeployment, Confirmed, None, None, net);
      if !ok { verificationPending := true; }
    }

    /** Releases the row only when nothing is owed, and never another owner's. */
    method Finish(row: FenceRow, net: Delivery) returns (result: Result<(), FenceError>)
      modifies row
      ensures row.value == (if MayFinish(View()) then RowAfter(old(row.value), Remove(value), net) else old(row.value))
      ensures old(row.value).Some? && row.value.None? ==>
        old(row.value) == Some(value) && !verificationPending && !uncertain && !deletionPending
      ensures result.Ok? <==> databaseRemoved || (MayFinish(View()) && net == Answered)
    {
      if databaseRemoved { return Ok(()); }
      if verificationPending { return Err(VerificationOwed); }
      if uncertain { return Err(Uncertain); }
      if deletionPending { return Err(DeletionOwed); }
      if net != NotExecuted { row.value := Execute(row.value, Remove(value)); }
      result := if net == Answered then Ok(()) else Err(ReleaseUnconfirmed);
    }
  }
}
