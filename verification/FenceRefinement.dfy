/**
 The code of the fence and of the recovery check takes the steps of the state machine: a fenced mutation is
 `Use`, `Send` and `ProviderReply` with the requests and answers in between, the completion of a verification is
 `Use` and `RecordReply`, the release is `End`, and the check is `PromoteUpload` or `UnlockSettled`.
 */
module FenceRefinement {
  import opened Common
  import opened FenceRecords
  import opened FenceCalls
  import opened FenceProtocol
  import opened DeploymentFence
  import opened UpdateRecovery

  /** A world in which others have left the row as given. */
  function Left(w: World, row: Option<Text>): World { w.(row := row) }

  /** The client waits for its next fenced mutation, whose fields are those of the fence object. */
  predicate About(w: World, o: nat, f: Fence, call: Call) {
    && o in w.clients && w.clients[o].phase == Idle && w.clients[o].fence == f
    && w.clients[o].calls != [] && w.clients[o].calls[0] == call && Dispatches(call).Some?
    && w.database && !f.databaseRemoved
  }

  /** The receipt that goes with a call: a fresh one for an upload, none otherwise. */
  function Receipt(w: World, o: nat, call: Call): Option<Tag> {
    if call.Upload? then Some(Tag(o, w.next)) else None
  }

  function BatchHash(call: Call): Option<string> {
    if call.Mutate? then call.batchHash else None
  }

  function StartedText(w: World, o: nat, f: Fence, call: Call): Text
    requires Dispatches(call).Some?
  {
    ByClient(NextRecord(f, Dispatches(call).value, Started, BatchHash(call), Receipt(w, o, call)))
  }

  // ---------- the started record ----------

  /** The client reads the row, sends its started record, and that executes on what others left. */
  function Asked(w: World, o: nat, f: Fence, call: Call, before: Option<Text>): World
    requires About(w, o, f, call) && w.row == Some(f.value)
  {
    CommitStep(Left(UseStep(w, o), before), w.next)
  }

  /** A client whose row was replaced stops before it records anything. */
  lemma ReadsFirst(w: World, o: nat, f: Fence, call: Call)
    requires About(w, o, f, call) && w.row != Some(f.value)
    ensures UseStep(w, o).clients[o].phase == Stopped && UseStep(w, o).exchanges == w.exchanges
  {
  }

  lemma AsksForStart(w: World, o: nat, f: Fence, call: Call, before: Option<Text>)
    requires About(w, o, f, call) && w.row == Some(f.value)
    ensures var asked := Asked(w, o, f, call, before);
      var started := StartedText(w, o, f, call);
      && asked.row == Execute(before, Replace(f.value, started))
      && o in asked.clients && asked.clients[o].phase == Recording(w.next, started, true, false)
         && asked.clients[o].fence == f
      && Enabled(asked, RecordReply(o)) && asked.exchanges[w.next].won == Some(before == Some(f.value))
      && asked.next == w.next + 1
  {
    hide NextRecord;
  }

  /** The client learns whether its started record won. */
  function Recorded(w: World, o: nat, f: Fence, call: Call, before: Option<Text>): (recorded: World)
    requires About(w, o, f, call) && w.row == Some(f.value)
    ensures o in recorded.clients && recorded.row == Execute(before, Replace(f.value, StartedText(w, o, f, call)))
    ensures before == Some(f.value) ==>
      recorded.clients[o].phase == Ready
      && recorded.clients[o].fence == f.(value := StartedText(w, o, f, call), uncertain := true)
    ensures before != Some(f.value) ==>
      recorded.clients[o].phase == Stopped && recorded.clients[o].fence == f.(uncertain := true)
  {
    AsksForStart(w, o, f, call, before);
    RecordReplyStep(Asked(w, o, f, call, before), o)
  }

  // ---------- the dispatch and its answer ----------

  /** The request is sent, takes effect or is refused, and others leave the row as given. */
  function Landed(w: World, o: nat, took: bool, during: Option<Text>): World
    requires o in w.clients && w.clients[o].phase == Ready
  {
    var sent := SendStep(w, o);
    Left(if took then TakeEffectStep(sent, w.next) else RefuseStep(sent, w.next), during)
  }

  /** The client learns how the provider answered. */
  function Told(w: World, o: nat, took: bool, during: Option<Text>): World
    requires o in w.clients && w.clients[o].phase == Ready
  {
    ProviderReplyStep(Landed(w, o, took, during), o, false)
  }

  function SettledText(f: Fence, took: bool): Text {
    ByClient(NextRecord(f, f.value.record.step, if took then Confirmed else Rejected, None, None))
  }

  predicate RemovesDatabase(f: Fence, took: bool) { took && f.value.record.step == DeleteD1Database }

  /** Once the database is gone nothing more is recorded; otherwise the final record is sent. */
  lemma LearnsOfAnswer(w: World, o: nat, took: bool, during: Option<Text>)
    requires o in w.clients && w.clients[o].phase == Ready
    ensures var told := Told(w, o, took, during);
      var f := w.clients[o].fence;
      && o in told.clients && told.row == during
      && (RemovesDatabase(f, took) ==>
            told.clients[o].phase == Idle && told.clients[o].fence == f.(databaseRemoved := true, uncertain := false))
      && (!RemovesDatabase(f, took) ==>
            && told.clients[o].phase == Recording(w.next + 1, SettledText(f, took), false, false)
               && told.clients[o].fence == f
            && w.next + 1 in told.exchanges
            && told.exchanges[w.next + 1] == Exchange(Replace(f.value, SettledText(f, took)), Some(o), false, None))
  {
    hide NextRecord;
  }

  /** The final record executes, and the client learns of it. */
  function Closed(w: World, o: nat, took: bool, during: Option<Text>): (closed: World)
    requires o in w.clients && w.clients[o].phase == Ready && !RemovesDatabase(w.clients[o].fence, took)
    ensures var f := w.clients[o].fence;
      && closed.row == Execute(during, Replace(f.value, SettledText(f, took))) && o in closed.clients
      && (during == Some(f.value) ==>
            closed.clients[o].phase == Idle
            && closed.clients[o].fence == f.(value := SettledText(f, took), uncertain := false))
      && (during != Some(f.value) ==>
            closed.clients[o].phase == Stopped && closed.clients[o].fence == f.(uncertain := true))
  {
    LearnsOfAnswer(w, o, took, during);
    Finished(Told(w, o, took, during), o, w.next + 1)
  }

  /** A final record executes and the client learns of it. */
  function Finished(w: World, o: nat, id: nat): (finished: World)
    requires o in w.clients && w.clients[o].phase.Recording? && w.clients[o].phase.id == id
    requires !w.clients[o].phase.dispatches && !w.clients[o].phase.completes && id in w.exchanges
    ensures finished.row == Execute(w.row, w.exchanges[id].request) && o in finished.clients
    ensures var p := w.clients[o];
      if Wins(w.row, w.exchanges[id].request)
      then finished.clients[o].phase == Idle && finished.clients[o].fence ==
        p.fence.(value := p.phase.next, uncertain := false)
      else finished.clients[o].phase == Stopped && finished.clients[o].fence == p.fence.(uncertain := true)
  {
    RecordReplyStep(CommitStep(w, id), o)
  }

  // ---------- the code takes these steps ----------

  /** What the code leaves behind when it has asked for its started record: where the answer came, the client's
      fields; where it was lost, its error. */
  ghost predicate StartFollows(recorded: World, o: nat, before: Option<Text>, first: Delivery, sent: bool, view: Fence,
                               row: Option<Text>)
    requires o in recorded.clients
  {
    && (sent <==> first == Answered && recorded.clients[o].phase == Ready)
    && (!sent ==> row == if first == NotExecuted then before else recorded.row)
    && (!sent && first == Answered ==> recorded.clients[o].phase == Stopped && view == recorded.clients[o].fence)
  }

  /** What the code leaves behind when the provider has answered. */
  ghost predicate AnswerFollows(recorded: World, o: nat, answer: ProviderAnswer, during: Option<Text>, second: Delivery,
                                result: Result<(), FenceError>, view: Fence, row: Option<Text>)
    requires o in recorded.clients && recorded.clients[o].phase == Ready && answer != Unknown
  {
    var took := answer == Succeeded;
    if RemovesDatabase(recorded.clients[o].fence, took) then
      LearnsOfAnswer(recorded, o, took, during);
      var told := Told(recorded, o, took, during);
      result.Ok? && view == told.clients[o].fence && row == told.row
    else
      var closed := Closed(recorded, o, took, during);
      && row == (if second == NotExecuted then during else closed.row)
      && (second == Answered ==>
            && view == closed.clients[o].fence
            && (closed.clients[o].phase == Idle <==> result == if took then Ok(()) else Err(ProviderRejected)))
  }

  lemma AnswerIsFollowed(recorded: World, o: nat, answer: ProviderAnswer, during: Option<Text>, second: Delivery,
                         result: Result<(), FenceError>, view: Fence, row: Option<Text>)
    requires o in recorded.clients && recorded.clients[o].phase == Ready && answer != Unknown
    requires RemovesDatabase(recorded.clients[o].fence, answer == Succeeded) ==>
      result.Ok? && view == recorded.clients[o].fence.(databaseRemoved := true, uncertain := false) && row == during
    requires !RemovesDatabase(recorded.clients[o].fence, answer == Succeeded) ==>
      var f := recorded.clients[o].fence;
      var next := SettledText(f, answer == Succeeded);
      && row == RowAfter(during, Replace(f.value, next), second)
      && (second == Answered && during == Some(f.value) ==>
            view == f.(value := next, uncertain := false)
            && result == if answer == Succeeded then Ok(()) else Err(ProviderRejected))
      && (second == Answered && during != Some(f.value) ==>
            view == f.(uncertain := true) && result == Err(NotCheckpointed))
    ensures AnswerFollows(recorded, o, answer, during, second, result, view, row)
  {
    LearnsOfAnswer(recorded, o, answer == Succeeded, during);
    hide Told, NextRecord;
  }

  /** The final record does not depend on whether the outcome is uncertain. */
  lemma SettledIsNext(f: Fence, took: bool)
    ensures SettledText(f.(uncertain := true), took) ==
            ByClient(NextRecord(f, f.value.record.step, if took then Confirmed else Rejected, None, None))
  {
  }

  lemma StartedStep(w: World, o: nat, f: Fence, call: Call)
    requires Dispatches(call).Some?
    ensures StartedText(w, o, f, call).record.step == Dispatches(call).value
  {
  }

  /**
   * One fenced mutation, run beside the state machine. Wherever the code learns an answer, its fields and the
   * row are those of the machine's client; where an answer is lost the code stops with its error, and the row
   * is what the machine's request made of it or, unexecuted, what others left.
   */
  method MutateFollowsProtocol(
      fence: DeploymentFence, row: FenceRow, ghost w: World, ghost o: nat, ghost call: Call, step: Step,
      batchHash: Option<string>, tag: Option<Tag>, before: Option<Text>, first: Delivery, answer: ProviderAnswer,
      during: Option<Text>, second: Delivery)
    returns (result: Result<(), FenceError>, sent: bool)
    requires About(w, o, fence.View(), call) && row.value == w.row
    requires Dispatches(call) == Some(step) && batchHash == BatchHash(call) && tag == Receipt(w, o, call)
    modifies row, fence
    ensures w.row != Some(old(fence.value)) ==>
      !sent && UseStep(w, o).clients[o].phase == Stopped && row.value == w.row && fence.View() == old(fence.View())
    ensures w.row == Some(old(fence.value)) ==>
      var recorded := Recorded(w, o, old(fence.View()), call, before);
      && StartFollows(recorded, o, before, first, sent, fence.View(), row.value)
      && (sent && answer == Unknown ==> row.value == during && fence.View() == recorded.clients[o].fence && result.Err?)
      && (sent && answer != Unknown ==>
           AnswerFollows(recorded, o, answer, during, second, result, fence.View(), row.value))
  {
    hide UseStep, Recorded, Told, Closed, AnswerFollows, Execute, NextRecord, SettledText;
    ghost var f := fence.View();
    if row.value != Some(fence.value) { ReadsFirst(w, o, f, call); }
    ghost var started := StartedText(w, o, f, call);
    SettledIsNext(f.(value := started), answer == Succeeded);
    StartedStep(w, o, f, call);
    result, sent := fence.Mutate(row, step, batchHash, tag, before, first, answer, step == DeleteD1Database, during,
      second);
    if sent && answer != Unknown {
      AnswerIsFollowed(Recorded(w, o, f, call, before), o, answer, during, second, result, fence.View(), row.value);
    }
  }

  // ---------- completing a verification, and the release ----------

  predicate AboutToComplete(w: World, o: nat, f: Fence) {
    && o in w.clients && w.clients[o].phase == Idle && w.clients[o].fence == f && !f.databaseRemoved
    && w.clients[o].calls != [] && w.clients[o].calls[0].CompleteVerification?
  }

  /** The client's last record executes on the row as it is, and the client learns of it. */
  function Completed(w: World, o: nat, f: Fence): (completed: World)
    requires AboutToComplete(w, o, f)
    ensures var next := ByClient(NextRecord(f.(verificationPending := false), VerifyDeployment, Confirmed, None, None));
      && completed.row == Execute(w.row, Replace(f.value, next)) && o in completed.clients
      && (w.row == Some(f.value) ==>
            completed.clients[o].phase == Idle
            && completed.clients[o].fence == f.(value := next, uncertain := false, verificationPending := false))
      && (w.row != Some(f.value) ==>
            completed.clients[o].phase == Stopped && completed.clients[o].fence == f.(uncertain := true))
  {
    RecordReplyStep(CommitStep(UseStep(w, o), w.next), o)
  }

  /** Where the answer arrives, the fields and the row are those of the machine's client; a lost answer leaves the
      row as the request made it, and the verification owed. */
  method CompleteFollowsProtocol(fence: DeploymentFence, row: FenceRow, ghost w: World, ghost o: nat, net: Delivery)
    returns (ok: bool)
    requires AboutToComplete(w, o, fence.View()) && row.value == w.row
    requires !fence.uncertain && fence.verificationPending
    modifies row, fence
    ensures var completed := Completed(w, o, old(fence.View()));
      && row.value == (if net == NotExecuted then w.row else completed.row)
      && (ok <==> net == Answered && completed.clients[o].phase == Idle)
      && (net == Answered ==> fence.View() == completed.clients[o].fence)
      && (!ok ==> fence.verificationPending && fence.uncertain)
  {
    hide NextRecord, UseStep, CommitStep;
    ok := fence.CompleteVerification(row, net);
  }

  /** The release is the client's `End`: its request executes on the row as it is. */
  method FinishFollowsProtocol(fence: DeploymentFence, row: FenceRow, ghost w: World, ghost o: nat, net: Delivery)
    returns (result: Result<(), FenceError>)
    requires o in w.clients && w.clients[o].phase == Idle && w.clients[o].fence == fence.View() && row.value == w.row
    modifies row
    ensures var ended := EndStep(w, o);
      if MayFinish(old(fence.View()))
      then row.value == if net == NotExecuted then w.row else CommitStep(ended, w.next).row
      else row.value == w.row && ended.clients[o].phase == Stopped && ended.exchanges == w.exchanges
  {
    result := fence.Finish(row, net);
  }

  // ---------- the recovery check ----------

  /** The promotion, sent from the inspected text, executes on what others left; likewise the removal. */
  function Promotion(w: World, read: Text, worker: string, live: Option<LiveWorker>, fingerprint: Option<string>,
                     before: Option<Text>): (promoted: World)
    requires Enabled(w, PromoteUpload(read, worker, live, fingerprint))
    ensures promoted.row == Execute(before, Replace(read, Promoted(read)))
  {
    CommitStep(Left(Apply(w, PromoteUpload(read, worker, live, fingerprint)), before), w.next)
  }

  function Removal(w: World, read: Text, worker: string, live: Option<LiveWorker>, fingerprint: Option<string>,
                   registered: set<string>, before: Option<Text>): (removed: World)
    requires Enabled(w, UnlockSettled(read, worker, live, fingerprint, registered))
    ensures removed.row == Execute(before, Remove(read))
  {
    CommitStep(Left(Apply(w, UnlockSettled(read, worker, live, fingerprint, registered)), before), w.next)
  }

  lemma RecoveryIsEnabled(w: World, read: Text, worker: string, live: Option<LiveWorker>, fingerprint: Option<string>,
                          registered: set<string>)
    requires read in w.seen && (live.Some? && live.value.tag.Some? ==> live.value.tag.value in w.published)
    ensures PromotesUpload(read.record, worker, live, fingerprint) ==>
      && Enabled(w, PromoteUpload(read, worker, live, fingerprint))
      && RecoveryDecision(Promoted(read).record, worker, live, fingerprint, registered) == Resume
    ensures RecoveryDecision(read.record, worker, live, fingerprint, registered) == Unlock ==>
      Enabled(w, UnlockSettled(read, worker, live, fingerprint, registered))
  {
    if PromotesUpload(read.record, worker, live, fingerprint) {
      PromotedUploadResumes(read, worker, live, fingerprint, registered);
    }
  }

  /**
   * The check changes the row only by the machine's requests: it promotes an upload where `PromoteUpload` is
   * enabled, removes a record where `UnlockSettled` is, and does neither in every other case. What it reads has
   * been in the row, and a tag that it sees on the live Worker is published.
   */
  method RecoveryFollowsProtocol(
      row: FenceRow, ghost w: World, legible: bool, worker: string, live: Option<LiveWorker>,
      fingerprint: Option<string>, registered: set<string>, beforePromotion: Option<Text>, promotion: Delivery,
      beforeRemoval: Option<Text>, removal: Delivery)
    returns (report: Report)
    requires row.value == w.row && (w.row.Some? ==> w.row.value in w.seen)
    requires live.Some? && live.value.tag.Some? ==> live.value.tag.value in w.published
    modifies row
    ensures w.row.None? || !legible ==> row.value == w.row
    ensures w.row.Some? && legible ==>
      var read := w.row.value;
      if PromotesUpload(read.record, worker, live, fingerprint) then
        && Enabled(w, PromoteUpload(read, worker, live, fingerprint))
        && var promoted := Promotion(w, read, worker, live, fingerprint, beforePromotion);
           row.value == if promotion == NotExecuted then beforePromotion else promoted.row
      else if RecoveryDecision(read.record, worker, live, fingerprint, registered) == Unlock then
        && Enabled(w, UnlockSettled(read, worker, live, fingerprint, registered))
        && var removed := Removal(w, read, worker, live, fingerprint, registered, beforeRemoval);
           row.value == if removal == NotExecuted then beforeRemoval else removed.row
      else row.value == w.row
  {
    if row.value.Some? { RecoveryIsEnabled(w, row.value.value, worker, live, fingerprint, registered); }
    hide Enabled, Apply, Promotion, Removal, RecoveryDecision, PromotesUpload, CommitStep, Left;
    report := RecoverDeployment(row, legible, worker, live, fingerprint, registered, beforePromotion, promotion,
                                beforeRemoval, removal);
  }
}
