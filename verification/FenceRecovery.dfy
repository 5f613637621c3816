/**
 Nothing gets stuck: whatever clients, recovery checks and operators do, a settled record in the row is always one
 that recovery releases or hands on, and a deletion's record always one that the same deletion takes over
 (fence.ts, the steps an operation may record; update-recovery.ts; delete-fence.ts).
 */
module FenceRecovery {
  import opened Common
  import opened FenceRecords
  import opened FenceCalls
  import opened FenceSteps
  import opened FenceProtocol

  /** A step that operations of this kind record. */
  predicate StepKnown(kind: Kind, step: Step) {
    match kind
    case Update => IsUpdateStep(step) || step.Migrate?
    case Delete => step == AcquireDeployment || step == UploadWorker || IsRepeatableDeletionStep(step)
  }

  predicate RecordKnown(r: Record) {
    && r.protocol1 && StepKnown(r.kind, r.step)
    && (r.kind == Update ==> r.fingerprint.Some?)
    && (r.kind == Delete ==> r.resetId.Some?)
    && (r.stepState == Started ==> r.step != AcquireDeployment && (r.step == UploadWorker ==> r.uploadTag.Some?))
  }

  /** A call of an operation of this kind; a Worker is uploaded with a receipt. */
  predicate CallKnown(kind: Kind, call: Call) {
    var step := RecordedStep(call);
    step.Some? ==>
      StepKnown(kind, step.value) && step != Some(AcquireDeployment) && !(call.Mutate? && call.step == UploadWorker)
  }

  predicate CallsKnown(kind: Kind, calls: seq<Call>) {
    forall i :: 0 <= i < |calls| ==> CallKnown(kind, calls[i])
  }

  predicate PartyKnown(p: Party) {
    && RecordKnown(p.fence.value.record) && CallsKnown(p.fence.value.record.kind, p.calls)
    && (p.phase.Recording? ==>
          RecordKnown(p.phase.next.record) && p.phase.next.record.kind == p.fence.value.record.kind)
  }

  predicate RequestKnown(q: Request) {
    match q
    case Insert(value) => RecordKnown(value.record)
    case Replace(_, next) => RecordKnown(next.record)
    case Remove(_) => true
  }

  ghost predicate AllKnown(w: World) {
    && (w.row.Some? ==> w.row.value in w.seen)
    && (forall t :: t in w.seen ==> RecordKnown(t.record))
    && (forall o :: o in w.clients ==> PartyKnown(w.clients[o]))
    && (forall id :: id in w.exchanges ==> RequestKnown(w.exchanges[id].request))
  }

  // ---------- the steps that operations record ----------

  /** A call of an update or a deletion records the step that it is for. */
  lemma CallRecordsItsStep(f: Fence, call: Call, owner: nat, serial: nat)
    requires !call.RequireVerification?
    ensures RecordedStep(call) == Some(FirstText(f, call, owner, serial).record.step)
  {
  }

  /** A record carries the batch of its own call alone, the latest receipt, and who it belongs to unchanged. */
  lemma RecordCarries(f: Fence, call: Call, owner: nat, serial: nat)
    requires !call.RequireVerification?
    ensures var was, r := f.value.record, FirstText(f, call, owner, serial).record;
      && r.batchHash == (if call.Mutate? then call.batchHash else None)
      && r.uploadTag == (if call.Upload? then Some(Tag(owner, serial)) else was.uploadTag)
      && r.owner == was.owner && r.worker == was.worker && r.kind == was.kind && r.version == was.version
      && r.fingerprint == was.fingerprint && r.protocol1 == was.protocol1 && r.resetId == was.resetId
      && r.completionOnly == was.completionOnly && r.deletionPending == was.deletionPending
  {
  }

  lemma UpdateCallsKnown(c: UpdateConditions)
    ensures CallsKnown(Update, UpdateCalls(c))
  {
    hide UpdateCalls, IsUpdateStep;
    var calls := UpdateCalls(c);
    forall i | 0 <= i < |calls| && RecordedStep(calls[i]).Some? ensures CallKnown(Update, calls[i]) {
      assert Records(calls, RecordedStep(calls[i]).value);
      UpdateRecords(c, RecordedStep(calls[i]).value);
      UpdateOccurrences(c, calls[i]);
      assert calls[i] in calls;
    }
  }

  lemma DeletionCallsKnown(c: DeletionConditions)
    ensures CallsKnown(Delete, DeletionCalls(c))
  {
    hide DeletionCalls, IsRepeatableDeletionStep;
    var calls := DeletionCalls(c);
    forall i | 0 <= i < |calls| && RecordedStep(calls[i]).Some? ensures CallKnown(Delete, calls[i]) {
      assert Records(calls, RecordedStep(calls[i]).value);
      DeletionRecords(c, RecordedStep(calls[i]).value);
      DeletionOccurs(c, calls[i]);
      assert calls[i] in calls;
    }
  }

  lemma ReleaseCallsKnown(guardsToRelease: bool)
    ensures CallsKnown(Update, ReleaseCalls(guardsToRelease))
  {
  }

  lemma AttemptKnown(a: Attempt)
    ensures RecordKnown(FirstRecord(a)) && CallsKnown(FirstRecord(a).kind, AttemptCalls(a.intent))
  {
    hide UpdateCalls, DeletionCalls, ReleaseCalls, CallsKnown;
    match a.intent
    case NewUpdate(c) => UpdateCallsKnown(c);
    case ResumeUpdate(_, _, c) => UpdateCallsKnown(c);
    case VerifyUpdate(_, _, guardsToRelease) => ReleaseCallsKnown(guardsToRelease);
    case NewDeletion(c) => DeletionCallsKnown(c);
    case TakeOverByDeletion(_, _, c) => DeletionCallsKnown(c);
  }

  // ---------- every event keeps it ----------

  lemma PartyKeepsKnown(w: World, o: nat, p: Party)
    requires AllKnown(w) && PartyKnown(p)
    ensures AllKnown(WithParty(w, o, p))
  {
    hide PartyKnown, RequestKnown, RecordKnown;
  }

  lemma RequestKeepsKnown(w: World, o: nat, p: Party, request: Request, completes: bool)
    requires AllKnown(w) && PartyKnown(p) && RequestKnown(request)
    ensures AllKnown(SendRequest(w, o, p, request, completes))
  {
    hide PartyKnown, RequestKnown, RecordKnown;
  }

  lemma AnonymousKeepsKnown(w: World, request: Request)
    requires AllKnown(w) && RequestKnown(request)
    ensures AllKnown(SendAnonymous(w, request))
  {
    hide PartyKnown, RequestKnown, RecordKnown;
  }

  lemma CommitKeepsKnown(w: World, id: nat)
    requires AllKnown(w) && id in w.exchanges
    ensures AllKnown(CommitStep(w, id))
  {
    hide PartyKnown, RecordKnown;
    assert RequestKnown(w.exchanges[id].request);
  }

  lemma RestKnown(kind: Kind, calls: seq<Call>)
    requires CallsKnown(kind, calls) && calls != []
    ensures CallKnown(kind, calls[0]) && CallsKnown(kind, calls[1..])
  {
    hide CallKnown;
    assert forall i :: 0 <= i < |calls[1..]| ==> calls[1..][i] == calls[i + 1];
  }

  /** What a call records is known. */
  lemma FirstTextKnown(f: Fence, call: Call, owner: nat, serial: nat)
    requires RecordKnown(f.value.record) && CallKnown(f.value.record.kind, call) && !call.RequireVerification?
    ensures var r := FirstText(f, call, owner, serial).record;
      RecordKnown(r) && r.kind == f.value.record.kind
  {
    hide StepKnown;
  }

  lemma UseRequestKnown(w: World, o: nat)
    requires Enabled(w, Use(o)) && PartyKnown(w.clients[o])
    ensures var w' := UseStep(w, o);
      PartyKnown(w'.clients[o]) && (w'.clients[o].phase.Recording? ==> RequestKnown(w'.exchanges[w.next].request))
  {
    hide RecordKnown, CallsKnown, FirstText, NextRecord, CallKnown;
    var p := w.clients[o];
    RestKnown(p.fence.value.record.kind, p.calls);
    if !p.calls[0].RequireVerification? { FirstTextKnown(p.fence, p.calls[0], o, w.next); }
  }

  /** Using the fence changes its client, and sends a request if that records something. */
  lemma UseShape(w: World, o: nat)
    requires Enabled(w, Use(o))
    ensures o in UseStep(w, o).clients
    ensures var w' := UseStep(w, o);
      if w'.clients[o].phase.Recording?
      then w.next in w'.exchanges
        && w' == SendRequest(w, o, w'.clients[o], w'.exchanges[w.next].request, w'.exchanges[w.next].completes)
      else w' == WithParty(w, o, w'.clients[o])
  {
    hide FirstText, NextRecord;
  }

  lemma UseKeepsKnown(w: World, o: nat)
    requires AllKnown(w) && Enabled(w, Use(o))
    ensures AllKnown(UseStep(w, o))
  {
    hide RecordKnown, CallsKnown, FirstText, NextRecord, CallKnown, RequestKnown, Wins, UseStep, WithParty, SendRequest,
      PartyKnown;
    assert PartyKnown(w.clients[o]);
    UseRequestKnown(w, o);
    UseShape(w, o);
    var w' := UseStep(w, o);
    if w'.clients[o].phase.Recording? {
      RequestKeepsKnown(w, o, w'.clients[o], w'.exchanges[w.next].request, w'.exchanges[w.next].completes);
    } else {
      PartyKeepsKnown(w, o, w'.clients[o]);
    }
  }

  lemma ReplyKeepsKnown(w: World, o: nat)
    requires AllKnown(w) && Enabled(w, RecordReply(o))
    ensures AllKnown(RecordReplyStep(w, o))
  {
    assert PartyKnown(w.clients[o]);
    hide AllKnown, RecordKnown, CallsKnown, StepKnown;
    PartyKeepsKnown(w, o, RecordReplyStep(w, o).clients[o]);
  }

  /** The answer to a request is recorded under the step of its request. */
  lemma AnswerKnown(f: Fence, state: StepState)
    requires RecordKnown(f.value.record) && state != Started
    ensures RecordKnown(NextRecord(f, f.value.record.step, state, None, None))
  {
    hide IsUpdateStep, IsRepeatableDeletionStep;
  }

  lemma AnswerRequestKnown(w: World, o: nat, alreadyGone: bool)
    requires Enabled(w, ProviderReply(o, alreadyGone)) && PartyKnown(w.clients[o])
    ensures var w' := ProviderReplyStep(w, o, alreadyGone);
      PartyKnown(w'.clients[o]) && (w'.clients[o].phase.Recording? ==> RequestKnown(w'.exchanges[w.next].request))
  {
    hide RecordKnown, CallsKnown, RemovesResource;
    var f := w.clients[o].fence;
    AnswerKnown(f, Confirmed);
    AnswerKnown(f, Rejected);
  }

  lemma ProviderReplyKeepsKnown(w: World, o: nat, alreadyGone: bool)
    requires AllKnown(w) && Enabled(w, ProviderReply(o, alreadyGone))
    ensures AllKnown(ProviderReplyStep(w, o, alreadyGone))
  {
    hide CallsKnown, RecordKnown, StepKnown, RequestKnown, NextRecord;
    assert PartyKnown(w.clients[o]);
    AnswerRequestKnown(w, o, alreadyGone);
    hide AllKnown;
    var w' := ProviderReplyStep(w, o, alreadyGone);
    if w'.clients[o].phase.Recording? {
      RequestKeepsKnown(w, o, w'.clients[o], w'.exchanges[w.next].request, false);
    } else {
      PartyKeepsKnown(w, o, w'.clients[o]);
    }
  }

  lemma AcquireKeepsKnown(w: World, a: Attempt)
    requires AllKnown(w)
    ensures AllKnown(AcquireStep(w, a))
  {
    AttemptKnown(a);
    hide AllKnown, RecordKnown, CallsKnown, FirstRecord, AttemptCalls;
    var value := ByClient(FirstRecord(a));
    var w' := AcquireStep(w, a);
    RequestKeepsKnown(w, a.owner, w'.clients[a.owner], w'.exchanges[w.next].request, false);
  }

  /** A client moves on with the same fence. */
  lemma MoveKeepsKnown(w: World, o: nat, phase: Phase)
    requires AllKnown(w) && o in w.clients && !phase.Recording?
    ensures AllKnown(WithParty(w, o, w.clients[o].(phase := phase)))
    ensures forall q: Request :: RequestKnown(q) ==>
      AllKnown(SendRequest(w, o, w.clients[o].(phase := phase), q, false))
  {
    var p := w.clients[o].(phase := phase);
    assert PartyKnown(w.clients[o]);
    hide AllKnown, RecordKnown, CallsKnown;
    PartyKeepsKnown(w, o, p);
    forall q: Request | RequestKnown(q) ensures AllKnown(SendRequest(w, o, p, q, false)) {
      RequestKeepsKnown(w, o, p, q, false);
    }
  }

  lemma AcquireReplyKeepsKnown(w: World, o: nat)
    requires AllKnown(w) && Enabled(w, AcquireReply(o))
    ensures AllKnown(AcquireReplyStep(w, o))
  {
    hide AllKnown, RecordKnown;
    MoveKeepsKnown(w, o, Idle);
    MoveKeepsKnown(w, o, Stopped);
  }

  lemma SendKeepsKnown(w: World, o: nat)
    requires AllKnown(w) && Enabled(w, Send(o))
    ensures AllKnown(SendStep(w, o))
  {
    MoveKeepsKnown(w, o, Dispatched(w.next));
    hide RecordKnown, PartyKnown, RequestKnown;
  }

  lemma EndKeepsKnown(w: World, o: nat)
    requires AllKnown(w) && Enabled(w, End(o))
    ensures AllKnown(EndStep(w, o))
  {
    hide AllKnown, RecordKnown, MayFinish;
    MoveKeepsKnown(w, o, Releasing(w.next));
    MoveKeepsKnown(w, o, Stopped);
  }

  /** The requests of recovery and of the operator leave the step of a text that was in the row. */
  lemma OthersKeepKnown(w: World, value: Text)
    requires AllKnown(w) && value in w.seen
    ensures AllKnown(SendAnonymous(w, Remove(value)))
    ensures AllKnown(SendAnonymous(w, Replace(value, ByClient(value.record.(stepState := Confirmed)))))
    ensures AllKnown(SendAnonymous(w, Replace(value, ByOperator(value.record.(stepState := Settled)))))
  {
    assert RecordKnown(value.record);
    hide AllKnown;
    AnonymousKeepsKnown(w, Remove(value));
    AnonymousKeepsKnown(w, Replace(value, ByClient(value.record.(stepState := Confirmed))));
    AnonymousKeepsKnown(w, Replace(value, ByOperator(value.record.(stepState := Settled))));
  }

  lemma StepKeepsKnown(w: World, e: Event)
    requires AllKnown(w) && Enabled(w, e)
    ensures AllKnown(Apply(w, e))
  {
    assert w.row.Some? ==> w.row.value in w.seen;
    hide AllKnown, UseStep, CommitStep, AcquireStep, RecordReplyStep, ProviderReplyStep, AcquireReplyStep, SendStep,
      EndStep, MayAttempt, RecoveryDecision, PromotesUpload;
    match e
    case Acquire(a, _) => AcquireKeepsKnown(w, a);
    case Commit(id) => CommitKeepsKnown(w, id);
    case AcquireReply(o) => AcquireReplyKeepsKnown(w, o);
    case Use(o) => UseKeepsKnown(w, o);
    case RecordReply(o) => ReplyKeepsKnown(w, o);
    case Send(o) => SendKeepsKnown(w, o);
    case TakeEffect(pid) => ProviderKeepsKnown(w, pid);
    case Refuse(pid) => ProviderKeepsKnown(w, pid);
    case ProviderReply(o, alreadyGone) => ProviderReplyKeepsKnown(w, o, alreadyGone);
    case End(o) => EndKeepsKnown(w, o);
    case Stop(o) => MoveKeepsKnown(w, o, Stopped);
    case PromoteUpload(value, _, _, _) => OthersKeepKnown(w, value);
    case UnlockSettled(value, _, _, _, _) => OthersKeepKnown(w, value);
    case OperatorSettles(value) => OthersKeepKnown(w, value);
    case OperatorReleases(value) => OthersKeepKnown(w, value);
  }

  lemma ProviderKeepsKnown(w: World, pid: nat)
    requires AllKnown(w) && pid in w.dispatches
    ensures AllKnown(TakeEffectStep(w, pid)) && AllKnown(RefuseStep(w, pid))
  {
    hide PartyKnown, RequestKnown, RecordKnown;
  }

  lemma {:induction false} RunKeepsKnown(ws: seq<World>, es: seq<Event>, i: nat)
    requires IsRun(ws, es) && i < |ws|
    ensures AllKnown(ws[i])
  {
    hide Enabled, Apply;
    if i > 0 {
      RunKeepsKnown(ws, es, i - 1);
      StepKeepsKnown(ws[i - 1], es[i - 1]);
    }
  }

  // ---------- nothing gets stuck ----------

  /**
   * In every run, a settled record of an update in the row is released if it owes no verification, and otherwise
   * resumed or verified by the build that wrote it, as long as the release still registers its migration.
   */
  lemma SettledUpdateIsNeverStuck(ws: seq<World>, es: seq<Event>, i: nat, worker: string, live: Option<LiveWorker>,
                                  registered: set<string>)
    requires IsRun(ws, es) && i < |ws| && ws[i].row.Some?
    requires var r := ws[i].row.value.record;
      RecoveryTargetMatches(r, worker, live) && IsSettledStep(r) && (r.step.Migrate? ==> r.step.id in registered)
    ensures var r := ws[i].row.value.record;
      var decision := RecoveryDecision(r, worker, live, r.fingerprint, registered);
      if r.verificationPending == True then decision in {Resume, Verify} else decision == Unlock
  {
    RunKeepsKnown(ws, es, i);
  }

  /** In every run, the deletion whose record is in the row may take it over at once, unless the upload of its
      helper has neither an answer nor shown up. */
  lemma DeletionIsNeverStuck(ws: seq<World>, es: seq<Event>, i: nat, resetId: string, helperTag: Option<Tag>)
    requires IsRun(ws, es) && i < |ws| && ws[i].row.Some?
    requires ws[i].row.value.record.kind == Delete && ws[i].row.value.record.resetId == Some(resetId)
    ensures var r := ws[i].row.value.record;
      DeletionMayReplace(r, r.worker, resetId, helperTag) <==>
        (r.step == UploadWorker && r.stepState == Started ==> helperTag == r.uploadTag)
  {
    RunKeepsKnown(ws, es, i);
    hide IsRun, PartyKnown, RequestKnown;
    var r := ws[i].row.value.record;
    assert RecordKnown(r);
    DeletionRecordTakesOver(r, resetId, helperTag);
  }

  lemma DeletionRecordTakesOver(r: Record, resetId: string, helperTag: Option<Tag>)
    requires RecordKnown(r) && r.kind == Delete && r.resetId == Some(resetId)
    ensures DeletionMayReplace(r, r.worker, resetId, helperTag) <==>
      (r.step == UploadWorker && r.stepState == Started ==> helperTag == r.uploadTag)
  {
  }

  /** An attempt that stops right behind its acquisition is offered again for what it was: a new update is
      released, a resumed one is resumed by its build, and a verification is verified again. */
  lemma AcquiredGoesOn(a: Attempt, live: Option<LiveWorker>, fingerprint: Option<string>, registered: set<string>)
    requires !IsDeletionIntent(a.intent) && RecoveryTargetMatches(FirstRecord(a), a.worker, live)
    ensures var r := FirstRecord(a);
      var decision := RecoveryDecision(r, a.worker, live, fingerprint, registered);
      && (a.intent.NewUpdate? <==> decision == Unlock)
      && (decision == Verify <==> a.intent.VerifyUpdate? && BuildMatches(live, r))
      && (a.intent.ResumeUpdate? ==> (decision == Resume <==> fingerprint == Some(a.fingerprint)))
  {
  }

  /** A removal that finds its resource already gone counts as done: its step is confirmed, or the fence knows that
      the database is gone. Any other request that is refused is recorded as rejected. */
  lemma GoneCountsAsDone(w: World, o: nat, alreadyGone: bool)
    requires ProviderAnswered(w, o)
    ensures var p := w.clients[o];
      var step := p.fence.value.record.step;
      var done := w.dispatches[p.phase.pid].outcome == TookEffect
        || (alreadyGone && step in {DeleteWorker, DeleteR2Bucket, DeleteD1Database});
      var p' := ProviderReplyStep(w, o, alreadyGone).clients[o];
      && (done && step == DeleteD1Database ==>
            p'.fence.databaseRemoved && !p'.fence.uncertain && p'.phase == Idle)
      && (!(done && step == DeleteD1Database) ==>
            p'.phase.Recording? && p'.phase.next.record.step == step
            && p'.phase.next.record.stepState == (if done then Confirmed else Rejected))
  {
  }
}
