/** The inductive invariant of the fence protocol, kept by every event. */
module FenceSafety {
  import opened Common
  import opened FenceRecords
  import opened FenceCalls
  import opened FenceProtocol

  // ---------- the invariant ----------

  /** A deletion owes its completion for as long as it holds the row; an update never does. */
  predicate RecordOk(r: Record) {
    r.deletionPending == (r.kind == Delete)
  }

  predicate WaitsOn(phase: Phase, id: nat) {
    match phase
    case Acquiring(i) => i == id
    case Recording(i, _, _, _) => i == id
    case Releasing(i) => i == id
    case _ => false
  }

  ghost predicate NothingInFlight(w: World, owner: nat) {
    forall pid :: pid in w.dispatches && w.dispatches[pid].owner == owner ==> w.dispatches[pid].outcome != InFlight
  }

  predicate FreshReceipt(w: World, owner: nat, r: Record) {
    r.step == UploadWorker ==>
      && r.uploadTag.Some? && r.uploadTag.value.owner == owner && r.uploadTag.value.serial < w.next
      && r.uploadTag.value !in w.published
  }

  /** The row still shows a started step, unless that step is benign. */
  predicate Guarded(w: World, started: Text) {
    IsBenign(started.record) || w.row == Some(started)
  }

  predicate StartOk(w: World, owner: nat, t: Text) {
    && t.record.stepState == Started && FreshReceipt(w, owner, t.record)
    && (IncursDebt(t.record.step) ==> Flagged(t.record))
  }

  predicate RecordingOk(w: World, owner: nat, p: Party)
    requires p.phase.Recording?
  {
    var Recording(id, next, dispatches, completes) := p.phase;
    && id in w.exchanges
    && w.exchanges[id].author == Some(owner) && w.exchanges[id].completes == completes
    && w.exchanges[id].request == Replace(p.fence.value, next)
    && next.ByClient? && next.record.owner == owner && RecordOk(next.record)
    && next.record.kind == p.fence.value.record.kind
    && (next.record.verificationPending == True ==> p.fence.verificationPending && !completes)
    && (completes ==> Disciplined(p.fence.deletionPending, p.calls))
    && (dispatches ==> !completes && StartOk(w, owner, next))
    && (!dispatches ==> IsSettledStep(next.record))
    && (dispatches && w.exchanges[id].won == Some(true) ==> Guarded(w, next))
  }

  predicate PhaseOk(w: World, owner: nat, p: Party) {
    match p.phase
    case Acquiring(id) => id in w.exchanges && w.exchanges[id].author == Some(owner)
    case Idle => true
    case Recording(_, _, _, _) => RecordingOk(w, owner, p)
    case Ready => StartOk(w, owner, p.fence.value) && Guarded(w, p.fence.value)
    case Dispatched(pid) =>
      pid in w.dispatches && w.dispatches[pid].owner == owner && w.dispatches[pid].started == p.fence.value.record
    case Releasing(id) => id in w.exchanges && w.exchanges[id].author == Some(owner)
    case Stopped => true
  }

  predicate PartyOk(w: World, owner: nat)
    requires owner in w.clients
  {
    var p := w.clients[owner];
    var r := p.fence.value.record;
    && p.fence.value.ByClient? && r.owner == owner && RecordOk(r)
    && p.fence.deletionPending == r.deletionPending
    && (r.verificationPending == True ==> p.fence.verificationPending)
    && Disciplined(p.fence.verificationPending || p.fence.deletionPending, p.calls)
    && PhaseOk(w, owner, p)
  }

  predicate DispatchOk(w: World, pid: nat)
    requires pid in w.dispatches
  {
    var d := w.dispatches[pid];
    && d.owner in w.clients && d.started.owner == d.owner
    && (d.outcome == InFlight ==>
          && (w.clients[d.owner].phase == Dispatched(pid) || w.clients[d.owner].phase == Stopped)
          && d.started.stepState == Started
          && FreshReceipt(w, d.owner, d.started)
          && Guarded(w, ByClient(d.started)))
  }

  /** At most one request of one owner can still take effect. */
  ghost predicate OneEach(w: World) {
    forall p, q | p in w.dispatches && q in w.dispatches && w.dispatches[p].outcome == InFlight
      && w.dispatches[q].outcome == InFlight && w.dispatches[p].owner == w.dispatches[q].owner :: p == q
  }

  predicate Quiet(w: World, owner: nat, id: nat) {
    && owner in w.clients
    && (w.clients[owner].phase == Stopped || WaitsOn(w.clients[owner].phase, id))
  }

  /** A pending request that would replace `x` cannot expose a request started under `x`. */
  ghost predicate SafeToReplace(w: World, id: nat, x: Text) {
    || IsSettledStep(x.record) || IsBenign(x.record)
    || (x.record.step == UploadWorker && x.record.uploadTag.Some? && x.record.uploadTag.value in w.published)
    || (Quiet(w, x.record.owner, id) && NothingInFlight(w, x.record.owner))
  }

  /** The text a request installs, when that gives the row to another owner. */
  predicate Transfers(q: Request) {
    match q
    case Insert(_) => true
    case Replace(x, n) => x.record.owner != n.record.owner
    case Remove(_) => false
  }

  function Receiver(q: Request): nat
    requires Transfers(q)
  {
    if q.Insert? then q.value.record.owner else q.next.record.owner
  }

  ghost predicate ExchangeOk(w: World, id: nat)
    requires id in w.exchanges
  {
    var e := w.exchanges[id];
    e.won.None? ==>
      && (e.author.Some? ==> Quiet(w, e.author.value, id))
      && (Transfers(e.request) ==> e.author == Some(Receiver(e.request)) && Receiver(e.request) !in w.held)
      && (!Transfers(e.request) && e.author.Some? ==> e.request.expected.record.owner == e.author.value)
      && match e.request
         case Insert(v) => RecordOk(v.record)
         case Replace(x, n) =>
           && SafeToReplace(w, id, x) && RecordOk(n.record)
           && (Flagged(x.record) ==> Flagged(n.record) || e.completes)
           && (n.record.owner in w.clients)
         case Remove(x) => SafeToReplace(w, id, x) && !Flagged(x.record)
  }

  /** Ownership passes to an owner through one request only. */
  ghost predicate OneTransferEach(w: World) {
    forall i, j | i in w.exchanges && j in w.exchanges && w.exchanges[i].won.None? && w.exchanges[j].won.None?
      && Transfers(w.exchanges[i].request) && Transfers(w.exchanges[j].request)
      && Receiver(w.exchanges[i].request) == Receiver(w.exchanges[j].request) :: i == j
  }

  ghost predicate RowOk(w: World) {
    && (w.row.Some? ==> w.row.value in w.seen && w.row.value.record.owner in w.held)
    && (forall x :: x in w.seen ==> RecordOk(x.record) && x.record.owner in w.clients)
    && w.held <= w.clients.Keys
    && (w.debt ==> w.row.Some? && Flagged(w.row.value.record))
  }

  ghost predicate IdsBelow(w: World) {
    && (forall id :: id in w.exchanges ==> id < w.next)
    && (forall pid :: pid in w.dispatches ==> pid < w.next)
    && (forall t :: t in w.published ==> t.serial < w.next)
  }

  ghost predicate Inv(w: World) {
    && (forall o :: o in w.clients ==> PartyOk(w, o))
    && (forall pid :: pid in w.dispatches ==> DispatchOk(w, pid))
    && OneEach(w)
    && (forall id :: id in w.exchanges ==> ExchangeOk(w, id))
    && OneTransferEach(w)
    && RowOk(w)
    && IdsBelow(w)
  }

  lemma InitialOk()
    ensures Inv(INITIAL)
  {
  }

  // ---------- every event keeps it ----------

  /** A client outside `Dispatched` and `Stopped` has no request in flight. */
  lemma QuietClient(w: World, owner: nat)
    requires Inv(w) && owner in w.clients && !w.clients[owner].phase.Dispatched? && w.clients[owner].phase != Stopped
    ensures NothingInFlight(w, owner)
  {
    forall pid | pid in w.dispatches && w.dispatches[pid].owner == owner
      ensures w.dispatches[pid].outcome != InFlight
    {
      assert DispatchOk(w, pid);
    }
  }

  lemma AttemptDisciplined(a: Attempt)
    ensures var f := Open(ByClient(FirstRecord(a)));
            Disciplined(f.verificationPending || f.deletionPending, AttemptCalls(a.intent))
  {
    match a.intent
    case NewUpdate(update) => UpdateDisciplined(false, update);
    case ResumeUpdate(_, _, update) => UpdateDisciplined(true, update);
    case VerifyUpdate(_, _, guardsToRelease) => ReleaseDisciplined(true, guardsToRelease);
    case NewDeletion(deletion) => DeletionDisciplined(deletion);
    case TakeOverByDeletion(_, _, deletion) => DeletionDisciplined(deletion);
  }

  lemma AcquireParty(w: World, a: Attempt, o: nat)
    requires Inv(w) && a.owner !in w.clients && (o in w.clients || o == a.owner)
    ensures PartyOk(AcquireStep(w, a), o)
  {
    if o == a.owner { AttemptDisciplined(a); } else { assert PartyOk(w, o); }
  }

  lemma AcquireOldExchange(w: World, a: Attempt, id: nat)
    requires a.owner !in w.clients && id in w.exchanges && id < w.next && ExchangeOk(w, id)
    ensures ExchangeOk(AcquireStep(w, a), id)
  {
  }

  /** What the inspection before an attempt establishes about the text it replaces. */
  lemma InspectionIsSafe(w: World, a: Attempt, registered: set<string>, id: nat)
    requires MayAttempt(w, a, registered) && Predecessor(a.intent).Some?
    ensures SafeToReplace(AcquireStep(w, a), id, Predecessor(a.intent).value)
  {
    var x := Predecessor(a.intent).value.record;
    match a.intent
    case ResumeUpdate(_, live, _) => RecoveryOnlyTakesSettledOrBenign(x, a.worker, live, Some(a.fingerprint),
      registered);
    case VerifyUpdate(_, live, _) => RecoveryOnlyTakesSettledOrBenign(x, a.worker, live, Some(a.fingerprint),
      registered);
    case TakeOverByDeletion(_, _, _) =>
  }

  lemma AcquireNewExchange(w: World, a: Attempt, registered: set<string>)
    requires RowOk(w) && MayAttempt(w, a, registered)
    ensures ExchangeOk(AcquireStep(w, a), w.next)
  {
    if Predecessor(a.intent).Some? { InspectionIsSafe(w, a, registered, w.next); }
  }

  lemma AcquireDispatch(w: World, a: Attempt, pid: nat)
    requires a.owner !in w.clients && pid in w.dispatches && DispatchOk(w, pid)
    ensures DispatchOk(AcquireStep(w, a), pid)
  {
  }

  /** Nothing has been transferred to an owner that is new. */
  lemma AcquireTransfers(w: World, a: Attempt)
    requires Inv(w) && a.owner !in w.clients
    ensures OneTransferEach(AcquireStep(w, a))
  {
    hide PartyOk, DispatchOk, AttemptCalls, SafeToReplace;
    forall id | id in w.exchanges && w.exchanges[id].won.None? && Transfers(w.exchanges[id].request)
      ensures Receiver(w.exchanges[id].request) != a.owner
    {
      assert ExchangeOk(w, id);
    }
  }

  lemma AcquireKeeps(w: World, a: Attempt, registered: set<string>)
    requires Inv(w) && MayAttempt(w, a, registered)
    ensures Inv(AcquireStep(w, a))
  {
    AcquireTransfers(w, a);
    hide PartyOk, DispatchOk, ExchangeOk, MayAttempt, OneTransferEach, FirstRecord, AttemptCalls;
    var w' := AcquireStep(w, a);
    forall o | o in w'.clients ensures PartyOk(w', o) { AcquireParty(w, a, o); }
    forall pid | pid in w'.dispatches ensures DispatchOk(w', pid) { AcquireDispatch(w, a, pid); }
    forall id | id in w'.exchanges ensures ExchangeOk(w', id) {
      if id == w.next { AcquireNewExchange(w, a, registered); } else { AcquireOldExchange(w, a, id); }
    }
  }

  /** The heart of the protocol: a request that wins cannot uncover a started step that still matters. */
  lemma CommitKeepsGuard(w: World, id: nat, started: Text)
    requires id in w.exchanges && w.exchanges[id].won.None? && ExchangeOk(w, id)
    requires started.record.stepState == Started && Guarded(w, started)
    requires !w.exchanges[id].request.Insert? && w.row == Some(started) ==>
      && (started.record.step == UploadWorker && started.record.uploadTag.Some? ==>
         started.record.uploadTag.value !in w.published)
      && !(Quiet(w, started.record.owner, id) && NothingInFlight(w, started.record.owner))
    ensures Guarded(CommitStep(w, id), started)
  {
  }

  lemma CommitRecording(w: World, id: nat, o: nat, p: Party)
    requires id in w.exchanges && w.exchanges[id].won.None? && ExchangeOk(w, id)
    requires o in w.clients && w.clients[o] == p && p.phase.Recording? && RecordingOk(w, o, p)
    ensures RecordingOk(CommitStep(w, id), o, p)
  {
    if p.phase.dispatches && p.phase.id != id && w.exchanges[p.phase.id].won == Some(true) {
      CommitKeepsGuard(w, id, p.phase.next);
    }
  }

  lemma CommitReady(w: World, id: nat, o: nat, p: Party)
    requires id in w.exchanges && w.exchanges[id].won.None? && ExchangeOk(w, id)
    requires o in w.clients && w.clients[o] == p && p.phase.Ready? && PhaseOk(w, o, p)
    requires p.fence.value.record.owner == o
    ensures PhaseOk(CommitStep(w, id), o, p)
  {
    CommitKeepsGuard(w, id, p.fence.value);
  }

  lemma CommitParty(w: World, id: nat, o: nat)
    requires id in w.exchanges && w.exchanges[id].won.None? && ExchangeOk(w, id)
    requires o in w.clients && PartyOk(w, o)
    ensures PartyOk(CommitStep(w, id), o)
  {
    var p := w.clients[o];
    if p.phase.Ready? {
      CommitReady(w, id, o, p);
    } else if p.phase.Recording? {
      CommitRecording(w, id, o, p);
    }
  }

  lemma CommitDispatch(w: World, id: nat, pid: nat)
    requires id in w.exchanges && w.exchanges[id].won.None? && ExchangeOk(w, id)
    requires pid in w.dispatches && DispatchOk(w, pid)
    ensures DispatchOk(CommitStep(w, id), pid)
  {
    var d := w.dispatches[pid];
    if d.outcome == InFlight { CommitKeepsGuard(w, id, ByClient(d.started)); }
  }

  lemma CommitExchange(w: World, id: nat, i: nat)
    requires id in w.exchanges && w.exchanges[id].won.None? && ExchangeOk(w, id)
    requires i in w.exchanges && ExchangeOk(w, i) && RowOk(w) && OneTransferEach(w)
    ensures ExchangeOk(CommitStep(w, id), i)
  {
  }

  lemma CommitRow(w: World, id: nat)
    requires id in w.exchanges && w.exchanges[id].won.None? && ExchangeOk(w, id) && RowOk(w)
    ensures RowOk(CommitStep(w, id))
  {
  }

  lemma CommitKeeps(w: World, id: nat)
    requires Inv(w) && id in w.exchanges && w.exchanges[id].won.None?
    ensures Inv(CommitStep(w, id))
  {
    hide PartyOk, DispatchOk, ExchangeOk, RowOk;
    var w' := CommitStep(w, id);
    forall o | o in w'.clients ensures PartyOk(w', o) { CommitParty(w, id, o); }
    forall pid | pid in w'.dispatches ensures DispatchOk(w', pid) { CommitDispatch(w, id, pid); }
    forall i | i in w'.exchanges ensures ExchangeOk(w', i) { CommitExchange(w, id, i); }
    CommitRow(w, id);
  }

  // ---------- one client moves on ----------

  lemma MoveDispatch(w: World, o: nat, p: Party, pid: nat)
    requires o in w.clients && pid in w.dispatches && DispatchOk(w, pid)
    requires p.phase == Stopped || NothingInFlight(w, o)
    ensures DispatchOk(WithParty(w, o, p), pid)
  {
  }

  lemma MoveExchange(w: World, o: nat, p: Party, id: nat)
    requires o in w.clients && id in w.exchanges && ExchangeOk(w, id)
    requires p.phase == Stopped || (w.clients[o].phase != Stopped
      && (WaitsOn(w.clients[o].phase, id) ==> w.exchanges[id].won.Some?))
    ensures ExchangeOk(WithParty(w, o, p), id)
  {
  }

  lemma MoveOther(w: World, o: nat, p: Party, other: nat)
    requires o in w.clients && other in w.clients && other != o && PartyOk(w, other)
    ensures PartyOk(WithParty(w, o, p), other)
  {
  }

  lemma MoveKeeps(w: World, o: nat, p: Party)
    requires Inv(w) && o in w.clients
    requires PartyOk(WithParty(w, o, p), o)
    requires p.phase == Stopped || NothingInFlight(w, o)
    requires p.phase == Stopped ||
      (w.clients[o].phase != Stopped && forall id :: id in w.exchanges && WaitsOn(w.clients[o].phase, id) ==>
        w.exchanges[id].won.Some?)
    ensures Inv(WithParty(w, o, p))
  {
    hide PartyOk, DispatchOk, ExchangeOk;
    var w' := WithParty(w, o, p);
    forall other | other in w'.clients ensures PartyOk(w', other) { if other != o { MoveOther(w, o, p, other); } }
    forall pid | pid in w'.dispatches ensures DispatchOk(w', pid) { MoveDispatch(w, o, p, pid); }
    forall id | id in w'.exchanges ensures ExchangeOk(w', id) { MoveExchange(w, o, p, id); }
  }

  lemma StopKeeps(w: World, o: nat)
    requires Inv(w) && o in w.clients
    ensures Inv(WithParty(w, o, w.clients[o].(phase := Stopped)))
  {
    assert PartyOk(w, o);
    MoveKeeps(w, o, w.clients[o].(phase := Stopped));
  }

  lemma AcquireReplyKeeps(w: World, o: nat)
    requires Inv(w) && Enabled(w, AcquireReply(o))
    ensures Inv(AcquireReplyStep(w, o))
  {
    assert PartyOk(w, o);
    QuietClient(w, o);
    var p := w.clients[o];
    MoveKeeps(w, o, p.(phase := if w.exchanges[p.phase.id].won == Some(true) then Idle else Stopped));
  }

  lemma RecordReplyParty(w: World, o: nat)
    requires Enabled(w, RecordReply(o)) && PartyOk(w, o)
    ensures PartyOk(RecordReplyStep(w, o), o)
  {
    hide Disciplined;
    var p := w.clients[o];
    assert RecordingOk(w, o, p);
    if w.exchanges[p.phase.id].won == Some(true) && p.phase.dispatches { assert StartOk(w, o, p.phase.next); }
    if w.exchanges[p.phase.id].won == Some(true) && p.phase.completes {
      assert Disciplined(p.fence.deletionPending, p.calls);
    }
  }

  lemma RecordReplyKeeps(w: World, o: nat)
    requires Inv(w) && Enabled(w, RecordReply(o))
    ensures Inv(RecordReplyStep(w, o))
  {
    assert PartyOk(w, o);
    QuietClient(w, o);
    RecordReplyParty(w, o);
    MoveKeeps(w, o, RecordReplyStep(w, o).clients[o]);
  }

  // ---------- one client sends a database request ----------

  lemma RequestExchange(w: World, o: nat, p: Party, request: Request, completes: bool, id: nat)
    requires o in w.clients && id in w.exchanges && id < w.next && ExchangeOk(w, id)
    requires w.clients[o].phase.Idle? || w.clients[o].phase.Dispatched?
    ensures ExchangeOk(SendRequest(w, o, p, request, completes), id)
  {
  }

  lemma RequestParty(w: World, o: nat, p: Party, request: Request, completes: bool, other: nat)
    requires IdsBelow(w) && o in w.clients && other in w.clients && other != o && PartyOk(w, other)
    ensures PartyOk(SendRequest(w, o, p, request, completes), other)
  {
  }

  lemma RequestDispatch(w: World, o: nat, p: Party, request: Request, completes: bool, pid: nat)
    requires o in w.clients && pid in w.dispatches && DispatchOk(w, pid) && NothingInFlight(w, o)
    ensures DispatchOk(SendRequest(w, o, p, request, completes), pid)
  {
  }

  lemma RequestKeeps(w: World, o: nat, p: Party, request: Request, completes: bool)
    requires Inv(w) && o in w.clients && (w.clients[o].phase.Idle? || w.clients[o].phase.Dispatched?)
    requires NothingInFlight(w, o) && !Transfers(request) && request.expected.record.owner == o
    requires PartyOk(SendRequest(w, o, p, request, completes), o)
    requires ExchangeOk(SendRequest(w, o, p, request, completes), w.next)
    ensures Inv(SendRequest(w, o, p, request, completes))
  {
    hide PartyOk, DispatchOk, ExchangeOk;
    var w' := SendRequest(w, o, p, request, completes);
    forall other | other in w'.clients ensures PartyOk(w', other) {
      if other != o { RequestParty(w, o, p, request, completes, other); }
    }
    forall pid | pid in w'.dispatches ensures DispatchOk(w', pid) { RequestDispatch(w, o, p, request, completes, pid); }
    forall id | id in w'.exchanges ensures ExchangeOk(w', id) {
      if id != w.next { RequestExchange(w, o, p, request, completes, id); }
    }
  }

  // ---------- the fence calls ----------

  lemma RequireKeeps(w: World, o: nat)
    requires Inv(w) && Enabled(w, Use(o)) && w.clients[o].calls[0].RequireVerification?
    ensures Inv(UseStep(w, o))
  {
    var p := w.clients[o];
    assert PartyOk(w, o);
    QuietClient(w, o);
    assert Disciplined(true, p.calls[1..]);
    MoveKeeps(w, o, p.(calls := p.calls[1..], fence := p.fence.(verificationPending := true)));
  }

  /** The call leaves the rest of the operation disciplined, even if its record is never confirmed. */
  lemma RestDisciplined(required: bool, calls: seq<Call>)
    requires calls != [] && Disciplined(required, calls)
    ensures Disciplined(required, calls[1..]) || calls[0].CompleteVerification? || calls[0].RequireVerification?
    ensures calls[0].CompleteVerification? ==> Disciplined(false, calls[1..]) && Disciplined(true, calls[1..])
    ensures Dispatches(calls[0]).Some? && IncursDebt(Dispatches(calls[0]).value) ==> required
    ensures calls[0].Mutate? ==> calls[0].step != UploadWorker
  {
    if calls[0].CompleteVerification? { DisciplineIsMonotone(calls[1..]); }
  }

  /** What the first text of a call records. */
  lemma FirstTextOk(f: Fence, call: Call, owner: nat, serial: nat)
    requires !call.RequireVerification? && RecordOk(f.value.record) && f.value.record.owner == owner
    requires f.value.record.verificationPending == True ==> f.verificationPending
    requires f.deletionPending == f.value.record.deletionPending
    requires call.Mutate? ==> call.step != UploadWorker
    requires Dispatches(call).Some? && IncursDebt(Dispatches(call).value) ==> f.verificationPending || f.deletionPending
    ensures var t := FirstText(f, call, owner, serial); var r := t.record;
            && t.ByClient? && r.owner == owner && RecordOk(r) && r.kind == f.value.record.kind
            && (r.verificationPending == True ==> f.verificationPending && !call.CompleteVerification?)
            && (Flagged(f.value.record) ==> Flagged(r) || call.CompleteVerification?)
            && (if Dispatches(call).Some? then r.stepState == Started && r.step == Dispatches(call).value
               else IsSettledStep(r))
            && (r.step == UploadWorker && Dispatches(call).Some? ==> r.uploadTag == Some(Tag(owner, serial)))
            && (Dispatches(call).Some? && IncursDebt(r.step) ==> Flagged(r))
  {
  }

  lemma UseParty(w: World, o: nat)
    requires IdsBelow(w) && Enabled(w, Use(o)) && !w.clients[o].calls[0].RequireVerification? && PartyOk(w, o)
    requires !w.clients[o].fence.databaseRemoved
    requires Dispatches(w.clients[o].calls[0]).Some? ==> w.database && w.row == Some(w.clients[o].fence.value)
    ensures PartyOk(UseStep(w, o), o)
  {
    var p := w.clients[o];
    var call := p.calls[0];
    var next := FirstText(p.fence, call, o, w.next);
    RestDisciplined(p.fence.verificationPending || p.fence.deletionPending, p.calls);
    FirstTextOk(p.fence, call, o, w.next);
    var w' := UseStep(w, o);
    var p' := w'.clients[o];
    assert p'.phase == Recording(w.next, next, Dispatches(call).Some?, call.CompleteVerification?);
    assert Dispatches(call).Some? ==> StartOk(w', o, next);
    assert RecordingOk(w', o, p');
  }

  lemma OwnRequestSafe(w: World, o: nat, p: Party, next: Text, completes: bool)
    requires PartyOk(SendRequest(w, o, p, Replace(p.fence.value, next), completes), o)
    requires o in w.clients && NothingInFlight(w, o) && p.phase.Recording? && p.phase.id == w.next
    requires p.phase.next == next && p.phase.completes == completes
    requires Flagged(p.fence.value.record) ==> Flagged(next.record) || completes
    ensures ExchangeOk(SendRequest(w, o, p, Replace(p.fence.value, next), completes), w.next)
  {
  }

  lemma NextRecordKeepsFlag(f: Fence, step: Step, state: StepState, batchHash: Option<string>, tag: Option<Tag>)
    requires f.value.record.verificationPending == True ==> f.verificationPending
    ensures Flagged(f.value.record) ==> Flagged(NextRecord(f, step, state, batchHash, tag))
  {
  }

  lemma UseRemovedParty(w: World, o: nat)
    requires Enabled(w, Use(o)) && !w.clients[o].calls[0].RequireVerification? && PartyOk(w, o)
    requires w.clients[o].fence.databaseRemoved && !Dispatches(w.clients[o].calls[0]).Some?
    ensures PartyOk(UseStep(w, o), o)
  {
    var p := w.clients[o];
    RestDisciplined(p.fence.verificationPending || p.fence.deletionPending, p.calls);
  }

  lemma UseKeeps(w: World, o: nat)
    requires Inv(w) && Enabled(w, Use(o))
    ensures Inv(UseStep(w, o))
  {
    var p := w.clients[o];
    var call := p.calls[0];
    assert PartyOk(w, o);
    QuietClient(w, o);
    if call.RequireVerification? {
      RequireKeeps(w, o);
    } else if Dispatches(call).Some? && !(w.database && !p.fence.databaseRemoved && w.row == Some(p.fence.value)) {
      StopKeeps(w, o);
    } else if p.fence.databaseRemoved {
      UseRemovedParty(w, o);
      MoveKeeps(w, o, p.(calls := p.calls[1..]));
    } else {
      var next := FirstText(p.fence, call, o, w.next);
      var p' := p.(calls := p.calls[1..], phase :=
        Recording(w.next, next, Dispatches(call).Some?, call.CompleteVerification?));
      UseParty(w, o);
      assert Flagged(p.fence.value.record) ==> Flagged(next.record) || call.CompleteVerification?;
      OwnRequestSafe(w, o, p', next, call.CompleteVerification?);
      RequestKeeps(w, o, p', Replace(p.fence.value, next), call.CompleteVerification?);
    }
  }

  lemma EndRequest(w: World, o: nat)
    requires o in w.clients && PartyOk(w, o) && NothingInFlight(w, o) && MayFinish(w.clients[o].fence)
    ensures var p := w.clients[o].(phase := Releasing(w.next));
            && PartyOk(SendRequest(w, o, p, Remove(p.fence.value), false), o)
            && ExchangeOk(SendRequest(w, o, p, Remove(p.fence.value), false), w.next)
  {
    hide Disciplined;
  }

  lemma EndKeeps(w: World, o: nat)
    requires Inv(w) && Enabled(w, End(o))
    ensures Inv(EndStep(w, o))
  {
    var p := w.clients[o];
    assert PartyOk(w, o);
    QuietClient(w, o);
    hide Disciplined, DispatchOk, Inv;
    if MayFinish(p.fence) {
      EndRequest(w, o);
      RequestKeeps(w, o, p.(phase := Releasing(w.next)), Remove(p.fence.value), false);
    } else {
      StopKeeps(w, o);
    }
  }

  /** Once the provider has answered, nothing of this client is in flight. */
  lemma AnsweredClient(w: World, o: nat)
    requires Inv(w) && ProviderAnswered(w, o)
    ensures NothingInFlight(w, o)
  {
    forall pid | pid in w.dispatches && w.dispatches[pid].owner == o
      ensures w.dispatches[pid].outcome != InFlight
    {
      assert DispatchOk(w, pid);
    }
  }

  lemma ProviderReplyParty(w: World, o: nat, alreadyGone: bool)
    requires IdsBelow(w) && ProviderAnswered(w, o) && PartyOk(w, o)
    ensures PartyOk(ProviderReplyStep(w, o, alreadyGone), o)
  {
  }

  lemma ProviderReplyKeeps(w: World, o: nat, alreadyGone: bool)
    requires Inv(w) && ProviderAnswered(w, o)
    ensures Inv(ProviderReplyStep(w, o, alreadyGone))
  {
    var p := w.clients[o];
    var step := p.fence.value.record.step;
    assert PartyOk(w, o);
    AnsweredClient(w, o);
    ProviderReplyParty(w, o, alreadyGone);
    var done := w.dispatches[p.phase.pid].outcome == TookEffect || (alreadyGone && RemovesResource(step));
    if done && step == DeleteD1Database {
      MoveKeeps(w, o, p.(fence := p.fence.(databaseRemoved := true, uncertain := false), phase := Idle));
    } else {
      var state := if done then Confirmed else Rejected;
      var next := ByClient(NextRecord(p.fence, step, state, None, None));
      NextRecordKeepsFlag(p.fence, step, state, None, None);
      var p' := p.(phase := Recording(w.next, next, false, false));
      OwnRequestSafe(w, o, p', next, false);
      RequestKeeps(w, o, p', Replace(p.fence.value, next), false);
    }
  }

  // ---------- the provider ----------

  lemma SendExchange(w: World, o: nat, id: nat)
    requires Enabled(w, Send(o)) && id in w.exchanges && ExchangeOk(w, id)
    ensures ExchangeOk(SendStep(w, o), id)
  {
  }

  lemma SendDispatch(w: World, o: nat, pid: nat)
    requires Enabled(w, Send(o)) && PartyOk(w, o) && NothingInFlight(w, o) && IdsBelow(w)
    requires pid == w.next || (pid in w.dispatches && DispatchOk(w, pid))
    ensures DispatchOk(SendStep(w, o), pid)
  {
  }

  lemma SendParty(w: World, o: nat, other: nat)
    requires Enabled(w, Send(o)) && IdsBelow(w) && other in w.clients && PartyOk(w, other)
    ensures PartyOk(SendStep(w, o), other)
  {
  }

  /** A dispatch that incurs a debt goes out under a row that records it. */
  lemma SendRow(w: World, o: nat)
    requires Enabled(w, Send(o)) && PartyOk(w, o) && RowOk(w)
    ensures RowOk(SendStep(w, o))
  {
    var t := w.clients[o].fence.value;
    assert StartOk(w, o, t) && Guarded(w, t);
    if IncursDebt(t.record.step) { assert !IsBenign(t.record); }
  }

  lemma SendOneEach(w: World, o: nat)
    requires OneEach(w) && Enabled(w, Send(o)) && NothingInFlight(w, o)
    ensures OneEach(SendStep(w, o))
  {
  }

  lemma SendIds(w: World, o: nat)
    requires IdsBelow(w) && OneTransferEach(w) && Enabled(w, Send(o))
    ensures IdsBelow(SendStep(w, o)) && OneTransferEach(SendStep(w, o))
  {
  }

  lemma SendKeeps(w: World, o: nat)
    requires Inv(w) && Enabled(w, Send(o))
    ensures Inv(SendStep(w, o))
  {
    var w' := SendStep(w, o);
    assert PartyOk(w, o);
    QuietClient(w, o);
    hide PartyOk, DispatchOk, ExchangeOk, RowOk, OneEach, OneTransferEach, NothingInFlight, IdsBelow;
    SendOneEach(w, o);
    SendIds(w, o);
    forall other | other in w'.clients ensures PartyOk(w', other) { SendParty(w, o, other); }
    forall pid | pid in w'.dispatches ensures DispatchOk(w', pid) { SendDispatch(w, o, pid); }
    forall id | id in w'.exchanges ensures ExchangeOk(w', id) { SendExchange(w, o, id); }
    SendRow(w, o);
  }

  /** A request that took effect or was refused is no longer in flight for anyone. */
  lemma TakeEffectParty(w: World, pid: nat, o: nat)
    requires Enabled(w, TakeEffect(pid)) && DispatchOk(w, pid) && o in w.clients && PartyOk(w, o)
    ensures PartyOk(TakeEffectStep(w, pid), o)
  {
    hide Disciplined, RecordOk;
  }

  lemma TakeEffectDispatch(w: World, pid: nat, other: nat)
    requires OneEach(w) && Enabled(w, TakeEffect(pid)) && DispatchOk(w, pid)
    requires other in w.dispatches && DispatchOk(w, other)
    ensures DispatchOk(TakeEffectStep(w, pid), other)
  {
  }

  lemma TakeEffectExchange(w: World, pid: nat, id: nat)
    requires Enabled(w, TakeEffect(pid)) && id in w.exchanges && ExchangeOk(w, id)
    ensures ExchangeOk(TakeEffectStep(w, pid), id)
  {
  }

  lemma TakeEffectRow(w: World, pid: nat)
    requires RowOk(w) && IdsBelow(w) && Enabled(w, TakeEffect(pid)) && DispatchOk(w, pid)
    ensures RowOk(TakeEffectStep(w, pid)) && IdsBelow(TakeEffectStep(w, pid))
  {
  }

  lemma TakeEffectOneEach(w: World, pid: nat)
    requires OneEach(w) && Enabled(w, TakeEffect(pid))
    ensures OneEach(TakeEffectStep(w, pid))
  {
  }

  lemma TakeEffectKeeps(w: World, pid: nat)
    requires Inv(w) && Enabled(w, TakeEffect(pid))
    ensures Inv(TakeEffectStep(w, pid))
  {
    var w' := TakeEffectStep(w, pid);
    hide PartyOk, ExchangeOk, RowOk, DispatchOk, OneEach, IdsBelow;
    TakeEffectRow(w, pid);
    TakeEffectOneEach(w, pid);
    forall o | o in w'.clients ensures PartyOk(w', o) { TakeEffectParty(w, pid, o); }
    forall other | other in w'.dispatches ensures DispatchOk(w', other) { TakeEffectDispatch(w, pid, other); }
    forall id | id in w'.exchanges ensures ExchangeOk(w', id) { TakeEffectExchange(w, pid, id); }
  }

  lemma RefuseParty(w: World, pid: nat, o: nat)
    requires pid in w.dispatches && o in w.clients && PartyOk(w, o)
    ensures PartyOk(RefuseStep(w, pid), o)
  {
  }

  lemma RefuseDispatch(w: World, pid: nat, other: nat)
    requires pid in w.dispatches && other in w.dispatches && DispatchOk(w, other)
    ensures DispatchOk(RefuseStep(w, pid), other)
  {
  }

  lemma RefuseExchange(w: World, pid: nat, id: nat)
    requires pid in w.dispatches && id in w.exchanges && ExchangeOk(w, id)
    ensures ExchangeOk(RefuseStep(w, pid), id)
  {
  }

  lemma RefuseKeeps(w: World, pid: nat)
    requires Inv(w) && Enabled(w, Refuse(pid))
    ensures Inv(RefuseStep(w, pid))
  {
    hide PartyOk, DispatchOk, ExchangeOk;
    var w' := RefuseStep(w, pid);
    forall o | o in w'.clients ensures PartyOk(w', o) { RefuseParty(w, pid, o); }
    forall other | other in w'.dispatches ensures DispatchOk(w', other) { RefuseDispatch(w, pid, other); }
    forall id | id in w'.exchanges ensures ExchangeOk(w', id) { RefuseExchange(w, pid, id); }
  }

  // ---------- recovery and operator ----------

  lemma AnonymousParty(w: World, request: Request, o: nat)
    requires IdsBelow(w) && o in w.clients && PartyOk(w, o)
    ensures PartyOk(SendAnonymous(w, request), o)
  {
  }

  lemma AnonymousDispatch(w: World, request: Request, pid: nat)
    requires pid in w.dispatches && DispatchOk(w, pid)
    ensures DispatchOk(SendAnonymous(w, request), pid)
  {
  }

  lemma AnonymousExchange(w: World, request: Request, id: nat)
    requires id in w.exchanges && id < w.next && ExchangeOk(w, id)
    ensures ExchangeOk(SendAnonymous(w, request), id)
  {
  }

  lemma AnonymousKeeps(w: World, request: Request)
    requires Inv(w) && !Transfers(request)
    requires ExchangeOk(SendAnonymous(w, request), w.next)
    ensures Inv(SendAnonymous(w, request))
  {
    hide PartyOk, DispatchOk, ExchangeOk;
    var w' := SendAnonymous(w, request);
    forall o | o in w'.clients ensures PartyOk(w', o) { AnonymousParty(w, request, o); }
    forall pid | pid in w'.dispatches ensures DispatchOk(w', pid) { AnonymousDispatch(w, request, pid); }
    forall id | id in w'.exchanges ensures ExchangeOk(w', id) { if id != w.next { AnonymousExchange(w, request, id); } }
  }

  lemma PromoteExchange(w: World, e: Event)
    requires RowOk(w) && e.PromoteUpload? && Enabled(w, e)
    ensures ExchangeOk(Apply(w, e), w.next)
  {
  }

  lemma UnlockExchange(w: World, e: Event)
    requires RowOk(w) && e.UnlockSettled? && Enabled(w, e)
    ensures ExchangeOk(Apply(w, e), w.next)
  {
    RecoveryOnlyTakesSettledOrBenign(e.value.record, e.worker, e.live, e.fingerprint, e.registered);
    assert RecordOk(e.value.record);
  }

  lemma OperatorExchange(w: World, e: Event)
    requires RowOk(w) && (e.OperatorSettles? || e.OperatorReleases?) && Enabled(w, e)
    ensures ExchangeOk(Apply(w, e), w.next)
  {
    var o := e.value.record.owner;
    assert e.value in w.seen;
    assert Quiet(w, o, w.next) && NothingInFlight(w, o);
  }

  lemma RecoveryKeeps(w: World, e: Event)
    requires Inv(w) && Enabled(w, e) && (e.PromoteUpload? || e.UnlockSettled? || e.OperatorSettles?
      || e.OperatorReleases?)
    ensures Inv(Apply(w, e))
  {
    hide PartyOk, DispatchOk, ExchangeOk, OneEach, OneTransferEach, IdsBelow;
    match e
    case PromoteUpload(value, _, _, _) =>
      PromoteExchange(w, e);
      AnonymousKeeps(w, Replace(value, ByClient(value.record.(stepState := Confirmed))));
    case UnlockSettled(value, _, _, _, _) =>
      UnlockExchange(w, e);
      AnonymousKeeps(w, Remove(value));
    case OperatorSettles(value) =>
      OperatorExchange(w, e);
      AnonymousKeeps(w, Replace(value, ByOperator(value.record.(stepState := Settled))));
    case OperatorReleases(value) =>
      OperatorExchange(w, e);
      AnonymousKeeps(w, Remove(value));
  }

  /** Every event keeps the invariant. */
  lemma StepKeeps(w: World, e: Event)
    requires Inv(w) && Enabled(w, e)
    ensures Inv(Apply(w, e))
  {
    hide Inv, AcquireStep, CommitStep, AcquireReplyStep, UseStep, RecordReplyStep, SendStep, TakeEffectStep, RefuseStep;
    hide ProviderReplyStep, EndStep, MayAttempt, RecoveryDecision, PromotesUpload;
    match e
    case Acquire(a, registered) => AcquireKeeps(w, a, registered);
    case Commit(id) => CommitKeeps(w, id);
    case AcquireReply(o) => AcquireReplyKeeps(w, o);
    case Use(o) => UseKeeps(w, o);
    case RecordReply(o) => RecordReplyKeeps(w, o);
    case Send(o) => SendKeeps(w, o);
    case TakeEffect(pid) => TakeEffectKeeps(w, pid);
    case Refuse(pid) => RefuseKeeps(w, pid);
    case ProviderReply(o, alreadyGone) => ProviderReplyKeeps(w, o, alreadyGone);
    case End(o) => EndKeeps(w, o);
    case Stop(o) => StopKeeps(w, o);
    case _ => RecoveryKeeps(w, e);
  }
}
