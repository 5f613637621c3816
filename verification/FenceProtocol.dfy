/**
 Any number of clients, recovery checks and operator runs around one fence row. Database requests and
 provider requests stay in flight for as long as they like: each may take effect late, never, or take
 effect and lose its response. A client may stop at any point.
 */
module FenceProtocol {
  import opened Common
  import opened FenceRecords
  import opened FenceCalls

  /** Where one attempt is. Ids name its database exchange or provider dispatch. */
  datatype Phase =
    | Acquiring(id: nat)
    | Idle
    | Recording(id: nat, next: Text, dispatches: bool, completes: bool)
    | Ready
    | Dispatched(pid: nat)
    | Releasing(id: nat)
    | Stopped

  /** One attempt: its fence object, what it waits for, and the fenced calls it has yet to make. */
  datatype Party = Party(fence: Fence, phase: Phase, calls: seq<Call>)

  /** A database request. `won` is known once it has executed; `completes` marks `completeVerification`. */
  datatype Exchange = Exchange(request: Request, author: Option<nat>, completes: bool, won: Option<bool>)

  /** `Refused` is a 4xx answer other than 408: such a request never takes effect. */
  datatype Outcome = InFlight | TookEffect | Refused
  datatype Dispatch = Dispatch(owner: nat, started: Record, outcome: Outcome)

  /** `row` keeps its last contents when the database is removed. `seen` holds every text the row ever
      held, `held` every owner that ever held it. `debt` is set by a dispatch that incurs one. */
  datatype World = World(
    row: Option<Text>, database: bool, seen: set<Text>, held: set<nat>,
    clients: map<nat, Party>, exchanges: map<nat, Exchange>, dispatches: map<nat, Dispatch>,
    published: set<Tag>, debt: bool, next: nat)

  /** Why an attempt starts. Values were read earlier and may be stale by now. */
  datatype Intent =
    | NewUpdate(update: UpdateConditions)
    | ResumeUpdate(value: Text, live: Option<LiveWorker>, update: UpdateConditions)
    | VerifyUpdate(value: Text, live: Option<LiveWorker>, guardsToRelease: bool)
    | NewDeletion(deletion: DeletionConditions)
    | TakeOverByDeletion(value: Text, helperTag: Option<Tag>, deletion: DeletionConditions)

  datatype Attempt = Attempt(owner: nat, worker: string, version: string, fingerprint: string, resetId: string,
    intent: Intent)

  datatype Event =
    | Acquire(attempt: Attempt, registered: set<string>)
    | Commit(id: nat)
    | AcquireReply(owner: nat)
    | Use(owner: nat)
    | RecordReply(owner: nat)
    | Send(owner: nat)
    | TakeEffect(pid: nat)
    | Refuse(pid: nat)
    | ProviderReply(owner: nat, alreadyGone: bool)
    | End(owner: nat)
    | Stop(owner: nat)
    | PromoteUpload(value: Text, worker: string, live: Option<LiveWorker>, fingerprint: Option<string>)
    | UnlockSettled(value: Text, worker: string, live: Option<LiveWorker>, fingerprint: Option<string>,
      registered: set<string>)
    | OperatorSettles(value: Text)
    | OperatorReleases(value: Text)

  const INITIAL := World(None, true, {}, {}, map[], map[], map[], {}, false, 0)

  // ---------- acquisition ----------

  predicate IsDeletionIntent(i: Intent) { i.NewDeletion? || i.TakeOverByDeletion? }

  function Predecessor(i: Intent): Option<Text> {
    match i
    case NewUpdate(_) => None
    case NewDeletion(_) => None
    case ResumeUpdate(value, _, _) => Some(value)
    case VerifyUpdate(value, _, _) => Some(value)
    case TakeOverByDeletion(value, _, _) => Some(value)
  }

  function AttemptCalls(i: Intent): seq<Call> {
    match i
    case NewUpdate(update) => UpdateCalls(update)
    case ResumeUpdate(_, _, update) => UpdateCalls(update)
    case VerifyUpdate(_, _, guardsToRelease) => ReleaseCalls(guardsToRelease)
    case NewDeletion(deletion) => DeletionCalls(deletion)
    case TakeOverByDeletion(_, _, deletion) => DeletionCalls(deletion)
  }

  /** The record that `withDeploymentFence` writes with its ownership. */
  function FirstRecord(a: Attempt): Record {
    var deletes := IsDeletionIntent(a.intent);
    Record(a.owner, a.worker, if deletes then Delete else Update,
           if deletes then "" else a.version, if deletes then None else Some(a.fingerprint),
           true, AcquireDeployment, Confirmed,
           if deletes then Absent else if a.intent.NewUpdate? then False else True,
           a.intent.VerifyUpdate?, deletes, None, if deletes then Some(a.resetId) else None, None)
  }

  /** The inspection that allows the attempt. An observed live tag really is published. */
  predicate MayAttempt(w: World, a: Attempt, registered: set<string>) {
    && a.owner !in w.clients
    && (Predecessor(a.intent).Some? ==> Predecessor(a.intent).value in w.seen)
    && match a.intent
       case NewUpdate(_) => true
       case NewDeletion(_) => true
       case ResumeUpdate(value, live, _) =>
         RecoveryDecision(value.record, a.worker, live, Some(a.fingerprint), registered) == Resume
       case VerifyUpdate(value, live, _) =>
         && RecoveryDecision(value.record, a.worker, live, Some(a.fingerprint), registered) == Verify
         && value.record.version == a.version && value.record.fingerprint == Some(a.fingerprint)
       case TakeOverByDeletion(value, helperTag, _) =>
         && (helperTag.Some? ==> helperTag.value in w.published)
         && DeletionMayReplace(value.record, a.worker, a.resetId, helperTag)
  }

  function AcquireStep(w: World, a: Attempt): World {
    var value := ByClient(FirstRecord(a));
    var request := if Predecessor(a.intent).None? then Insert(value) else Replace(Predecessor(a.intent).value, value);
    w.(clients := w.clients[a.owner := Party(Open(value), Acquiring(w.next), AttemptCalls(a.intent))],
       exchanges := w.exchanges[w.next := Exchange(request, Some(a.owner), false, None)],
       next := w.next + 1)
  }

  // ---------- the database ----------

  function CommitStep(w: World, id: nat): World
    requires id in w.exchanges
  {
    var e := w.exchanges[id];
    var won := Wins(w.row, e.request);
    var row := Execute(w.row, e.request);
    w.(row := row,
       seen := if row.Some? then w.seen + {row.value} else w.seen,
       held := if row.Some? then w.held + {row.value.record.owner} else w.held,
       exchanges := w.exchanges[id := e.(won := Some(won))],
       debt := w.debt && !(won && e.completes))
  }

  function WithParty(w: World, owner: nat, p: Party): World {
    w.(clients := w.clients[owner := p])
  }

  /** Sends a database request on behalf of a client, which then waits for it. */
  function SendRequest(w: World, owner: nat, p: Party, request: Request, completes: bool): World {
    w.(clients := w.clients[owner := p],
       exchanges := w.exchanges[w.next := Exchange(request, Some(owner), completes, None)],
       next := w.next + 1)
  }

  function SendAnonymous(w: World, request: Request): World {
    w.(exchanges := w.exchanges[w.next := Exchange(request, None, false, None)], next := w.next + 1)
  }

  predicate Answered(w: World, id: nat) {
    id in w.exchanges && w.exchanges[id].won.Some?
  }

  function AcquireReplyStep(w: World, owner: nat): World
    requires owner in w.clients && w.clients[owner].phase.Acquiring? && Answered(w, w.clients[owner].phase.id)
  {
    var p := w.clients[owner];
    WithParty(w, owner, p.(phase := if w.exchanges[p.phase.id].won == Some(true) then Idle else Stopped))
  }

  // ---------- the fence calls ----------

  /** The text that a call records first, with a fresh receipt for an upload. */
  function FirstText(f: Fence, call: Call, owner: nat, serial: nat): Text
    requires !call.RequireVerification?
  {
    match call
    case Mutate(step, batchHash) => ByClient(NextRecord(f, step, Started, batchHash, None))
    case Upload => ByClient(NextRecord(f, UploadWorker, Started, None, Some(Tag(owner, serial))))
    case Checkpoint(step) => ByClient(NextRecord(f, step, Confirmed, None, None))
    case CompleteVerification =>
      ByClient(NextRecord(f.(verificationPending := false), VerifyDeployment, Confirmed, None, None))
  }

  function UseStep(w: World, owner: nat): World
    requires owner in w.clients && w.clients[owner].phase.Idle? && w.clients[owner].calls != []
  {
    var p := w.clients[owner];
    var call := p.calls[0];
    var rest := p.(calls := p.calls[1..]);
    if call.RequireVerification? then
      WithParty(w, owner, rest.(fence := p.fence.(verificationPending := true)))
    else
      var dispatches := Dispatches(call).Some?;
      if dispatches && !(w.database && !p.fence.databaseRemoved && w.row == Some(p.fence.value)) then
        WithParty(w, owner, p.(phase := Stopped))
      else if p.fence.databaseRemoved then
        WithParty(w, owner, rest)  // nothing is recorded any more
      else
        var next := FirstText(p.fence, call, owner, w.next);
        SendRequest(w, owner, rest.(phase := Recording(w.next, next, dispatches, call.CompleteVerification?)),
                    Replace(p.fence.value, next), call.CompleteVerification?)
  }

  function RecordReplyStep(w: World, owner: nat): World
    requires owner in w.clients && w.clients[owner].phase.Recording? && Answered(w, w.clients[owner].phase.id)
  {
    var p := w.clients[owner];
    if w.exchanges[p.phase.id].won == Some(true) then
      var f := p.fence.(value := p.phase.next, uncertain := p.phase.dispatches,
                        verificationPending := p.fence.verificationPending && !p.phase.completes);
      WithParty(w, owner, p.(fence := f, phase := if p.phase.dispatches then Ready else Idle))
    else
      WithParty(w, owner, p.(fence := p.fence.(uncertain := true), phase := Stopped))
  }

  function EndStep(w: World, owner: nat): World
    requires owner in w.clients && w.clients[owner].phase.Idle?
  {
    var p := w.clients[owner];
    if MayFinish(p.fence)
    then SendRequest(w, owner, p.(phase := Releasing(w.next)), Remove(p.fence.value), false)
    else WithParty(w, owner, p.(phase := Stopped))
  }

  // ---------- the provider ----------

  function SendStep(w: World, owner: nat): World
    requires owner in w.clients && w.clients[owner].phase.Ready?
  {
    var p := w.clients[owner];
    var r := p.fence.value.record;
    w.(clients := w.clients[owner := p.(phase := Dispatched(w.next))],
       dispatches := w.dispatches[w.next := Dispatch(owner, r, InFlight)],
       debt := w.debt || IncursDebt(r.step),
       next := w.next + 1)
  }

  function TakeEffectStep(w: World, pid: nat): World
    requires pid in w.dispatches
  {
    var d := w.dispatches[pid];
    var removesDatabase := d.started.step == DeleteD1Database;
    w.(dispatches := w.dispatches[pid := d.(outcome := TookEffect)],
       published := if d.started.step == UploadWorker && d.started.uploadTag.Some?
                    then w.published + {d.started.uploadTag.value} else w.published,
       database := w.database && !removesDatabase,
       debt := w.debt && !removesDatabase)
  }

  function RefuseStep(w: World, pid: nat): World
    requires pid in w.dispatches
  {
    w.(dispatches := w.dispatches[pid := w.dispatches[pid].(outcome := Refused)])
  }

  /** A removal that finds its resource already gone (404) counts as done. */
  predicate RemovesResource(step: Step) { step == DeleteWorker || step == DeleteR2Bucket || step == DeleteD1Database }

  predicate ProviderAnswered(w: World, owner: nat) {
    && owner in w.clients && w.clients[owner].phase.Dispatched?
    && w.clients[owner].phase.pid in w.dispatches
    && w.dispatches[w.clients[owner].phase.pid].outcome != InFlight
  }

  function ProviderReplyStep(w: World, owner: nat, alreadyGone: bool): World
    requires ProviderAnswered(w, owner)
  {
    var p := w.clients[owner];
    var step := p.fence.value.record.step;
    var done := w.dispatches[p.phase.pid].outcome == TookEffect || (alreadyGone && RemovesResource(step));
    if done && step == DeleteD1Database then
      WithParty(w, owner, p.(fence := p.fence.(databaseRemoved := true, uncertain := false), phase := Idle))
    else
      var next := ByClient(NextRecord(p.fence, step, if done then Confirmed else Rejected, None, None));
      SendRequest(w, owner, p.(phase := Recording(w.next, next, false, false)), Replace(p.fence.value, next), false)
  }

  // ---------- operator ----------

  /** Every deployment client has stopped and no provider request can still take effect. */
  predicate Quiescent(w: World) {
    && (forall o :: o in w.clients ==> w.clients[o].phase == Stopped)
    && (forall pid :: pid in w.dispatches ==> w.dispatches[pid].outcome != InFlight)
  }

  // ---------- steps and runs ----------

  predicate Enabled(w: World, e: Event) {
    match e
    case Acquire(a, registered) => MayAttempt(w, a, registered)
    case Commit(id) => w.database && id in w.exchanges && w.exchanges[id].won.None?
    case AcquireReply(o) => o in w.clients && w.clients[o].phase.Acquiring? && Answered(w, w.clients[o].phase.id)
    case Use(o) => o in w.clients && w.clients[o].phase.Idle? && w.clients[o].calls != []
    case RecordReply(o) => o in w.clients && w.clients[o].phase.Recording? && Answered(w, w.clients[o].phase.id)
    case Send(o) => o in w.clients && w.clients[o].phase.Ready?
    case TakeEffect(pid) => pid in w.dispatches && w.dispatches[pid].outcome == InFlight
    case Refuse(pid) => pid in w.dispatches && w.dispatches[pid].outcome == InFlight
    case ProviderReply(o, _) => ProviderAnswered(w, o)
    case End(o) => o in w.clients && w.clients[o].phase.Idle?
    case Stop(o) => o in w.clients
    case PromoteUpload(value, worker, live, fingerprint) =>
      && value in w.seen && PromotesUpload(value.record, worker, live, fingerprint)
      && value.record.uploadTag.value in w.published
    case UnlockSettled(value, worker, live, fingerprint, registered) =>
      value in w.seen && RecoveryDecision(value.record, worker, live, fingerprint, registered) == Unlock
    case OperatorSettles(value) => Quiescent(w) && w.row == Some(value)
    case OperatorReleases(value) => Quiescent(w) && w.row == Some(value) && !Flagged(value.record)
  }

  function Apply(w: World, e: Event): World
    requires Enabled(w, e)
  {
    match e
    case Acquire(a, _) => AcquireStep(w, a)
    case Commit(id) => CommitStep(w, id)
    case AcquireReply(o) => AcquireReplyStep(w, o)
    case Use(o) => UseStep(w, o)
    case RecordReply(o) => RecordReplyStep(w, o)
    case Send(o) => SendStep(w, o)
    case TakeEffect(pid) => TakeEffectStep(w, pid)
    case Refuse(pid) => RefuseStep(w, pid)
    case ProviderReply(o, alreadyGone) => ProviderReplyStep(w, o, alreadyGone)
    case End(o) => EndStep(w, o)
    case Stop(o) => WithParty(w, o, w.clients[o].(phase := Stopped))
    case PromoteUpload(value, _, _, _) =>
      SendAnonymous(w, Replace(value, ByClient(value.record.(stepState := Confirmed))))
    case UnlockSettled(value, _, _, _, _) => SendAnonymous(w, Remove(value))
    case OperatorSettles(value) => SendAnonymous(w, Replace(value, ByOperator(value.record.(stepState := Settled))))
    case OperatorReleases(value) => SendAnonymous(w, Remove(value))
  }

  /** The worlds of a run, one more than its events. */
  ghost predicate IsRun(ws: seq<World>, es: seq<Event>) {
    && |ws| == |es| + 1 && ws[0] == INITIAL
    && forall i :: 0 <= i < |es| ==> Enabled(ws[i], es[i]) && ws[i + 1] == Apply(ws[i], es[i])
  }
}
