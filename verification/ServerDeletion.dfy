/**
 Terminal deletion of a server (delete.ts) as a phase machine. Each provider call may be refused, lost
 or land late, the process may stop at any call, and an attempt may run again from its saved or its
 in-memory job. Nothing else removes or recreates the server's resources meanwhile.
 */
module ServerDeletion {
  import opened Common

  datatype Phase = RemovingWorker | ClearingBucket | RemovingDatabase | RemovingHelper | Complete

  function Order(p: Phase): nat {
    match p
    case RemovingWorker => 0
    case ClearingBucket => 1
    case RemovingDatabase => 2
    case RemovingHelper => 3
    case Complete => 4
  }

  /** The deletion job: its phase, and the receipt of a helper upload made without a fence. */
  datatype Job = Job(phase: Phase, helperUploadPending: Option<nat>)

  /** Provider requests. Removing the Worker makes the provider remove its namespaces in turn. */
  datatype Request =
    | DeleteWorker | RemoveNamespaces | DeleteObjects | DeleteBucket | DeleteDatabase | DeleteHelper | EnableHelper
    | UploadHelper(tag: nat)

  /** A request that took effect, with what existed at that moment. */
  datatype Effect = Effect(request: Request, worker: bool, namespaces: bool, bucket: bool, database: bool)

  /** `row` is the upload the fence row records as started; it goes with the database. */
  datatype World = World(
    worker: bool, namespaces: bool, bucket: bool, database: bool, helper: Option<nat>, row: Option<nat>,
    inFlight: set<Request>, memory: Job, saved: Job, tags: nat, effects: seq<Effect>)

  // ---------- the order of removal ----------

  /** A removal that finds its resource already gone (404) counts as done. */
  predicate RemovesResource(r: Request) {
    r == DeleteWorker || r == DeleteBucket || r == DeleteDatabase || r == DeleteHelper
  }

  /** May a request take effect while these still exist? */
  predicate InOrder(r: Request, worker: bool, namespaces: bool, bucket: bool, database: bool) {
    match r
    case DeleteObjects => !worker && !namespaces
    case DeleteBucket => !worker && !namespaces
    case DeleteDatabase => !worker && !namespaces && !bucket
    case DeleteHelper => !worker && !namespaces && !bucket && !database
    case UploadHelper(_) => !worker && !namespaces
    case _ => true
  }

  predicate NoUploads(w: World) {
    forall r :: r in w.inFlight ==> !r.UploadHelper?
  }

  /** An upload that may still land is recorded where the next attempt looks before it goes on. */
  predicate Receipted(w: World, tag: nat) {
    || (w.database && DeleteDatabase !in w.inFlight && w.row == Some(tag))
    || (w.memory.helperUploadPending == Some(tag) && w.saved.helperUploadPending == Some(tag))
  }

  /** What a phase promises about the server. */
  predicate Reached(w: World, p: Phase) {
    && (Order(p) >= 1 ==> !w.worker && !w.namespaces)
    && (Order(p) >= 2 ==> !w.bucket)
    && (Order(p) >= 3 ==> !w.database)
    && (Order(p) >= 4 ==> w.helper == None && NoUploads(w))
  }

  /** Every request that took effect did so in order, and so will those still in flight. */
  ghost predicate Ordered(w: World) {
    && (forall i :: 0 <= i < |w.effects| ==> EffectInOrder(w.effects[i]))
    && (forall r :: r in w.inFlight ==> InOrder(r, w.worker, w.namespaces, w.bucket, w.database))
    && (RemoveNamespaces in w.inFlight ==> !w.worker)
  }

  predicate EffectInOrder(e: Effect) {
    InOrder(e.request, e.worker, e.namespaces, e.bucket, e.database)
  }

  /** At most one helper upload can still land, and it is receipted. */
  ghost predicate UploadsOk(w: World) {
    && (forall r :: r in w.inFlight && r.UploadHelper? ==>
      r.tag < w.tags && w.helper != Some(r.tag) && Receipted(w, r.tag))
    && (forall r, q :: r in w.inFlight && q in w.inFlight && r.UploadHelper? && q.UploadHelper? ==> r == q)
    && (w.helper.Some? ==> w.helper.value < w.tags)
    && (w.memory.helperUploadPending.Some? || w.saved.helperUploadPending.Some? ==> !w.database)
  }

  predicate PhasesOk(w: World) {
    Reached(w, w.memory.phase) && Reached(w, w.saved.phase) && Order(w.saved.phase) <= Order(w.memory.phase)
  }

  ghost predicate Safe(w: World) {
    Ordered(w) && UploadsOk(w) && PhasesOk(w)
  }

  // ---------- requests land ----------

  function Land(w: World, r: Request): World {
    if r !in w.inFlight then w
    else
      var done := w.(inFlight := w.inFlight - {r}, effects :=
        w.effects + [Effect(r, w.worker, w.namespaces, w.bucket, w.database)]);
      match r
      case DeleteWorker =>
        if w.worker then done.(worker := false, inFlight := done.inFlight + {RemoveNamespaces}) else done
      case RemoveNamespaces => done.(namespaces := false)
      case DeleteBucket => done.(bucket := false)
      case DeleteDatabase => done.(database := false)
      case DeleteHelper => done.(helper := None)
      case UploadHelper(tag) => done.(helper := Some(tag))
      case _ => done
  }

  function LandAll(w: World, rs: seq<Request>): World {
    if rs == [] then w else Land(LandAll(w, rs[..|rs| - 1]), rs[|rs| - 1])
  }

  /** What stays so while earlier requests land. */
  ghost predicate Later(a: World, b: World) {
    && (b.worker ==> a.worker) && (b.namespaces ==> a.namespaces) && (b.bucket ==> a.bucket)
       && (b.database ==> a.database)
    && b.memory == a.memory && b.saved == a.saved && b.row == a.row && b.tags == a.tags
    && (forall r :: r in b.inFlight && r != RemoveNamespaces ==> r in a.inFlight)
    && (a.database && DeleteDatabase !in a.inFlight ==> b.database)
    && (NoUploads(a) ==> b.helper == a.helper || b.helper == None)
    && a.effects <= b.effects
  }

  lemma LandOrdered(w: World, r: Request)
    requires Ordered(w)
    ensures Ordered(Land(w, r))
  {
    var w' := Land(w, r);
    forall i | 0 <= i < |w'.effects| ensures EffectInOrder(w'.effects[i]) {
      if i < |w.effects| { assert w'.effects[i] == w.effects[i]; }
    }
  }

  lemma LandUploads(w: World, r: Request)
    requires Ordered(w) && UploadsOk(w)
    ensures UploadsOk(Land(w, r))
  {
    hide InOrder;
  }

  lemma LandPhases(w: World, r: Request)
    requires PhasesOk(w)
    ensures PhasesOk(Land(w, r))
  {
  }

  lemma LandLater(w: World, r: Request)
    ensures Later(w, Land(w, r))
  {
  }

  lemma LandKeeps(w: World, r: Request)
    requires Safe(w)
    ensures Safe(Land(w, r)) && Later(w, Land(w, r))
  {
    LandOrdered(w, r);
    LandUploads(w, r);
    LandPhases(w, r);
    LandLater(w, r);
  }

  lemma LaterChains(a: World, b: World, c: World)
    requires Later(a, b) && Later(b, c)
    ensures Later(a, c)
  {
  }

  lemma {:induction false} LandAllKeeps(w: World, rs: seq<Request>)
    requires Safe(w)
    ensures Safe(LandAll(w, rs)) && Later(w, LandAll(w, rs))
  {
    hide Safe, Land, Later, NoUploads;
    if rs == [] {
      LaterSelf(w);
    } else {
      LandAllKeeps(w, rs[..|rs| - 1]);
      LandKeeps(LandAll(w, rs[..|rs| - 1]), rs[|rs| - 1]);
      LaterChains(w, LandAll(w, rs[..|rs| - 1]), LandAll(w, rs));
    }
  }

  lemma LaterSelf(w: World)
    ensures Later(w, w)
  {
  }

  // ---------- one attempt ----------

  /** `Gone` is a 404, `Refused` another definitive rejection; a `Lost` request may still land. */
  datatype Answer = Succeeds | Gone | Refused | Lost

  datatype Outcome = Failed | Blocked | Paused | Continues

  datatype Resources = Resources(worker: bool, namespaces: bool, bucket: bool, database: bool)

  /** Resources only disappear, and the job stays. */
  predicate Fewer(a: World, b: World) {
    && (b.worker ==> a.worker) && (b.namespaces ==> a.namespaces) && (b.bucket ==> a.bucket)
       && (b.database ==> a.database)
    && b.memory == a.memory && b.saved == a.saved && b.tags == a.tags && a.effects <= b.effects
  }

  ghost predicate Clear(w: World) { Safe(w) && NoUploads(w) }

  /** A request that may be sent now. */
  ghost predicate Sendable(w: World, r: Request) {
    && r != RemoveNamespaces && InOrder(r, w.worker, w.namespaces, w.bucket, w.database)
    && (r.UploadHelper? ==>
      r.tag < w.tags && w.helper != Some(r.tag) && Receipted(w, r.tag) && w.memory.phase != Complete)
    && (r == DeleteDatabase ==> NoUploads(w))
  }

  lemma SendableLater(a: World, b: World, r: Request)
    requires Later(a, b) && Sendable(a, r) && NoUploads(a)
    ensures Sendable(b, r) && NoUploads(b)
  {
  }

  lemma SendKeeps(w: World, r: Request)
    requires Clear(w) && Sendable(w, r)
    ensures Safe(w.(inFlight := w.inFlight + {r}))
  {
  }

  /** What one request may change: it lands, is lost or was never taken up. */
  ghost predicate Sends(a: World, b: World, r: Request) {
    && Fewer(a, b)
    && (r != DeleteDatabase && DeleteDatabase !in a.inFlight ==>
          DeleteDatabase !in b.inFlight && b.database == a.database)
    && (!r.UploadHelper? ==> (b.helper == a.helper || b.helper == None) && NoUploads(b))
  }

  lemma WaitedSends(a: World, b: World, r: Request)
    requires Later(a, b) && NoUploads(a)
    ensures var sent := b.(inFlight := b.inFlight + {r});
      Sends(a, b, r) && Sends(a, sent, r) && Sends(a, Land(sent, r), r)
      && NoUploads(b) && NoUploads(Land(sent, r)) && (r.UploadHelper? ==> Land(sent, r).helper == Some(r.tag))
  {
  }

  lemma SendsBoth(a: World, b: World, c: World, r: Request)
    requires Sends(a, b, r) && Sends(b, c, r) && !r.UploadHelper?
    ensures Sends(a, c, r)
  {
  }

  lemma RecordSends(a: World, b: World, r: Request)
    requires Later(a.(row := b.row), b) && NoUploads(a)
    ensures Sends(a, b, r)
  {
  }

  lemma RecordKeepsSendable(a: World, b: World, r: Request)
    requires Later(a.(row := b.row), b) && Sendable(a, r) && NoUploads(a) && !r.UploadHelper?
    ensures Sendable(b, r)
  {
  }

  /** Over any stretch of an attempt, resources only disappear and the saved phase never moves back. */
  predicate Moves(a: World, b: World) {
    && (b.worker ==> a.worker) && (b.namespaces ==> a.namespaces) && (b.bucket ==> a.bucket)
       && (b.database ==> a.database)
    && Order(a.saved.phase) <= Order(b.saved.phase) && Order(a.memory.phase) <= Order(b.memory.phase)
    && a.effects <= b.effects
  }

  // ---------- an undisturbed attempt ----------

  /** The namespaces of a removed Worker go before anything else happens. */
  function Rested(w: World): World { Land(w, RemoveNamespaces) }

  /** Nothing else is in flight. */
  predicate Idle(w: World) { w.inFlight <= {RemoveNamespaces} }

  /** A request is sent and takes effect at once. */
  function Sent(w: World, r: Request): World {
    Land(Rested(w).(inFlight := Rested(w).inFlight + {r}), r)
  }

  function Requests(effects: seq<Effect>): (rs: seq<Request>)
    ensures |rs| == |effects|
  {
    seq(|effects|, i requires 0 <= i < |effects| => effects[i].request)
  }

  function Repeated(r: Request, n: nat): (rs: seq<Request>)
    ensures |rs| == n && forall i :: 0 <= i < n ==> rs[i] == r
  {
    seq(n, i => r)
  }

  predicate Uploads(rs: seq<Request>) {
    exists i :: 0 <= i < |rs| && rs[i].UploadHelper?
  }

  /** Between two moments exactly these requests took effect, and removed what they remove. */
  predicate Took(a: World, b: World, rs: seq<Request>) {
    var x, y := Rested(a), Rested(b);
    && Idle(b) && Requests(y.effects) == Requests(x.effects) + rs
    && y.worker == (x.worker && DeleteWorker !in rs) && y.namespaces == (x.namespaces && RemoveNamespaces !in rs)
    && y.bucket == (x.bucket && DeleteBucket !in rs) && y.database == (x.database && DeleteDatabase !in rs)
    && (!Uploads(rs) ==> y.tags == x.tags && (DeleteHelper !in rs ==> y.helper == x.helper))
  }

  lemma TookNothing(a: World)
    requires Idle(a)
    ensures Took(a, a, []) && Took(a, Rested(a), []) && Rested(Rested(a)) == Rested(a) && Idle(Rested(a))
  {
  }

  lemma TookBoth(a: World, b: World, c: World, rs: seq<Request>, qs: seq<Request>)
    requires Took(a, b, rs) && Took(b, c, qs)
    ensures Took(a, c, rs + qs)
  {
    hide Land, Requests;
    if Uploads(rs) {
      var i :| 0 <= i < |rs| && rs[i].UploadHelper?;
      assert (rs + qs)[i].UploadHelper?;
    }
    if Uploads(qs) {
      var i :| 0 <= i < |qs| && qs[i].UploadHelper?;
      assert (rs + qs)[|rs| + i].UploadHelper?;
    }
  }

  /** What a request that is sent leads to. */
  function Consequences(r: Request): seq<Request> {
    if r == DeleteWorker then [DeleteWorker, RemoveNamespaces] else [r]
  }

  lemma TookOne(a: World, r: Request)
    requires Idle(a) && r != RemoveNamespaces && (r == DeleteWorker ==> Rested(a).worker)
    ensures Took(a, Sent(a, r), Consequences(r)) && (r.UploadHelper? ==> Sent(a, r).helper == Some(r.tag))
  {
    assert Consequences(r)[0] == r;
  }

  /** Worlds that differ in the job and the fence row alone. */
  predicate SameServer(a: World, b: World) {
    b == a.(row := b.row, memory := b.memory, saved := b.saved)
  }

  lemma TookAcross(a: World, b: World, c: World, d: World, rs: seq<Request>)
    requires SameServer(Rested(a), Rested(b)) && Took(b, c, rs) && SameServer(Rested(c), Rested(d)) && Idle(d)
    ensures Took(a, d, rs)
  {
  }

  lemma SentIsIdle(a: World, r: Request)
    requires Idle(a) && r != RemoveNamespaces
    ensures Idle(Sent(a, r))
  {
  }

  /** A request that takes effect at once if it is sent. */
  predicate Ready(w: World, r: Request, fenced: bool) {
    Idle(w) && (fenced ==> w.database) && (r == DeleteWorker ==> Rested(w).worker)
  }

  lemma RestIsIdle(w: World)
    requires Idle(w)
    ensures Idle(Rested(w).(row := None)) && Rested(w).database == w.database && DeleteDatabase !in w.inFlight
  {
  }

  lemma ReadyIsIdle(w: World, r: Request, fenced: bool)
    requires Ready(w, r, fenced) && r != RemoveNamespaces
    ensures Idle(w) && (fenced ==> w.database) && DeleteDatabase !in w.inFlight && Rested(w).database == w.database
    ensures Idle(Sent(w, r)) && Idle(Rested(w).(row := None)) && Idle(Sent(Rested(w).(row := None), r))
  {
    RestIsIdle(w);
    SentIsIdle(w, r);
    SentIsIdle(Rested(w).(row := None), r);
  }

  lemma SentStaysThere(start: World, before: World, r: Request, fenced: bool)
    requires Ready(start, r, fenced) && r != RemoveNamespaces
    requires before == start || before == Rested(start).(row := None)
    ensures r != DeleteDatabase ==> Sent(before, r).database == start.database
  {
  }

  lemma MutateTook(start: World, before: World, after: World, end: World, r: Request, fenced: bool)
    requires Ready(start, r, fenced) && r != RemoveNamespaces
    requires before == start || before == Rested(start).(row := None)
    requires after == Sent(before, r) && (end == after || end == Rested(after).(row := None))
    ensures Took(start, end, Consequences(r))
  {
    TookOne(before, r);
    TookAcross(start, before, after, end, Consequences(r));
  }

  /** What the code did around a recorded receipt. */
  lemma ReceiptIsIdle(tagged: World, before: World, tag: nat)
    requires Idle(tagged) && SameServer(Rested(tagged), before)
    ensures Idle(before) && Idle(Sent(before, UploadHelper(tag)))
    ensures Sent(before, UploadHelper(tag)).database == tagged.database
  {
  }

  /** Recording a receipt, uploading, clearing the receipt: the upload alone took effect. */
  lemma PublishTook(start: World, before: World, after: World, cleared: World, tag: nat)
    requires Idle(start) && SameServer(Rested(start), before)
    requires after == Sent(before, UploadHelper(tag)) && SameServer(Rested(after), cleared)
    ensures Idle(cleared) && Took(start, cleared, [UploadHelper(tag)]) && Rested(cleared).helper == Some(tag)
  {
    assert [UploadHelper(tag)][0].UploadHelper?;
  }

  /** Choosing a tag changes nothing else. */
  lemma TagTook(start: World, uploaded: World, tag: nat)
    requires Idle(start) && Idle(uploaded) && Took(start.(tags := start.tags + 1), uploaded, [UploadHelper(tag)])
    ensures Took(start, uploaded, [UploadHelper(tag)]) && Took(start, Rested(uploaded), [UploadHelper(tag)])
  {
    assert [UploadHelper(tag)][0].UploadHelper?;
  }

  lemma {:induction false} LandAllIdle(w: World, rs: seq<Request>)
    requires Idle(w)
    ensures LandAll(w, rs) == if RemoveNamespaces in rs then Rested(w) else w
  {
    if rs != [] { LandAllIdle(w, rs[..|rs| - 1]); }
  }

  /** An attempt may begin undisturbed: nothing is in flight, and a recorded upload of the helper has landed. */
  predicate Undisturbed(w: World) {
    && w.inFlight == {} && (w.namespaces ==> w.worker) && (w.row.Some? ==> w.row == w.helper)
    && (w.memory.helperUploadPending.Some? ==> w.memory.helperUploadPending == w.helper)
  }

  function BucketRemovals(tag: nat, batches: nat): seq<Request> {
    [UploadHelper(tag), EnableHelper] + Repeated(DeleteObjects, batches) + [DeleteBucket]
  }

  function WorkerRemovals(present: bool): seq<Request> {
    if present then [DeleteWorker, RemoveNamespaces] else []
  }

  function DatabaseRemovals(present: bool): seq<Request> {
    if present then [DeleteDatabase] else []
  }

  function HelperRemovals(present: bool): seq<Request> {
    if present then [DeleteHelper] else []
  }

  /** What is there to be removed, up to the database. */
  function ResourceRemovals(w: World, batches: nat): seq<Request> {
    WorkerRemovals(w.worker) + (if w.bucket then BucketRemovals(w.tags, batches) else [])
    + DatabaseRemovals(w.database)
  }

  function StorageRemovals(w: World, batches: nat): seq<Request> {
    (if Rested(w).bucket then BucketRemovals(w.tags, batches) else []) + DatabaseRemovals(Rested(w).database)
  }

  /** Everything that an undisturbed attempt removes, in order. */
  function Removals(w: World, batches: nat): seq<Request> {
    ResourceRemovals(w, batches) + HelperRemovals(w.bucket || w.helper.Some?)
  }

  predicate NothingLeft(w: World) {
    !w.worker && !w.namespaces && !w.bucket && !w.database
  }

  /** The storage is removed undisturbed. */
  predicate StorageIdle(w: World, bucket: bool, fenced: bool) {
    Idle(w) && !Rested(w).worker && !Rested(w).namespaces && bucket == Rested(w).bucket
    && fenced == Rested(w).database
  }

  /** Removal starts undisturbed. */
  predicate Startable(w: World, fenced: bool) {
    w.inFlight == {} && (w.namespaces ==> w.worker) && fenced == w.database
  }

  lemma StorageStarts(start: World, bucket: bool, fenced: bool)
    requires StorageIdle(start, bucket, fenced) && !start.worker && !start.namespaces
    ensures Idle(start) && (bucket ==> Emptyable(start, fenced))
  {
  }

  lemma StorageGoesOn(start: World, w: World, bucket: bool, fenced: bool, batches: nat)
    requires StorageIdle(start, bucket, fenced)
    requires if bucket then Took(start, w, BucketRemovals(start.tags, batches)) else w == start
    ensures Idle(w) && !Rested(w).bucket && Rested(w).database == Rested(start).database
  {
    if bucket {
      var rs := BucketRemovals(start.tags, batches);
      assert rs[|rs| - 1] == DeleteBucket;
      assert DeleteDatabase !in rs;
    }
  }

  lemma StorageTook(start: World, middle: World, w: World, bucket: bool, fenced: bool, batches: nat)
    requires StorageIdle(start, bucket, fenced)
    requires if bucket then Took(start, middle, BucketRemovals(start.tags, batches)) else middle == start
    requires Rested(middle).database == Rested(start).database
    requires Took(middle, w, DatabaseRemovals(Rested(middle).database))
    ensures Took(start, w, StorageRemovals(start, batches)) && Rested(w).helper == Rested(middle).helper
  {
    var ds := DatabaseRemovals(Rested(start).database);
    assert !Uploads(ds) && DeleteHelper !in ds;
    if bucket {
      TookMore(start, middle, w, BucketRemovals(start.tags, batches), ds);
    } else {
      assert [] + ds == ds;
    }
  }

  lemma StartIsIdle(start: World, fenced: bool)
    requires Startable(start, fenced)
    ensures Idle(start) && Rested(start) == start && (fenced ==> start.database)
  {
  }

  lemma NothingToRemove(start: World, w: World, batches: nat)
    requires w == start && Idle(start) && Rested(start) == start && NothingLeft(start)
    ensures Took(start, w, ResourceRemovals(start, batches))
  {
    TookNothing(start);
    assert ResourceRemovals(start, batches) == [];
  }

  lemma LateIsEmpty(w: World)
    requires Safe(w)
    ensures w.memory.phase == RemovingHelper || w.memory.phase == Complete ==> NothingLeft(w)
  {
  }

  lemma WorkerGone(start: World, seen: World, w: World, fenced: bool)
    requires Startable(start, fenced) && seen == start && Took(seen, w, WorkerRemovals(start.worker))
    ensures Idle(w) && !Rested(w).worker && !Rested(w).namespaces && Took(start, w, WorkerRemovals(start.worker))
  {
    var rs := WorkerRemovals(start.worker);
    assert start.worker ==> rs[0] == DeleteWorker && rs[1] == RemoveNamespaces;
  }

  lemma StorageNext(start: World, gone: World, w: World, bucket: bool, fenced: bool)
    requires Startable(start, fenced) && Took(start, gone, WorkerRemovals(start.worker)) && Took(gone, w, [])
    requires bucket == Rested(gone).bucket
    ensures StorageIdle(w, bucket, fenced) && Took(start, w, WorkerRemovals(start.worker))
    ensures bucket == start.bucket && Rested(w).database == start.database && Rested(w).tags == start.tags
      && Rested(w).helper == start.helper
  {
    TookMore(start, gone, w, WorkerRemovals(start.worker), []);
    var ws := WorkerRemovals(start.worker);
    assert !Uploads(ws) && !Uploads([]) && DeleteHelper !in ws;
    assert start.worker ==> ws[0] == DeleteWorker && ws[1] == RemoveNamespaces;
  }

  lemma ResourcesTook(start: World, middle: World, w: World, bucket: bool, fenced: bool, batches: nat)
    requires Took(start, middle, WorkerRemovals(start.worker)) && Took(middle, w, StorageRemovals(middle, batches))
    requires bucket == start.bucket == Rested(middle).bucket && Rested(middle).database == start.database
    requires Rested(middle).tags == start.tags
    ensures Took(start, w, ResourceRemovals(start, batches))
  {
    assert Rested(middle).tags == middle.tags;
    TookMore(start, middle, w, WorkerRemovals(start.worker), StorageRemovals(middle, batches));
    assert ResourceRemovals(start, batches) == WorkerRemovals(start.worker) + StorageRemovals(middle, batches);
  }

  lemma HelperTook(start: World, read: World, w: World)
    requires Idle(start) && read == Rested(start)
    requires w == if read.helper.Some? then Sent(read, DeleteHelper) else read
    ensures Idle(w) && Rested(w).helper.None? && Took(start, Rested(w), HelperRemovals(read.helper.Some?))
  {
    TookNothing(start);
    if read.helper.Some? {
      TookOne(read, DeleteHelper);
      TookMore(start, read, w, [], [DeleteHelper]);
      assert [] + [DeleteHelper] == [DeleteHelper];
      TookNothing(w);
      TookMore(start, w, Rested(w), [DeleteHelper], []);
    }
  }

  lemma UndisturbedIsIdle(w: World)
    requires Undisturbed(w)
    ensures Idle(w) && Rested(w) == w && Startable(w, w.database)
  {
  }

  lemma SameSteps(a: World, b: World, c: World)
    requires Undisturbed(a) && Undisturbed(c) && (b == a || SameServer(a, b)) && (c == b || SameServer(b, c))
    ensures SameServer(a, c) && Undisturbed(c) && Startable(c, a.database)
  {
  }

  lemma HelperLeft(start: World, ready: World, w: World, batches: nat)
    requires Undisturbed(start) && SameServer(start, ready) && Took(ready, w, ResourceRemovals(ready, batches))
    requires ready.bucket ==> Rested(w).helper.Some?
    ensures Idle(w) && NothingLeft(Rested(w)) && Rested(w).helper.Some? == (start.bucket || start.helper.Some?)
    ensures Took(start, w, ResourceRemovals(start, batches))
  {
    var rs := ResourceRemovals(start, batches);
    TookAcross(start, ready, w, w, rs);
    RemovesAll(start, batches);
  }

  lemma RemovesAll(start: World, batches: nat)
    ensures var rs := ResourceRemovals(start, batches);
      && (start.worker ==> DeleteWorker in rs && RemoveNamespaces in rs)
      && (start.bucket ==> DeleteBucket in rs) && (start.database ==> DeleteDatabase in rs)
      && (!start.bucket ==> !Uploads(rs) && DeleteHelper !in rs)
  {
    var ws, ds := WorkerRemovals(start.worker), DatabaseRemovals(start.database);
    var bs := if start.bucket then BucketRemovals(start.tags, batches) else [];
    assert start.worker ==> ws[0] == DeleteWorker && ws[1] == RemoveNamespaces;
    assert start.database ==> ds[0] == DeleteDatabase;
    assert start.bucket ==> bs[|bs| - 1] == DeleteBucket;
    assert ResourceRemovals(start, batches) == ws + bs + ds;
  }

  lemma AttemptTook(start: World, ready: World, left: World, end: World, batches: nat)
    requires Took(start, left, ResourceRemovals(start, batches))
    requires Rested(left).helper.Some? == (start.bucket || start.helper.Some?)
    requires Took(left, end, HelperRemovals(Rested(left).helper.Some?))
    ensures Took(start, end, Removals(start, batches))
  {
    TookMore(start, left, end, ResourceRemovals(start, batches), HelperRemovals(Rested(left).helper.Some?));
  }

  lemma TookMore(a: World, b: World, c: World, rs: seq<Request>, qs: seq<Request>)
    requires Took(a, b, rs) && Took(b, c, qs)
    ensures Took(a, c, rs + qs) && (qs == [] ==> Took(a, c, rs)) && (rs == [] ==> Took(a, c, qs))
  {
    TookBoth(a, b, c, rs, qs);
    assert qs == [] ==> rs + qs == rs;
    assert rs == [] ==> rs + qs == qs;
  }

  lemma StartTook(start: World, seen: World, saved: World, present: bool, fenced: bool)
    requires Idle(start) && seen == Rested(start) && Took(seen, saved, []) && present == seen.database
    ensures Took(start, saved, []) && (present ==> Ready(saved, DeleteDatabase, fenced))
  {
    TookNothing(start);
    TookMore(start, seen, saved, [], []);
  }

  lemma DatabaseTook(start: World, saved: World, end: World, present: bool)
    requires Took(start, saved, []) && present == Rested(start).database
    requires if present then Took(saved, end, Consequences(DeleteDatabase)) else end == saved
    ensures Idle(end) && !Rested(end).database && Took(start, end, DatabaseRemovals(present))
  {
    if present { TookMore(start, saved, end, [], [DeleteDatabase]); }
    assert [] + [DeleteDatabase] == [DeleteDatabase];
  }

  /** The server is gone, its bucket and the helper are there. */
  predicate Cleared(w: World, tag: nat) {
    var x := Rested(w);
    Idle(w) && !x.worker && !x.namespaces && x.bucket && x.helper == Some(tag)
  }

  function EmptyingCalls(tag: nat, n: nat): seq<Request> {
    [UploadHelper(tag), EnableHelper] + Repeated(DeleteObjects, n)
  }

  /** The helper is up, and `n` batches of objects are gone. */
  predicate Emptying(start: World, w: World, tag: nat, fenced: bool, n: nat) {
    Took(start, w, EmptyingCalls(tag, n)) && Cleared(w, tag) && (fenced ==> w.database)
  }

  /** The server that the removal of a bucket starts from. */
  predicate Emptyable(start: World, fenced: bool) {
    Idle(start) && !start.worker && !start.namespaces && start.bucket && (fenced ==> start.database)
  }

  lemma HelperReady(start: World, w: World, tag: nat, fenced: bool)
    requires Emptyable(start, fenced) && Took(start, w, [UploadHelper(tag)]) && w.helper == Some(tag)
    ensures Cleared(w, tag) && Ready(w, EnableHelper, fenced)
  {
  }

  lemma HelperEnabled(start: World, published: World, w: World, tag: nat, fenced: bool)
    requires Emptyable(start, fenced) && Took(start, published, [UploadHelper(tag)]) && Cleared(published, tag)
    requires Took(published, w, Consequences(EnableHelper))
    ensures Emptying(start, w, tag, fenced, 0)
  {
    assert !Uploads([EnableHelper]);
    TookBoth(start, published, w, [UploadHelper(tag)], [EnableHelper]);
    assert [UploadHelper(tag)] + [EnableHelper] == EmptyingCalls(tag, 0);
  }

  lemma EmptyingIsCleared(start: World, w: World, tag: nat, fenced: bool, n: nat)
    requires Emptying(start, w, tag, fenced, n)
    ensures Cleared(w, tag) && (fenced ==> w.database)
  {
  }

  lemma VerifiedIsReady(start: World, verified: World, r: Request, tag: nat, fenced: bool)
    requires Cleared(start, tag) && (fenced ==> start.database) && Took(start, verified, [])
    requires r == DeleteObjects || r == DeleteBucket
    ensures Ready(verified, r, fenced)
  {
  }

  lemma FewerMoves(a: World, b: World)
    requires Fewer(a, b)
    ensures Moves(a, b) && b.memory == a.memory && b.saved == a.saved && b.tags == a.tags
  {
  }

  lemma LaterIsFewer(a: World, b: World)
    requires Later(a.(row := b.row), b)
    ensures Fewer(a, b)
  {
  }

  lemma FewerBoth(a: World, b: World, c: World)
    requires Fewer(a, b) && Fewer(b, c)
    ensures Fewer(a, c)
  {
  }

  lemma MovesBoth(a: World, b: World, c: World)
    requires Moves(a, b) && Moves(b, c)
    ensures Moves(a, c)
  {
  }

  lemma ObjectsRemoved(start: World, verified: World, w: World, tag: nat, fenced: bool, n: nat)
    requires Emptying(start, verified, tag, fenced, n) && Took(verified, w, [DeleteObjects])
    ensures Emptying(start, w, tag, fenced, n + 1)
  {
    assert !Uploads([DeleteObjects]);
    TookBoth(start, verified, w, EmptyingCalls(tag, n), [DeleteObjects]);
    assert EmptyingCalls(tag, n) + [DeleteObjects] == EmptyingCalls(tag, n + 1);
  }

  lemma BucketRemoved(start: World, verified: World, w: World, tag: nat, fenced: bool, n: nat)
    requires Emptying(start, verified, tag, fenced, n) && Took(verified, w, [DeleteBucket])
    ensures Took(start, w, BucketRemovals(tag, n)) && Rested(w).helper == Some(tag)
  {
    assert !Uploads([DeleteBucket]);
    TookBoth(start, verified, w, EmptyingCalls(tag, n), [DeleteBucket]);
    assert EmptyingCalls(tag, n) + [DeleteBucket] == BucketRemovals(tag, n);
  }

  class Client {
    var w: World
    var clock: nat
    /** What lands before each call, and how each call ends. */
    const landing: nat -> seq<Request>
    const answers: nat -> Answer

    constructor (w: World, landing: nat -> seq<Request>, answers: nat -> Answer)
      ensures this.w == w
    {
      this.w, this.landing, this.answers := w, landing, answers;
      clock := 0;
    }

    /** From now on every call is answered with success, and namespaces go before the next one. */
    ghost predicate Lucky(n: nat) {
      forall k :: n <= k ==> answers(k) == Succeeds && RemoveNamespaces in landing(k)
    }

    /** Time passes; earlier requests may land. */
    method Wait() returns (answer: Answer)
      requires Safe(w)
      modifies this
      ensures Safe(w) && Later(old(w), w)
      ensures Lucky(old(clock)) ==> Lucky(clock) && answer == Succeeds && (Idle(old(w)) ==> w == Rested(old(w)))
    {
      if Idle(w) { LandAllIdle(w, landing(clock)); }
      LandAllKeeps(w, landing(clock));
      w := LandAll(w, landing(clock));
      answer := answers(clock);
      clock := clock + 1;
    }

    /** `inspectDeletionResources`: an absence that is seen lasts. */
    method Inspect() returns (outcome: Outcome, seen: Resources)
      requires Safe(w)
      modifies this
      ensures Safe(w) && Later(old(w), w) && (outcome == Failed || outcome == Continues)
      ensures (!seen.worker ==> !w.worker) && (!seen.namespaces ==> !w.namespaces)
      ensures (!seen.bucket ==> !w.bucket) && (!seen.database ==> !w.database)
      ensures (seen.bucket ==> old(w).bucket) && (seen.database ==> old(w).database)
      ensures seen.bucket ==> DeleteDatabase !in w.inFlight
      ensures NoUploads(old(w)) ==> NoUploads(w)
      ensures Lucky(old(clock)) ==> Lucky(clock)
      ensures Lucky(old(clock)) && Idle(old(w)) ==>
        outcome == Continues && w == Rested(old(w)) && seen == Resources(w.worker, w.namespaces, w.bucket, w.database)
    {
      if Idle(w) { TookNothing(w); }
      assert old(w).bucket ==> DeleteDatabase !in old(w).inFlight;
      hide Safe, Land, LandAll;
      var answer := Wait();
      ghost var w1 := w;
      var worker := w.worker;
      var second := Wait();
      LaterChains(old(w), w1, w);
      ghost var w2 := w;
      var database := w.database;
      var third := Wait();
      LaterChains(old(w), w2, w);
      ghost var w3 := w;
      var bucket := w.bucket;
      var fourth := Wait();
      LaterChains(old(w), w3, w);
      seen := Resources(worker, w.namespaces, bucket, database);
      outcome := if answer.Succeeds? && second.Succeeds? && third.Succeeds? && fourth.Succeeds? then Continues
        else Failed;
    }

    /** The tag of the published helper. */
    method ReadHelper() returns (outcome: Outcome, helper: Option<nat>)
      requires Safe(w)
      modifies this
      ensures Safe(w) && Later(old(w), w) && (outcome == Failed || outcome == Continues) && helper == w.helper
      ensures NoUploads(old(w)) ==> NoUploads(w)
      ensures Lucky(old(clock)) ==> Lucky(clock)
      ensures Lucky(old(clock)) && Idle(old(w)) ==> outcome == Continues && w == Rested(old(w))
    {
      var answer := Wait();
      helper := w.helper;
      outcome := if answer.Succeeds? then Continues else Failed;
    }

    /** Saves the job; a failed call may have saved it all the same. */
    method Persist() returns (outcome: Outcome)
      requires Clear(w)
      modifies this
      ensures Clear(w) && Later(old(w).(saved := w.saved), w)
      ensures w.saved == old(w).memory || (outcome == Failed && w.saved == old(w).saved)
      ensures outcome == Failed || outcome == Continues
      ensures Lucky(old(clock)) ==> Lucky(clock)
      ensures Lucky(old(clock)) && Idle(old(w)) ==>
        outcome == Continues && w == Rested(old(w)).(saved := old(w).memory)
    {
      var answer := Wait();
      if answer == Succeeds || answer == Lost { w := w.(saved := w.memory); }
      outcome := if answer.Succeeds? then Continues else Failed;
    }

    /** Writes the fence row, which is gone with the database. */
    method RecordRow(upload: Option<nat>) returns (outcome: Outcome)
      requires Clear(w)
      modifies this
      ensures Clear(w) && Later(old(w).(row := w.row), w)
      ensures outcome == Failed || outcome == Continues
      ensures w.helper == old(w).helper || w.helper == None
      ensures outcome == Continues ==> w.row == upload && w.database
      ensures Lucky(old(clock)) ==> Lucky(clock)
      ensures Lucky(old(clock)) && Idle(old(w)) && old(w).database ==>
        outcome == Continues && w == Rested(old(w)).(row := upload)
    {
      var answer := Wait();
      if w.database && (answer == Succeeds || answer == Lost) { w := w.(row := upload); }
      outcome := if w.database && answer.Succeeds? then Continues else Failed;
    }

    /** Sends one request and waits for its answer. */
    method Send(r: Request) returns (answer: Answer)
      requires Clear(w) && Sendable(w, r)
      modifies this
      ensures Safe(w) && Sends(old(w), w, r)
      ensures answer != Lost || !r.UploadHelper? ==> NoUploads(w)
      ensures r.UploadHelper? && answer == Succeeds ==> w.helper == Some(r.tag)
      ensures Lucky(old(clock)) ==> Lucky(clock)
      ensures Lucky(old(clock)) && Idle(old(w)) ==> answer == Succeeds && w == Sent(old(w), r)
    {
      ghost var before := w;
      answer := Wait();
      SendableLater(before, w, r);
      SendKeeps(w, r);
      var sent := w.(inFlight := w.inFlight + {r});
      WaitedSends(before, w, r);
      LandKeeps(sent, r);
      hide Safe, Sendable, Land, Later, NoUploads, Fewer;
      match answer {
        case Succeeds => w := Land(sent, r);
        case Lost => w := sent;
        case _ =>
      }
    }

    /** A request has taken effect, or its resource was gone already. */
    predicate Done(answer: Answer, r: Request) { answer == Succeeds || (answer == Gone && RemovesResource(r)) }

    /** Sends a request and records how it was answered. */
    method SendRecorded(r: Request, fenced: bool) returns (outcome: Outcome, ghost answer: Answer)
      requires Clear(w) && Sendable(w, r) && !r.UploadHelper?
      modifies this
      ensures Clear(w) && Sends(old(w), w, r) && (outcome == Failed || outcome == Continues)
      ensures outcome == Continues ==> Done(answer, r)
      ensures Done(answer, r) && (!fenced || r == DeleteDatabase) ==> outcome == Continues
      ensures outcome == Continues && fenced && r != DeleteDatabase ==> w.row == None && w.database
      ensures Lucky(old(clock)) ==> Lucky(clock)
      ensures Lucky(old(clock)) && Idle(old(w)) && Idle(Sent(old(w), r)) && (fenced ==> Keeps(old(w), r)) ==>
        && outcome == Continues
        && (w == Sent(old(w), r) || w == Rested(Sent(old(w), r)).(row := None))
    {
      hide Safe, Sent, Fewer, InOrder, Rested, Land, Idle, Lucky, Sends, Later, NoUploads;
      var got := Send(r);
      answer := got;
      ghost var after := w;
      if got == Lost || got == Refused || (got == Gone && !RemovesResource(r)) { return Failed, answer; }
      outcome := Continues;
      if fenced && r != DeleteDatabase {
        outcome := RecordRow(None);
        RecordSends(after, w, r);
        SendsBoth(old(w), after, w, r);
      }
    }

    /** The request leaves the database that the fence is in, unless it removes it. */
    predicate Keeps(before: World, r: Request) { r == DeleteDatabase || Sent(before, r).database }

    /** A removal or activation, between its two records if there is a fence. A removal that finds its resource gone
        is as good as done; the last record finds the database that holds it. */
    method Mutate(r: Request, fenced: bool) returns (outcome: Outcome, ghost answer: Option<Answer>)
      requires Clear(w) && Sendable(w, r) && !r.UploadHelper?
      modifies this
      ensures Clear(w) && Sends(old(w), w, r) && (outcome == Failed || outcome == Continues)
      ensures outcome == Continues ==> answer.Some? && Done(answer.value, r)
      ensures answer.Some? && Done(answer.value, r) && (!fenced || r == DeleteDatabase) ==> outcome == Continues
      ensures outcome == Continues && fenced && r != DeleteDatabase ==> w.row == None && w.database
      ensures Lucky(old(clock)) ==> Lucky(clock)
      ensures Lucky(old(clock)) && Ready(old(w), r, fenced) ==>
        outcome == Continues && Took(old(w), w, Consequences(r))
    {
      hide Safe, Took, Sent, Fewer, InOrder, Ready, Rested, Land, Idle, Lucky, Sends, Later, NoUploads, Done;
      ghost var before := w;
      ghost var ready := Lucky(clock) && Ready(w, r, fenced);
      LaterSelf(w);
      RecordSends(w, w, r);
      if ready { ReadyIsIdle(w, r, fenced); }
      if fenced {
        outcome := RecordRow(None);
        RecordSends(old(w), w, r);
        if outcome == Failed { answer := None; return; }
        RecordKeepsSendable(old(w), w, r);
        before := w;
      }
      if ready { SentStaysThere(old(w), before, r, fenced); }
      ghost var got;
      outcome, got := SendRecorded(r, fenced);
      answer := Some(got);
      SendsBoth(old(w), before, w, r);
      if ready { MutateTook(old(w), before, Sent(before, r), w, r, fenced); }
    }

    /** A saved receipt of an unfenced upload must be matched by the published helper before anything else. */
    method CheckReceipt() returns (outcome: Outcome)
      requires Safe(w)
      modifies this
      ensures Safe(w) && Moves(old(w), w)
      ensures outcome == Continues ==> w.memory.helperUploadPending == None
      ensures outcome == Continues && !w.database ==> NoUploads(w)
      ensures Lucky(old(clock)) ==> Lucky(clock)
      ensures Lucky(old(clock)) && Undisturbed(old(w)) ==>
        outcome == Continues && Undisturbed(w) && SameServer(old(w), w) && w.memory.phase == old(w).memory.phase
    {
      if w.memory.helperUploadPending.None? { return Continues; }
      var pending := w.memory.helperUploadPending;
      var helper;
      outcome, helper := ReadHelper();
      if outcome == Failed { return; }
      if helper != pending { return Blocked; }
      w := w.(memory := w.memory.(helperUploadPending := None));
      outcome := Persist();
    }

    /** `inspectTerminalDeletionFence` and the acquisition: a recorded upload must be the published helper. */
    method CheckFence() returns (outcome: Outcome)
      requires Safe(w) && w.memory.helperUploadPending == None
      modifies this
      ensures Safe(w) && Moves(old(w), w) && w.memory == old(w).memory
      ensures outcome == Continues ==> NoUploads(w)
      ensures Lucky(old(clock)) ==> Lucky(clock)
      ensures Lucky(old(clock)) && Undisturbed(old(w)) && old(w).database ==>
        outcome == Continues && Undisturbed(w) && SameServer(old(w), w)
    {
      var answer := Wait();
      if !w.database || answer != Succeeds { return Failed; }
      if w.row.Some? {
        var helper;
        outcome, helper := ReadHelper();
        if outcome == Failed { return; }
        if helper != w.row { return Blocked; }
      }
      outcome := RecordRow(None);
    }

    /** Moves the job to a phase that has been reached, and saves it. */
    method SetPhase(next: Phase) returns (outcome: Outcome)
      requires Clear(w) && Reached(w, next) && Order(w.memory.phase) <= Order(next)
      modifies this
      ensures Clear(w) && Moves(old(w), w) && w.memory == old(w).memory.(phase := next)
      ensures forall r :: r in w.inFlight && r != RemoveNamespaces ==> r in old(w).inFlight
      ensures outcome == Continues ==> w.saved == w.memory
      ensures outcome == Failed || outcome == Continues
      ensures Lucky(old(clock)) ==> Lucky(clock)
      ensures Lucky(old(clock)) && Idle(old(w)) ==> outcome == Continues && Took(old(w), w, [])
    {
      if Idle(w) { TookNothing(w); }
      w := w.(memory := w.memory.(phase := next));
      outcome := Persist();
    }

    /** Records the receipt of an upload, in the fence row or in the saved job, before the upload is sent. */
    method RecordReceipt(tag: nat, fenced: bool) returns (outcome: Outcome)
      requires Clear(w) && tag < w.tags && w.helper != Some(tag) && w.memory.helperUploadPending == None
      requires if fenced then DeleteDatabase !in w.inFlight else !w.database
      modifies this
      ensures Clear(w) && Moves(old(w), w) && w.memory.phase == old(w).memory.phase && w.tags == old(w).tags
      ensures outcome == Continues ==> Receipted(w, tag) && w.helper != Some(tag)
      ensures outcome == Failed ==> w.memory == old(w).memory
      ensures outcome == Continues ==> w.memory.helperUploadPending == if fenced then None else Some(tag)
      ensures outcome == Failed || outcome == Continues
      ensures Lucky(old(clock)) ==> Lucky(clock)
      ensures Lucky(old(clock)) && Idle(old(w)) && (fenced ==> old(w).database) ==>
        outcome == Continues && SameServer(Rested(old(w)), w)
    {
      if fenced {
        outcome := RecordRow(Some(tag));
      } else {
        w := w.(memory := w.memory.(helperUploadPending := Some(tag)));
        outcome := Persist();
        if outcome == Failed { w := w.(memory := w.memory.(helperUploadPending := None)); }
      }
    }

    /** Removes the receipt of an upload that is answered for. */
    method ClearReceipt(fenced: bool) returns (outcome: Outcome)
      requires Clear(w) && (fenced ==> w.memory.helperUploadPending == None)
      modifies this
      ensures Clear(w) && Moves(old(w), w) && w.memory == old(w).memory.(helperUploadPending := None)
      ensures outcome == Failed || outcome == Continues
      ensures Lucky(old(clock)) ==> Lucky(clock)
      ensures Lucky(old(clock)) && Idle(old(w)) && (fenced ==> old(w).database) ==>
        outcome == Continues && SameServer(Rested(old(w)), w)
    {
      if fenced {
        outcome := RecordRow(None);
      } else {
        w := w.(memory := w.memory.(helperUploadPending := None));
        outcome := Persist();
      }
    }

    /** Uploads the cleanup Worker. Only an upload without a definite answer keeps its receipt. */
    method UploadReceipted(tag: nat, fenced: bool) returns (outcome: Outcome, ghost answer: Option<Answer>)
      requires Clear(w) && !w.worker && !w.namespaces && w.memory.phase != Complete
        && w.memory.helperUploadPending == None && tag < w.tags && w.helper != Some(tag)
      requires if fenced then DeleteDatabase !in w.inFlight else !w.database
      modifies this
      ensures Safe(w) && Moves(old(w), w) && (outcome == Failed || outcome == Continues)
      ensures outcome == Continues ==> Clear(w) && w.memory == old(w).memory && answer == Some(Succeeds)
      ensures answer.Some? && answer.value != Lost ==> Clear(w) && w.memory.helperUploadPending == None
      ensures answer == Some(Lost) && !fenced ==> w.memory.helperUploadPending == Some(tag)
      ensures Lucky(old(clock)) ==> Lucky(clock)
      ensures Lucky(old(clock)) && Idle(old(w)) && (fenced ==> old(w).database) ==>
        outcome == Continues && Idle(w) && Took(old(w), w, [UploadHelper(tag)]) && Rested(w).helper == Some(tag)
    {
      hide Safe, NoUploads, Receipted, Took, Sent, InOrder, Rested, Land, Later, Moves, Fewer, Idle, Lucky;
      ghost var lucky := Lucky(clock) && Idle(w) && (fenced ==> w.database);
      outcome := RecordReceipt(tag, fenced);
      if outcome == Failed { answer := None; return; }
      ghost var before := w;
      if lucky { ReceiptIsIdle(old(w), before, tag); }
      UploadSendable(old(w), w, tag);
      var got := Send(UploadHelper(tag));
      answer := Some(got);
      FewerMoves(before, w);
      MovesBoth(old(w), before, w);
      if got == Lost { return Failed, answer; }
      ghost var after := w;
      outcome := ClearReceipt(fenced);
      MovesBoth(old(w), after, w);
      if got != Succeeds { outcome := Failed; }
      if lucky { PublishTook(old(w), before, after, w, tag); }
    }

    /** Publishes the cleanup Worker and sees it under its tag. */
    method PublishHelper(fenced: bool) returns (outcome: Outcome, tag: nat)
      requires Clear(w) && !w.worker && !w.namespaces && w.memory.phase != Complete
        && w.memory.helperUploadPending == None
      requires if fenced then DeleteDatabase !in w.inFlight else !w.database
      modifies this
      ensures Safe(w) && Moves(old(w), w)
      ensures outcome == Continues ==> NoUploads(w) && w.memory == old(w).memory && w.helper == Some(tag)
      ensures outcome == Failed || outcome == Continues
      ensures Lucky(old(clock)) ==> Lucky(clock)
      ensures Lucky(old(clock)) && Idle(old(w)) && (fenced ==> old(w).database) ==>
        outcome == Continues && Took(old(w), w, [UploadHelper(tag)]) && tag == old(w).tags && w.helper == Some(tag)
    {
      hide Took, InOrder, Rested, Land, Later, Moves, Lucky;
      tag := w.tags;
      NewTag(w);
      w := w.(tags := w.tags + 1);
      hide Safe, NoUploads, Receipted;
      ghost var tagged := w;
      ghost var answer;
      outcome, answer := UploadReceipted(tag, fenced);
      MovesBoth(old(w), tagged, w);
      if outcome == Failed { return; }
      ghost var uploaded := w;
      if Lucky(old(clock)) && Idle(old(w)) && (fenced ==> old(w).database) {
        TagTook(old(w), w, tag);
      }
      var helper;
      outcome, helper := ReadHelper();
      LaterMoves(uploaded, w);
      MovesBoth(old(w), uploaded, w);
      if helper != Some(tag) { outcome := Failed; }
    }

    /** The original server is still gone, the bucket and this attempt's helper still there. */
    method VerifyTarget(tag: nat) returns (outcome: Outcome)
      requires Clear(w)
      modifies this
      ensures Clear(w) && Moves(old(w), w) && w.memory == old(w).memory
      ensures outcome == Continues ==> !w.worker && !w.namespaces && old(w).bucket && w.helper == Some(tag)
      ensures Lucky(old(clock)) ==> Lucky(clock)
      ensures Lucky(old(clock)) && Cleared(old(w), tag) ==> outcome == Continues && Took(old(w), w, [])
    {
      if Idle(w) { TookNothing(w); }
      hide Safe, Took;
      var seen;
      outcome, seen := Inspect();
      if outcome != Continues { return; }
      if seen.worker || seen.namespaces || !seen.bucket { return Paused; }
      var helper;
      outcome, helper := ReadHelper();
      if outcome == Continues && helper != Some(tag) { outcome := Paused; }
    }

    /** One removal from the bucket, or of the bucket, under a fresh look at the server. */
    method RemoveVerified(r: Request, tag: nat, fenced: bool) returns (outcome: Outcome)
      requires Clear(w) && (r == DeleteObjects || r == DeleteBucket)
      modifies this
      ensures Clear(w) && Moves(old(w), w) && w.memory == old(w).memory
      ensures Lucky(old(clock)) ==> Lucky(clock)
      ensures Lucky(old(clock)) && Cleared(old(w), tag) && (fenced ==> old(w).database) ==>
        outcome == Continues && Took(old(w), w, [r])
    {
      hide Safe, NoUploads, Took, Cleared, Ready, Lucky;
      outcome := VerifyTarget(tag);
      if outcome != Continues { return; }
      ghost var verified, answer := w, None;
      outcome, answer := Mutate(r, fenced);
      FewerMoves(verified, w);
      MovesBoth(old(w), verified, w);
      if Lucky(old(clock)) && Cleared(old(w), tag) && (fenced ==> old(w).database) {
        VerifiedIsReady(old(w), verified, r, tag, fenced);
        TookBoth(old(w), verified, w, [], [r]);
        assert [] + [r] == [r];
      }
    }

    /** Empties the bucket through the helper, batch by batch, and removes it. */
    method RemoveBucket(fenced: bool, batches: nat) returns (outcome: Outcome)
      requires Clear(w) && !w.worker && !w.namespaces && w.memory.phase != Complete
        && w.memory.helperUploadPending == None
      requires if fenced then DeleteDatabase !in w.inFlight else !w.database
      modifies this
      ensures Safe(w) && Moves(old(w), w)
      ensures outcome == Continues ==> NoUploads(w) && w.memory == old(w).memory
      ensures Lucky(old(clock)) ==> Lucky(clock)
      ensures Lucky(old(clock)) && Emptyable(old(w), fenced) ==>
        outcome == Continues && Took(old(w), w, BucketRemovals(old(w).tags, batches)) && Rested(w).helper.Some?
    {
      hide Safe, NoUploads, Took, Cleared, Ready, BucketRemovals, EmptyingCalls, Moves, Fewer, Emptying, Lucky;
      ghost var lucky := Lucky(clock) && Emptyable(w, fenced);
      var tag;
      outcome, tag := PublishHelper(fenced);
      if outcome != Continues { return; }
      if lucky { HelperReady(old(w), w, tag, fenced); }
      ghost var published := w;
      ghost var answer;
      outcome, answer := Mutate(EnableHelper, fenced);
      FewerMoves(published, w);
      MovesBoth(old(w), published, w);
      if outcome != Continues { return; }
      if lucky { HelperEnabled(old(w), published, w, tag, fenced); }
      for n := 0 to batches
        invariant Clear(w) && Moves(old(w), w) && w.memory == old(w).memory && (Lucky(old(clock)) ==> Lucky(clock))
        invariant lucky ==> Emptying(old(w), w, tag, fenced, n)
      {
        ghost var before := w;
        if lucky { EmptyingIsCleared(old(w), w, tag, fenced, n); }
        outcome := RemoveVerified(DeleteObjects, tag, fenced);
        MovesBoth(old(w), before, w);
        if outcome != Continues { return; }
        if lucky { ObjectsRemoved(old(w), before, w, tag, fenced, n); }
      }
      ghost var before := w;
      if lucky { EmptyingIsCleared(old(w), w, tag, fenced, batches); }
      outcome := RemoveVerified(DeleteBucket, tag, fenced);
      MovesBoth(old(w), before, w);
      if lucky { BucketRemoved(old(w), before, w, tag, fenced, batches); }
    }

    method RemoveWorker(present: bool, fenced: bool) returns (outcome: Outcome)
      requires Clear(w)
      modifies this
      ensures Clear(w) && Moves(old(w), w) && w.memory == old(w).memory
      ensures outcome == Failed || outcome == Continues
      ensures Lucky(old(clock)) ==> Lucky(clock)
      ensures Lucky(old(clock)) && Idle(old(w)) && (fenced ==> old(w).database) && present == Rested(old(w)).worker ==>
        outcome == Continues && Took(old(w), w, WorkerRemovals(present))
    {
      hide Safe, NoUploads, Took, Rested, Lucky;
      outcome := Continues;
      if present {
        ghost var answer;
        outcome, answer := Mutate(DeleteWorker, fenced);
        FewerMoves(old(w), w);
      } else if Idle(w) {
        TookNothing(w);
      }
    }

    /** The database is seen to be gone. */
    method ConfirmRemoval() returns (outcome: Outcome)
      requires Clear(w) && !w.worker && !w.namespaces && !w.bucket && Order(w.memory.phase) <= Order(RemovingHelper)
      modifies this
      ensures Clear(w) && Moves(old(w), w)
      ensures outcome == Continues ==> w.memory.phase == RemovingHelper
      ensures Lucky(old(clock)) ==> Lucky(clock)
      ensures Lucky(old(clock)) && Idle(old(w)) && !Rested(old(w)).database ==>
        outcome == Continues && Took(old(w), w, [])
    {
      hide Safe, NoUploads, Took, Rested, Land, Later, Moves, Idle, Lucky;
      var seen;
      outcome, seen := Inspect();
      LaterMoves(old(w), w);
      GoneStays(old(w), w);
      if outcome != Continues { return; }
      if seen.database { return Paused; }
      ghost var before := w;
      outcome := SetPhase(RemovingHelper);
      MovesBoth(old(w), before, w);
      if Lucky(old(clock)) && Idle(old(w)) && !Rested(old(w)).database {
        TookNothing(old(w));
        TookMore(old(w), before, w, [], []);
      }
    }

    /** The database, once the bucket is seen to be gone. */
    method RemoveDatabase(fenced: bool) returns (outcome: Outcome)
      requires Clear(w) && !w.worker && !w.namespaces && Order(w.memory.phase) <= Order(RemovingDatabase)
      modifies this
      ensures Safe(w) && Moves(old(w), w)
      ensures outcome == Continues ==> NoUploads(w) && w.memory.phase == RemovingHelper
      ensures Lucky(old(clock)) ==> Lucky(clock)
      ensures Lucky(old(clock)) && Idle(old(w)) && !Rested(old(w)).bucket ==>
        outcome == Continues && Took(old(w), w, DatabaseRemovals(Rested(old(w)).database))
    {
      hide Safe, NoUploads, Took, Rested, Ready, Land, Later, Moves, Idle, Sends, Lucky;
      ghost var lucky := Lucky(clock) && Idle(w) && !Rested(w).bucket;
      if lucky { TookNothing(w); }
      var seen;
      outcome, seen := Inspect();
      LaterMoves(old(w), w);
      if outcome != Continues { return; }
      if seen.bucket { return Paused; }
      var present := seen.database;
      ghost var w1 := w;
      GoneStays(old(w), w);
      outcome := SetPhase(RemovingDatabase);
      MovesBoth(old(w), w1, w);
      if outcome != Continues { return; }
      ghost var w2 := w;
      GoneStays(w1, w);
      if lucky { StartTook(old(w), w1, w2, present, fenced); }
      if present {
        ghost var answer;
        outcome, answer := Mutate(DeleteDatabase, fenced);
        SendsMoves(w2, w, DeleteDatabase);
        MovesBoth(old(w), w2, w);
        if outcome != Continues { return; }
      }
      ghost var w3 := w;
      MovesSelf(w2);
      GoneStays(w2, w);
      if lucky { DatabaseTook(old(w), w2, w3, present); }
      outcome := ConfirmRemoval();
      MovesBoth(old(w), w3, w);
      if lucky { TookMore(old(w), w3, w, DatabaseRemovals(present), []); }
    }

    /** Worker and namespaces are seen to be gone, and the bucket is next. */
    method ConfirmWorkerRemoved() returns (outcome: Outcome, bucket: bool)
      requires Clear(w) && Order(w.memory.phase) <= Order(RemovingDatabase)
      modifies this
      ensures Clear(w) && Moves(old(w), w)
      ensures w.memory == old(w).memory || w.memory == old(w).memory.(phase := ClearingBucket)
      ensures outcome == Continues ==>
        !w.worker && !w.namespaces && Order(w.memory.phase) <= Order(RemovingDatabase)
      ensures (!bucket && outcome == Continues ==> !w.bucket) && (bucket ==> old(w).bucket)
      ensures bucket ==> DeleteDatabase !in w.inFlight
      ensures Lucky(old(clock)) ==> Lucky(clock)
      ensures Lucky(old(clock)) && Idle(old(w)) && !Rested(old(w)).worker && !Rested(old(w)).namespaces ==>
        outcome == Continues && bucket == Rested(old(w)).bucket && Took(old(w), w, [])
    {
      hide Safe, NoUploads, Took, Rested, Land, Later, Moves, Idle, Lucky;
      var seen;
      outcome, seen := Inspect();
      bucket := seen.bucket;
      LaterMoves(old(w), w);
      if Idle(old(w)) { TookNothing(old(w)); }
      if outcome != Continues { return; }
      if seen.worker || seen.namespaces { return Paused, bucket; }
      ghost var before := w;
      if w.memory.phase == RemovingWorker {
        outcome := SetPhase(ClearingBucket);
        MovesBoth(old(w), before, w);
        GoneStays(before, w);
        if Lucky(old(clock)) && Idle(old(w)) { TookMore(old(w), before, w, [], []); }
      }
    }

    /** The bucket, where there is one, and then the database. */
    method RemoveStorage(bucket: bool, fenced: bool, batches: nat) returns (outcome: Outcome)
      requires Clear(w) && !w.worker && !w.namespaces && Order(w.memory.phase) <= Order(RemovingDatabase)
        && w.memory.helperUploadPending == None
      requires (!fenced ==> !w.database) && (bucket && fenced ==> DeleteDatabase !in w.inFlight)
      modifies this
      ensures Safe(w) && Moves(old(w), w)
      ensures outcome == Continues ==> NoUploads(w) && w.memory.phase == RemovingHelper
      ensures Lucky(old(clock)) ==> Lucky(clock)
      ensures Lucky(old(clock)) && StorageIdle(old(w), bucket, fenced) ==>
        && outcome == Continues && Took(old(w), w, StorageRemovals(old(w), batches))
        && (bucket ==> Rested(w).helper.Some?)
    {
      hide Safe, NoUploads, Took, Rested, Land, Later, Moves, Idle, Lucky, StorageIdle, StorageRemovals, Emptyable;
      ghost var lucky := Lucky(clock) && StorageIdle(w, bucket, fenced);
      MovesSelf(w);
      if lucky { StorageStarts(w, bucket, fenced); }
      if bucket {
        outcome := RemoveBucket(fenced, batches);
        if outcome != Continues { return; }
      }
      ghost var before := w;
      if lucky { StorageGoesOn(old(w), before, bucket, fenced, batches); }
      GoneStays(old(w), w);
      outcome := RemoveDatabase(fenced);
      MovesBoth(old(w), before, w);
      if lucky { StorageTook(old(w), before, w, bucket, fenced, batches); }
    }

    /** `removeResources`: Worker and namespaces, then the bucket, then the database. */
    method RemoveResources(fenced: bool, batches: nat) returns (outcome: Outcome)
      requires Clear(w) && w.memory.helperUploadPending == None && (!fenced ==> !w.database)
      modifies this
      ensures Safe(w) && Moves(old(w), w)
      ensures outcome == Continues ==> NoUploads(w) && Order(w.memory.phase) >= Order(RemovingHelper)
      ensures Lucky(old(clock)) ==> Lucky(clock)
      ensures Lucky(old(clock)) && Startable(old(w), fenced) ==>
        && outcome == Continues && Took(old(w), w, ResourceRemovals(old(w), batches))
        && (old(w).bucket ==> Rested(w).helper.Some?)
    {
      hide Safe, NoUploads, Took, Rested, Land, Later, Moves, Idle, Lucky, Startable, ResourceRemovals, StorageIdle,
        StorageRemovals, NothingLeft;
      ghost var lucky := Lucky(clock) && Startable(w, fenced);
      if lucky { StartIsIdle(w, fenced); }
      LateIsEmpty(w);
      var seen;
      outcome, seen := Inspect();
      LaterMoves(old(w), w);
      if outcome != Continues { return; }
      ghost var w1 := w;
      if w.memory.phase == RemovingHelper || w.memory.phase == Complete {
        if lucky { NothingToRemove(old(w), w, batches); }
        return;
      }
      outcome := RemoveWorker(seen.worker, fenced);
      MovesBoth(old(w), w1, w);
      if outcome != Continues { return; }
      ghost var w2 := w;
      if lucky { WorkerGone(old(w), w1, w2, fenced); }
      var bucket;
      outcome, bucket := ConfirmWorkerRemoved();
      MovesBoth(old(w), w2, w);
      GoneStays(old(w), w);
      if outcome != Continues { return; }
      ghost var w3 := w;
      if lucky { StorageNext(old(w), w2, w3, bucket, fenced); }
      outcome := RemoveStorage(bucket, fenced, batches);
      MovesBoth(old(w), w3, w);
      if lucky { ResourcesTook(old(w), w3, w, bucket, fenced, batches); }
    }

    /** The helper, once nothing of the server is left. */
    method RemoveHelper() returns (outcome: Outcome)
      requires Clear(w) && Order(w.memory.phase) >= Order(RemovingHelper)
      modifies this
      ensures Safe(w) && Moves(old(w), w)
      ensures outcome == Continues ==> w.saved.phase == Complete
      ensures Lucky(old(clock)) ==> Lucky(clock)
      ensures Lucky(old(clock)) && Idle(old(w)) && NothingLeft(Rested(old(w))) ==>
        outcome == Continues && Took(old(w), w, HelperRemovals(Rested(old(w)).helper.Some?))
    {
      hide NoUploads, Took, Rested, Land, Later, Moves, Idle, Lucky, Sends;
      ghost var lucky := Lucky(clock) && Idle(w) && NothingLeft(Rested(w));
      if lucky { TookNothing(w); }
      var seen;
      outcome, seen := Inspect();
      LaterMoves(old(w), w);
      if outcome != Continues { return; }
      if seen.worker || seen.bucket || seen.database || seen.namespaces { return Paused; }
      ghost var w1 := w;
      outcome := RemoveOnlyHelper();
      MovesBoth(old(w), w1, w);
      if lucky { TookMore(old(w), w1, w, [], HelperRemovals(Rested(old(w)).helper.Some?)); }
    }

    /** The helper is removed and seen to be gone. */
    method RemoveOnlyHelper() returns (outcome: Outcome)
      requires Clear(w) && Order(w.memory.phase) >= Order(RemovingHelper) && NothingLeft(w)
      modifies this
      ensures Safe(w) && Moves(old(w), w)
      ensures outcome == Continues ==> w.saved.phase == Complete
      ensures Lucky(old(clock)) ==> Lucky(clock)
      ensures Lucky(old(clock)) && Idle(old(w)) ==>
        outcome == Continues && Took(old(w), w, HelperRemovals(Rested(old(w)).helper.Some?))
    {
      hide Safe, NoUploads, Took, Rested, Land, Later, Moves, Idle, Lucky, Sends, Sent;
      ghost var lucky := Lucky(clock) && Idle(w);
      if lucky { TookNothing(w); }
      var helper;
      outcome, helper := ReadHelper();
      LaterMoves(old(w), w);
      GoneStays(old(w), w);
      if outcome != Continues { return; }
      ghost var w1 := w;
      if helper.Some? {
        var answer := Send(DeleteHelper);
        SendsMoves(w1, w, DeleteHelper);
        MovesBoth(old(w), w1, w);
        if answer == Lost || answer == Refused { return Failed; }
      }
      ghost var w2 := w;
      GoneStays(old(w), w);
      if lucky { HelperTook(old(w), w1, w2); }
      outcome, helper := ReadHelper();
      LaterMoves(w2, w);
      MovesBoth(old(w), w2, w);
      GoneStays(w2, w);
      if outcome != Continues { return; }
      if helper.Some? { return Paused; }
      ghost var w3 := w;
      outcome := SetPhase(Complete);
      MovesBoth(old(w), w3, w);
      if lucky { TookMore(old(w), w3, w, HelperRemovals(w1.helper.Some?), []); }
    }

    /** `deleteCrateServer`: one attempt, which may end anywhere. An undisturbed one finishes: it removes exactly
        what is there, each resource once and in order. */
    method Attempt(batches: nat) returns (outcome: Outcome)
      requires Safe(w)
      modifies this
      ensures Safe(w) && Moves(old(w), w)
      ensures outcome == Continues ==> w.saved.phase == Complete
      ensures Lucky(old(clock)) ==> Lucky(clock)
      ensures Lucky(old(clock)) && Undisturbed(old(w)) ==>
        outcome == Continues && Took(old(w), w, Removals(old(w), batches))
    {
      hide Safe, NoUploads, Took, Rested, Land, Later, Moves, Idle, Lucky, Undisturbed, Startable, ResourceRemovals,
        SameServer, Removals;
      ghost var lucky := Lucky(clock) && Undisturbed(w);
      if lucky { UndisturbedIsIdle(w); }
      var initial;
      outcome, initial := Inspect();
      LaterMoves(old(w), w);
      if outcome != Continues { return; }
      ghost var w1 := w;
      outcome := CheckReceipt();
      MovesBoth(old(w), w1, w);
      if outcome != Continues { return; }
      ghost var w2 := w;
      if lucky { SameSteps(w1, w1, w2); }
      if initial.database {
        outcome := CheckFence();
        MovesBoth(old(w), w2, w);
        if outcome != Continues { return; }
      } else {
        GoneStays(w1, w2);
      }
      ghost var w3 := w;
      if lucky { SameSteps(w1, w2, w3); }
      outcome := RemoveResources(initial.database, batches);
      MovesBoth(old(w), w3, w);
      if outcome != Continues { return; }
      ghost var w4 := w;
      if lucky { HelperLeft(old(w), w3, w4, batches); }
      outcome := RemoveHelper();
      MovesBoth(old(w), w4, w);
      if lucky { AttemptTook(old(w), w3, w4, w, batches); }
    }

    /**
     * Any number of attempts, each from the job in memory or, after a restart, from the saved one. Throughout,
     * every request that took effect did so in order: the bucket only after the Worker and its namespaces, the
     * database only after the bucket, the helper last; and the saved phase never moves back.
     */
    method Attempts(restarts: seq<bool>, batches: nat -> nat) returns (done: bool)
      requires Safe(w)
      modifies this
      ensures Safe(w) && Order(old(w).saved.phase) <= Order(w.saved.phase) && old(w).effects <= w.effects
      ensures forall i :: 0 <= i < |w.effects| ==> EffectInOrder(w.effects[i])
      ensures done ==> w.saved.phase == Complete
    {
      done := false;
      for n := 0 to |restarts|
        invariant Safe(w) && Order(old(w).saved.phase) <= Order(w.saved.phase) && old(w).effects <= w.effects
        invariant done ==> w.saved.phase == Complete
      {
        if restarts[n] {
          RestartKeeps(w);
          w := w.(memory := w.saved);
        }
        var outcome := Attempt(batches(n));
        done := done || outcome == Continues;
      }
    }
  }

  lemma NewTag(w: World)
    requires Clear(w)
    ensures Clear(w.(tags := w.tags + 1)) && w.helper != Some(w.tags) && Moves(w, w.(tags := w.tags + 1))
  {
  }

  /** A receipted upload may be sent while the server stays gone. */
  lemma UploadSendable(a: World, b: World, tag: nat)
    requires !a.worker && !a.namespaces && Moves(a, b) && b.memory.phase != Complete
    requires tag < b.tags && b.helper != Some(tag) && Receipted(b, tag)
    ensures Sendable(b, UploadHelper(tag))
  {
  }

  lemma MovesSelf(a: World)
    ensures Moves(a, a)
  {
  }

  /** What is gone stays gone. */
  lemma GoneStays(a: World, b: World)
    requires Moves(a, b)
    ensures (!a.worker ==> !b.worker) && (!a.namespaces ==> !b.namespaces) && (!a.bucket ==> !b.bucket)
      && (!a.database ==> !b.database)
  {
  }

  lemma SendsMoves(a: World, b: World, r: Request)
    requires Sends(a, b, r)
    ensures Moves(a, b) && b.memory == a.memory
  {
  }

  lemma LaterMoves(a: World, b: World)
    requires Later(a, b)
    ensures Moves(a, b) && b.memory == a.memory && b.saved == a.saved && b.tags == a.tags
  {
  }

  /** A restarted process goes on from the saved job. */
  lemma RestartKeeps(w: World)
    requires Safe(w)
    ensures Safe(w.(memory := w.saved))
  {
  }

  /** A finished deletion has left nothing, and nothing that is still in flight brings anything back. */
  lemma FinishedStaysGone(w: World, rs: seq<Request>)
    requires Safe(w) && w.saved.phase == Complete
    ensures var later := LandAll(w, rs);
      !later.worker && !later.namespaces && !later.bucket && !later.database && later.helper == None && NoUploads(later)
  {
    LandAllKeeps(w, rs);
  }
}
