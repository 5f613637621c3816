/** Deletions and updates do not mix: once a deletion has held the row, it is a deletion's for good. */
module FenceDeletion {
  import opened Common
  import opened FenceRecords
  import opened FenceCalls
  import opened FenceProtocol
  import opened FenceSafety
  import opened FenceTheorems

  predicate RowDeletes(w: World) {
    w.row.Some? && w.row.value.record.kind == Delete
  }

  // ---------- the invariant ----------

  ghost predicate DeletionStays(w: World) {
    forall x :: x in w.seen && x.record.kind == Delete ==> RowDeletes(w)
  }

  predicate KeepsKind(q: Request) {
    q.Replace? && q.expected.record.kind == Delete ==> q.next.record.kind == Delete
  }

  /** The record that a client has won and may send under has been in the row. */
  predicate RecordedSeen(w: World, p: Party) {
    match p.phase
    case Recording(id, next, _, _) => id in w.exchanges && w.exchanges[id].won == Some(true) ==> next in w.seen
    case Ready => p.fence.value in w.seen
    case _ => true
  }

  ghost predicate DeletionInv(w: World) {
    && DeletionStays(w)
    && (forall id :: id in w.exchanges ==> KeepsKind(w.exchanges[id].request))
    && (forall o :: o in w.clients ==> RecordedSeen(w, w.clients[o]))
    && (forall pid :: pid in w.dispatches ==> ByClient(w.dispatches[pid].started) in w.seen)
  }

  // ---------- every event keeps it ----------

  /** A row that a deletion holds is only ever replaced by another deletion's, and never removed. */
  lemma CommitStays(w: World, id: nat)
    requires Inv(w) && DeletionInv(w) && id in w.exchanges && w.exchanges[id].won.None?
    ensures DeletionStays(CommitStep(w, id))
  {
    hide PartyOk, DispatchOk;
    assert ExchangeOk(w, id);
    if w.row.Some? { assert RecordOk(w.row.value.record); }
  }

  lemma CommitClient(w: World, id: nat, o: nat)
    requires Inv(w) && DeletionInv(w) && id in w.exchanges && w.exchanges[id].won.None? && o in w.clients
    ensures RecordedSeen(CommitStep(w, id), w.clients[o])
  {
    hide DispatchOk, ExchangeOk, Disciplined, StartOk;
    assert PartyOk(w, o) && RecordedSeen(w, w.clients[o]);
  }

  lemma CommitKeepsDeletion(w: World, id: nat)
    requires Inv(w) && DeletionInv(w) && id in w.exchanges && w.exchanges[id].won.None?
    ensures DeletionInv(CommitStep(w, id))
  {
    CommitStays(w, id);
    forall o | o in w.clients ensures RecordedSeen(CommitStep(w, id), w.clients[o]) { CommitClient(w, id, o); }
    hide Inv, DeletionStays, RecordedSeen;
  }

  lemma AcquireKeepsDeletion(w: World, a: Attempt, registered: set<string>)
    requires Inv(w) && DeletionInv(w) && MayAttempt(w, a, registered)
    ensures DeletionInv(AcquireStep(w, a))
  {
    hide PartyOk, DispatchOk, ExchangeOk, OneEach, OneTransferEach, AttemptCalls;
  }

  /** A client moves on without sending anything. */
  lemma PartyKeepsDeletion(w: World, o: nat, p: Party)
    requires DeletionInv(w) && RecordedSeen(w, p)
    ensures DeletionInv(WithParty(w, o, p))
  {
  }

  /** A client sends a request and waits for it. */
  lemma RequestKeepsDeletion(w: World, o: nat, p: Party, request: Request, completes: bool)
    requires IdsBelow(w) && DeletionInv(w) && KeepsKind(request) && !p.phase.Ready? && WaitsOn(p.phase, w.next)
    ensures DeletionInv(SendRequest(w, o, p, request, completes))
  {
  }

  /** The text that a call records first is of the kind of the record before. */
  lemma FirstTextKind(f: Fence, call: Call, owner: nat, serial: nat)
    requires !call.RequireVerification?
    ensures FirstText(f, call, owner, serial).record.kind == f.value.record.kind
  {
  }

  lemma UseKeepsDeletion(w: World, o: nat)
    requires IdsBelow(w) && DeletionInv(w) && Enabled(w, Use(o))
    ensures DeletionInv(UseStep(w, o))
  {
    var p := w.clients[o];
    if !p.calls[0].RequireVerification? { FirstTextKind(p.fence, p.calls[0], o, w.next); }
    hide DeletionInv, IdsBelow, FirstText;
    var w' := UseStep(w, o);
    if w'.clients[o].phase.Recording? {
      RequestKeepsDeletion(w, o, w'.clients[o], w'.exchanges[w.next].request, w'.exchanges[w.next].completes);
    } else {
      PartyKeepsDeletion(w, o, w'.clients[o]);
    }
  }

  lemma RecordReplyKeepsDeletion(w: World, o: nat)
    requires DeletionInv(w) && Enabled(w, RecordReply(o))
    ensures DeletionInv(RecordReplyStep(w, o))
  {
    assert RecordedSeen(w, w.clients[o]);
  }

  lemma SendKeepsDeletion(w: World, o: nat)
    requires Inv(w) && DeletionInv(w) && Enabled(w, Send(o))
    ensures DeletionInv(SendStep(w, o))
  {
    hide DispatchOk, ExchangeOk, OneEach, OneTransferEach, Disciplined;
    assert PartyOk(w, o) && RecordedSeen(w, w.clients[o]);
  }

  lemma ProviderReplyKeepsDeletion(w: World, o: nat, alreadyGone: bool)
    requires IdsBelow(w) && DeletionInv(w) && Enabled(w, ProviderReply(o, alreadyGone))
    ensures DeletionInv(ProviderReplyStep(w, o, alreadyGone))
  {
    hide DeletionInv, IdsBelow;
    var w' := ProviderReplyStep(w, o, alreadyGone);
    if w'.clients[o].phase.Recording? {
      RequestKeepsDeletion(w, o, w'.clients[o], w'.exchanges[w.next].request, false);
    } else {
      PartyKeepsDeletion(w, o, w'.clients[o]);
    }
  }

  lemma AnonymousKeepsDeletion(w: World, request: Request)
    requires IdsBelow(w) && DeletionInv(w) && KeepsKind(request)
    ensures DeletionInv(SendAnonymous(w, request))
  {
  }

  lemma OutcomeKeepsDeletion(w: World, pid: nat, took: bool)
    requires DeletionInv(w) && pid in w.dispatches
    ensures DeletionInv(if took then TakeEffectStep(w, pid) else RefuseStep(w, pid))
  {
  }

  lemma EndKeepsDeletion(w: World, o: nat)
    requires IdsBelow(w) && DeletionInv(w) && Enabled(w, End(o))
    ensures DeletionInv(EndStep(w, o))
  {
    hide DeletionInv, IdsBelow;
    var p := w.clients[o];
    if MayFinish(p.fence) {
      RequestKeepsDeletion(w, o, p.(phase := Releasing(w.next)), Remove(p.fence.value), false);
    } else {
      PartyKeepsDeletion(w, o, p.(phase := Stopped));
    }
  }

  predicate IsRecovery(e: Event) {
    e.PromoteUpload? || e.UnlockSettled? || e.OperatorSettles? || e.OperatorReleases?
  }

  lemma RecoveryKeepsDeletion(w: World, e: Event)
    requires IdsBelow(w) && DeletionInv(w) && Enabled(w, e) && IsRecovery(e)
    ensures DeletionInv(Apply(w, e))
  {
    hide DeletionInv, IdsBelow, Quiescent;
    match e
    case PromoteUpload(value, _, _, _) => AnonymousKeepsDeletion(w,
      Replace(value, ByClient(value.record.(stepState := Confirmed))));
    case UnlockSettled(value, _, _, _, _) => AnonymousKeepsDeletion(w, Remove(value));
    case OperatorSettles(value) => AnonymousKeepsDeletion(w,
      Replace(value, ByOperator(value.record.(stepState := Settled))));
    case OperatorReleases(value) => AnonymousKeepsDeletion(w, Remove(value));
  }

  predicate IsMove(e: Event) { e.AcquireReply? || e.RecordReply? || e.End? || e.Stop? }

  lemma MoveKeepsDeletion(w: World, e: Event)
    requires IdsBelow(w) && DeletionInv(w) && Enabled(w, e) && IsMove(e)
    ensures DeletionInv(Apply(w, e))
  {
    match e
    case RecordReply(o) => RecordReplyKeepsDeletion(w, o);
    case End(o) => EndKeepsDeletion(w, o);
    case AcquireReply(o) => hide DeletionInv; PartyKeepsDeletion(w, o, AcquireReplyStep(w, o).clients[o]);
    case Stop(o) => hide DeletionInv; PartyKeepsDeletion(w, o, w.clients[o].(phase := Stopped));
  }

  lemma StepKeepsDeletion(w: World, e: Event)
    requires Inv(w) && DeletionInv(w) && Enabled(w, e)
    ensures DeletionInv(Apply(w, e))
  {
    assert IdsBelow(w);
    hide DeletionInv, IdsBelow, Inv, MayAttempt, Quiescent, NextRecord, FirstText;
    if IsMove(e) {
      MoveKeepsDeletion(w, e);
    } else if IsRecovery(e) {
      RecoveryKeepsDeletion(w, e);
    } else {
      match e
      case Acquire(a, registered) => AcquireKeepsDeletion(w, a, registered);
      case Commit(id) => CommitKeepsDeletion(w, id);
      case Use(o) => UseKeepsDeletion(w, o);
      case Send(o) => SendKeepsDeletion(w, o);
      case TakeEffect(pid) => OutcomeKeepsDeletion(w, pid, true);
      case Refuse(pid) => OutcomeKeepsDeletion(w, pid, false);
      case ProviderReply(o, alreadyGone) => ProviderReplyKeepsDeletion(w, o, alreadyGone);
    }
  }

  lemma {:induction false} RunKeepsDeletion(ws: seq<World>, es: seq<Event>, i: nat)
    requires IsRun(ws, es) && i < |ws|
    ensures DeletionInv(ws[i])
  {
    hide Enabled, Apply;
    if i > 0 {
      RunKeepsDeletion(ws, es, i - 1);
      RunKeepsInvariant(ws, es, i - 1);
      hide Inv, DeletionInv;
      StepKeepsDeletion(ws[i - 1], es[i - 1]);
    }
  }

  // ---------- theorems ----------

  lemma SeenStep(w: World, e: Event)
    requires Enabled(w, e)
    ensures w.seen <= Apply(w, e).seen
  {
    hide MayAttempt, RecoveryDecision, PromotesUpload, FirstText, NextRecord, AttemptCalls, FirstRecord, Quiescent;
  }

  lemma {:induction false} SeenGrows(ws: seq<World>, es: seq<Event>, i: nat, j: nat)
    requires IsRun(ws, es) && i <= j < |ws|
    ensures ws[i].seen <= ws[j].seen
    decreases j
  {
    hide Enabled, Apply;
    if i < j {
      SeenGrows(ws, es, i, j - 1);
      SeenStep(ws[j - 1], es[j - 1]);
    }
  }

  /** Once a deletion holds the row, a deletion holds it in every later world: no update comes after it. */
  lemma DeletionIsForGood(ws: seq<World>, es: seq<Event>, i: nat, j: nat)
    requires IsRun(ws, es) && i <= j < |ws| && RowDeletes(ws[i])
    ensures RowDeletes(ws[j])
  {
    RunKeepsInvariant(ws, es, i);
    assert RowOk(ws[i]);
    hide Inv;
    SeenGrows(ws, es, i, j);
    RunKeepsDeletion(ws, es, j);
  }

  /** Every request of a deletion that was ever sent was sent under a row that is a deletion's since then. */
  lemma DeletionRequestsHaveADeletionRow(ws: seq<World>, es: seq<Event>, i: nat, pid: nat)
    requires IsRun(ws, es) && i < |ws| && pid in ws[i].dispatches && ws[i].dispatches[pid].started.kind == Delete
    ensures RowDeletes(ws[i])
  {
    RunKeepsDeletion(ws, es, i);
    assert ByClient(ws[i].dispatches[pid].started) in ws[i].seen;
  }

  /** While an upload, a schema write or any other consequential request of an update can still land, nothing else
      can but address activations: no request of a deletion has been sent at all. */
  lemma UpdatesRunWithoutDeletions(ws: seq<World>, es: seq<Event>, i: nat, p: nat, q: nat)
    requires IsRun(ws, es) && i < |ws| && p != q && MayStillLand(ws[i], p)
    requires ws[i].dispatches[p].started.kind == Update && !IsBenign(ws[i].dispatches[p].started)
    ensures q in ws[i].dispatches ==> ws[i].dispatches[q].started.kind == Update
    ensures MayStillLand(ws[i], q) ==> IsPendingAddressActivation(ws[i].dispatches[q].started)
  {
    LateRequestsAreFenced(ws, es, i, p);
    if q in ws[i].dispatches && ws[i].dispatches[q].started.kind == Delete {
      DeletionRequestsHaveADeletionRow(ws, es, i, q);
    }
    if MayStillLand(ws[i], q) { OneConsequentialRequest(ws, es, i, p, q); }
  }

  /** Once a deletion has sent anything, the only request of an update that can still land is an address activation. */
  lemma DeletionsRunWithoutUpdates(ws: seq<World>, es: seq<Event>, i: nat, p: nat, q: nat)
    requires IsRun(ws, es) && i < |ws| && p in ws[i].dispatches && ws[i].dispatches[p].started.kind == Delete
    requires MayStillLand(ws[i], q) && ws[i].dispatches[q].started.kind == Update
    ensures IsPendingAddressActivation(ws[i].dispatches[q].started)
  {
    if !IsBenign(ws[i].dispatches[q].started) { UpdatesRunWithoutDeletions(ws, es, i, q, p); }
  }
}
