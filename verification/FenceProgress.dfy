/**
 The fence lets an undisturbed attempt through: one that finds the row as it was inspected, with every request
 answered, makes all its calls in order, gives up its debt with the last one, and leaves the row free (fence.ts,
 `withDeploymentFence`, `mutate`, `completeVerification` and `finish`).
 */
module FenceProgress {
  import opened Common
  import opened FenceRecords
  import opened FenceCalls
  import opened FenceSteps
  import opened FenceProtocol
  import opened FenceSafety
  import opened FenceTheorems

  /** The receipt in a text was given out before. */
  predicate TagBelow(t: Text, n: nat) {
    t.record.uploadTag.Some? ==> t.record.uploadTag.value.serial < n
  }

  /** The client with this fence and these calls to go holds the row. */
  ghost predicate Owns(w: World, o: nat, f: Fence, phase: Phase, calls: seq<Call>) {
    && o in w.clients && w.clients[o] == Party(f, phase, calls)
    && w.row == Some(f.value) && w.database && !f.databaseRemoved && IdsBelow(w) && TagBelow(f.value, w.next)
  }

  lemma ReachesOne(w: World, e: Event)
    requires Enabled(w, e)
    ensures Reaches(w, [e], Apply(w, e))
  {
    hide Apply, Enabled;
    assert Reaches(Apply(w, e), [], Apply(w, e));
    assert [e][1..] == [];
  }

  lemma ReachesMore(w: World, es: seq<Event>, x: World, e: Event)
    requires Reaches(w, es, x) && Enabled(x, e)
    ensures Reaches(w, es + [e], Apply(x, e))
  {
    ReachesOne(x, e);
    ReachesConcat(w, es, x, [e], Apply(x, e));
  }

  // ---------- one exchange with the database ----------

  /** A client waits for a request that finds the row it expects. */
  ghost predicate Waits(w: World, o: nat, f: Fence, phase: Phase, calls: seq<Call>, id: nat, request: Request,
    completes: bool) {
    && o in w.clients && w.clients[o] == Party(f, phase, calls) && w.database && IdsBelow(w)
    && id in w.exchanges && w.exchanges[id] == Exchange(request, Some(o), completes, None) && Wins(w.row, request)
  }

  lemma Commits(w: World, o: nat, f: Fence, phase: Phase, calls: seq<Call>, id: nat, request: Request, completes: bool)
    requires Waits(w, o, f, phase, calls, id, request, completes)
    ensures Enabled(w, Commit(id))
    ensures var w' := CommitStep(w, id);
      && w'.clients == w.clients && w'.row == Execute(w.row, request) && w'.database && IdsBelow(w')
         && w'.next == w.next
      && id in w'.exchanges && w'.exchanges[id].won == Some(true) && w'.dispatches == w.dispatches
      && w'.debt == (w.debt && !completes)
  {
  }

  /** What a call makes of the fence once its first record is written. */
  function Recorded(f: Fence, call: Call, o: nat, serial: nat): Fence
    requires !call.RequireVerification?
  {
    f.(value := FirstText(f, call, o, serial), uncertain := Dispatches(call).Some?,
       verificationPending := f.verificationPending && !call.CompleteVerification?)
  }

  lemma Uses(w: World, o: nat, f: Fence, calls: seq<Call>)
    requires Owns(w, o, f, Idle, calls) && calls != [] && !calls[0].RequireVerification?
    ensures var next := FirstText(f, calls[0], o, w.next);
      var completes := calls[0].CompleteVerification?;
      && Enabled(w, Use(o))
      && Waits(UseStep(w, o), o, f, Recording(w.next, next, Dispatches(calls[0]).Some?, completes), calls[1..], w.next,
               Replace(f.value, next), completes)
      && UseStep(w, o).row == w.row && UseStep(w, o).dispatches == w.dispatches && UseStep(w, o).debt == w.debt
      && UseStep(w, o).next == w.next + 1 && TagBelow(next, w.next + 1)
  {
    FirstTag(f, calls[0], o, w.next);
    hide FirstText, TagBelow;
  }

  lemma FirstTag(f: Fence, call: Call, o: nat, serial: nat)
    requires !call.RequireVerification? && TagBelow(f.value, serial)
    ensures TagBelow(FirstText(f, call, o, serial), serial + 1)
  {
  }

  lemma Replies(w: World, o: nat, f: Fence, call: Call, calls: seq<Call>, id: nat, serial: nat)
    requires !call.RequireVerification? && o in w.clients && IdsBelow(w) && w.database && !f.databaseRemoved
      && TagBelow(FirstText(f, call, o, serial), w.next)
    requires w.clients[o] == Party(f, Recording(id, FirstText(f, call, o, serial), Dispatches(call).Some?,
                                                call.CompleteVerification?), calls)
    requires id in w.exchanges && w.exchanges[id].won == Some(true) && w.row == Some(FirstText(f, call, o, serial))
    ensures Enabled(w, RecordReply(o))
    ensures Owns(RecordReplyStep(w, o), o, Recorded(f, call, o, serial),
                 if Dispatches(call).Some? then Ready else Idle, calls)
    ensures RecordReplyStep(w, o).dispatches == w.dispatches && RecordReplyStep(w, o).debt == w.debt
  {
    hide FirstText, TagBelow;
  }

  /** A call writes its first record. */
  lemma Writes(w: World, o: nat, f: Fence, calls: seq<Call>) returns (es: seq<Event>, w': World)
    requires Owns(w, o, f, Idle, calls) && calls != [] && !calls[0].RequireVerification?
    ensures Reaches(w, es, w') && w'.dispatches == w.dispatches
    ensures w'.debt == (w.debt && !calls[0].CompleteVerification?)
    ensures Owns(w', o, Recorded(f, calls[0], o, w.next), if Dispatches(calls[0]).Some? then Ready
      else Idle, calls[1..])
  {
    hide Owns, Reaches, UseStep, CommitStep, RecordReplyStep, FirstText, IdsBelow, Enabled, TagBelow;
    var next := FirstText(f, calls[0], o, w.next);
    var completes := calls[0].CompleteVerification?;
    var phase := Recording(w.next, next, Dispatches(calls[0]).Some?, completes);
    OwnsIsReady(w, o, f, Idle, calls);
    Uses(w, o, f, calls);
    var w1 := UseStep(w, o);
    ReachesOne(w, Use(o));
    Commits(w1, o, f, phase, calls[1..], w.next, Replace(f.value, next), completes);
    var w2 := CommitStep(w1, w.next);
    ReachesMore(w, [Use(o)], w1, Commit(w.next));
    Replies(w2, o, f, calls[0], calls[1..], w.next, w.next);
    w' := RecordReplyStep(w2, o);
    ReachesMore(w, [Use(o)] + [Commit(w.next)], w2, RecordReply(o));
    es := [Use(o)] + [Commit(w.next)] + [RecordReply(o)];
  }

  lemma OwnsIsReady(w: World, o: nat, f: Fence, phase: Phase, calls: seq<Call>)
    requires Owns(w, o, f, phase, calls)
    ensures o in w.clients && w.clients[o] == Party(f, phase, calls)
    ensures w.row == Some(f.value) && w.database && !f.databaseRemoved
  {
  }

  // ---------- one request to the provider ----------

  function Answered(f: Fence): Fence {
    f.(value := ByClient(NextRecord(f, f.value.record.step, Confirmed, None, None)), uncertain := false)
  }

  lemma Sends(w: World, o: nat, f: Fence, calls: seq<Call>)
    requires Owns(w, o, f, Ready, calls) && f.value.record.step != DeleteD1Database
    ensures Enabled(w, Send(o)) && Enabled(SendStep(w, o), TakeEffect(w.next))
    ensures var w' := TakeEffectStep(SendStep(w, o), w.next);
      && Owns(w', o, f, Dispatched(w.next), calls) && Enabled(w', ProviderReply(o, false))
      && w.next !in w.dispatches
      && w'.dispatches == w.dispatches[w.next := Dispatch(o, f.value.record, TookEffect)]
      && w'.debt == (w.debt || IncursDebt(f.value.record.step))
  {
  }

  lemma AnswersCome(w: World, o: nat, f: Fence, calls: seq<Call>, pid: nat)
    requires Owns(w, o, f, Dispatched(pid), calls) && f.value.record.step != DeleteD1Database
    requires pid in w.dispatches && w.dispatches[pid].outcome == TookEffect
    ensures var next := Answered(f).value;
      && Waits(ProviderReplyStep(w, o, false), o, f, Recording(w.next, next, false, false), calls, w.next,
               Replace(f.value, next), false)
      && ProviderReplyStep(w, o, false).row == w.row && ProviderReplyStep(w, o, false).dispatches == w.dispatches
      && ProviderReplyStep(w, o, false).debt == w.debt && ProviderReplyStep(w, o, false).next == w.next + 1
      && TagBelow(next, w.next + 1)
  {
    AnswerTag(f, w.next);
    hide NextRecord, TagBelow;
  }

  lemma AnswerTag(f: Fence, n: nat)
    requires TagBelow(f.value, n)
    ensures TagBelow(Answered(f).value, n + 1)
  {
  }

  lemma AnswerReplies(w: World, o: nat, f: Fence, calls: seq<Call>, id: nat)
    requires o in w.clients && IdsBelow(w) && w.database && !f.databaseRemoved && TagBelow(Answered(f).value, w.next)
    requires w.clients[o] == Party(f, Recording(id, Answered(f).value, false, false), calls)
    requires id in w.exchanges && w.exchanges[id].won == Some(true) && w.row == Some(Answered(f).value)
    ensures Enabled(w, RecordReply(o)) && Owns(RecordReplyStep(w, o), o, Answered(f), Idle, calls)
    ensures RecordReplyStep(w, o).dispatches == w.dispatches && RecordReplyStep(w, o).debt == w.debt
  {
    hide NextRecord, TagBelow;
  }

  /** The request is sent, takes effect, and its answer is recorded. */
  lemma DispatchesNext(w: World, o: nat, f: Fence, calls: seq<Call>) returns (es: seq<Event>, w': World)
    requires Owns(w, o, f, Ready, calls) && f.value.record.step != DeleteD1Database
    ensures Reaches(w, es, w') && Owns(w', o, Answered(f), Idle, calls)
    ensures w.next !in w.dispatches
    ensures w'.dispatches == w.dispatches[w.next := Dispatch(o, f.value.record, TookEffect)]
    ensures w'.debt == (w.debt || IncursDebt(f.value.record.step))
  {
    hide Owns, Reaches, SendStep, TakeEffectStep, ProviderReplyStep, CommitStep, RecordReplyStep, NextRecord, IdsBelow,
      Enabled, IncursDebt, TagBelow;
    OwnsIsReady(w, o, f, Ready, calls);
    Sends(w, o, f, calls);
    var w1 := SendStep(w, o);
    ReachesOne(w, Send(o));
    SentIsThere(w, o);
    var w2 := TakeEffectStep(w1, w.next);
    ReachesMore(w, [Send(o)], w1, TakeEffect(w.next));
    OwnsIsReady(w2, o, f, Dispatched(w.next), calls);
    AnswersCome(w2, o, f, calls, w.next);
    var w3 := ProviderReplyStep(w2, o, false);
    ReachesMore(w, [Send(o)] + [TakeEffect(w.next)], w2, ProviderReply(o, false));
    var next := Answered(f).value;
    Commits(w3, o, f, Recording(w2.next, next, false, false), calls, w2.next, Replace(f.value, next), false);
    var w4 := CommitStep(w3, w2.next);
    ReachesMore(w, [Send(o)] + [TakeEffect(w.next)] + [ProviderReply(o, false)], w3, Commit(w2.next));
    AnswerReplies(w4, o, f, calls, w2.next);
    w' := RecordReplyStep(w4, o);
    es := [Send(o)] + [TakeEffect(w.next)] + [ProviderReply(o, false)] + [Commit(w2.next)];
    ReachesMore(w, es, w4, RecordReply(o));
    es := es + [RecordReply(o)];
  }

  lemma SentIsThere(w: World, o: nat)
    requires o in w.clients && w.clients[o].phase.Ready?
    ensures w.next in SendStep(w, o).dispatches
  {
  }

  // ---------- all calls ----------

  /** The fence behind a call, as far as its owner's decision to finish goes. */
  predicate Behind(f: Fence, f': Fence, required: bool) {
    && f'.verificationPending == required && f'.deletionPending == f.deletionPending
    && !f'.databaseRemoved && (!f.uncertain ==> !f'.uncertain)
  }

  /** Is a debt open behind these calls? */
  function DebtAfter(debt: bool, calls: seq<Call>): bool
    decreases calls
  {
    if calls == [] then debt
    else
      var step := Dispatches(calls[0]);
      DebtAfter((debt || (step.Some? && IncursDebt(step.value))) && !calls[0].CompleteVerification?, calls[1..])
  }

  function DispatchCount(calls: seq<Call>): nat
    decreases calls
  {
    if calls == [] then 0 else (if Dispatches(calls[0]).Some? then 1 else 0) + DispatchCount(calls[1..])
  }

  /** A request of this step was sent by this owner since, and took effect. */
  predicate SentSince(w: World, w': World, o: nat, step: Step) {
    exists pid :: pid in w'.dispatches && pid !in w.dispatches && w'.dispatches[pid].owner == o
      && w'.dispatches[pid].started.step == step && w'.dispatches[pid].outcome == TookEffect
  }

  predicate KeepsDispatches(w: World, w': World) {
    forall pid :: pid in w.dispatches ==> pid in w'.dispatches && w'.dispatches[pid] == w.dispatches[pid]
  }

  lemma RequireCall(w: World, o: nat, f: Fence, calls: seq<Call>)
    requires Owns(w, o, f, Idle, calls) && calls != [] && calls[0].RequireVerification?
    ensures Enabled(w, Use(o)) && Owns(UseStep(w, o), o, f.(verificationPending := true), Idle, calls[1..])
    ensures UseStep(w, o).dispatches == w.dispatches && UseStep(w, o).debt == w.debt
  {
  }

  /** What a call does to the fence, the debt and the dispatches. */
  ghost predicate Made(w: World, w': World, o: nat, f: Fence, f': Fence, call: Call) {
    && Behind(f, f', RequiredAfter(f.verificationPending, [call]))
    && w'.debt == DebtAfter(w.debt, [call]) && KeepsDispatches(w, w')
    && |w'.dispatches| == |w.dispatches| + DispatchCount([call])
    && (Dispatches(call).Some? ==> SentSince(w, w', o, Dispatches(call).value))
  }

  lemma AfterOne(required: bool, debt: bool, call: Call)
    ensures RequiredAfter(required, [call]) == (call.RequireVerification? || (required && !call.CompleteVerification?))
    ensures DebtAfter(debt, [call]) ==
      ((debt || (Dispatches(call).Some? && IncursDebt(Dispatches(call).value))) && !call.CompleteVerification?)
    ensures DispatchCount([call]) == if Dispatches(call).Some? then 1 else 0
  {
    assert [call][1..] == [];
    assert RequiredAfter(required, []) == required && DispatchCount([]) == 0;
  }

  lemma MadeRequired(w: World, w': World, o: nat, f: Fence, call: Call)
    requires call.RequireVerification? && w'.dispatches == w.dispatches && w'.debt == w.debt && !f.databaseRemoved
    ensures Made(w, w', o, f, f.(verificationPending := true), call)
  {
    assert [call][1..] == [];
  }

  lemma MadeRecorded(w: World, w': World, o: nat, f: Fence, call: Call, serial: nat)
    requires !call.RequireVerification? && Dispatches(call).None? && !f.databaseRemoved
    requires w'.dispatches == w.dispatches && w'.debt == (w.debt && !call.CompleteVerification?)
    ensures Made(w, w', o, f, Recorded(f, call, o, serial), call)
  {
    hide FirstText, DebtAfter, RequiredAfter, DispatchCount;
    AfterOne(f.verificationPending, w.debt, call);
  }

  lemma MadeDispatched(w: World, w': World, o: nat, f: Fence, call: Call, serial: nat, pid: nat)
    requires Dispatches(call).Some? && !f.databaseRemoved && pid !in w.dispatches
    requires var started := FirstText(f, call, o, serial).record;
      && w'.dispatches == w.dispatches[pid := Dispatch(o, started, TookEffect)]
      && w'.debt == (w.debt || IncursDebt(started.step))
    ensures Made(w, w', o, f, Answered(Recorded(f, call, o, serial)), call)
  {
    FirstStep(f, call, o, serial);
    hide FirstText, IncursDebt, NextRecord, DebtAfter, RequiredAfter, DispatchCount;
    AfterOne(f.verificationPending, w.debt, call);
    assert pid in w'.dispatches;
  }

  lemma OneCall(w: World, o: nat, f: Fence, calls: seq<Call>) returns (es: seq<Event>, w': World, f': Fence)
    requires Owns(w, o, f, Idle, calls) && calls != [] && Dispatches(calls[0]) != Some(DeleteD1Database)
    ensures Reaches(w, es, w') && Owns(w', o, f', Idle, calls[1..]) && Made(w, w', o, f, f', calls[0])
  {
    hide Owns, Reaches, Made, FirstText, NextRecord, IncursDebt, UseStep, Enabled;
    var call := calls[0];
    OwnsIsReady(w, o, f, Idle, calls);
    if call.RequireVerification? {
      RequireCall(w, o, f, calls);
      es, w', f' := [Use(o)], UseStep(w, o), f.(verificationPending := true);
      ReachesOne(w, Use(o));
      MadeRequired(w, w', o, f, call);
    } else {
      es, w' := Writes(w, o, f, calls);
      f' := Recorded(f, call, o, w.next);
      if Dispatches(call).Some? {
        FirstStep(f, call, o, w.next);
        var before, more := w', [];
        more, w' := DispatchesNext(before, o, f', calls[1..]);
        ReachesConcat(w, es, before, more, w');
        es, f' := es + more, Answered(f');
        MadeDispatched(w, w', o, f, call, w.next, before.next);
      } else {
        MadeRecorded(w, w', o, f, call, w.next);
      }
    }
  }

  lemma FirstStep(f: Fence, call: Call, o: nat, serial: nat)
    requires Dispatches(call).Some?
    ensures FirstText(f, call, o, serial).record.step == Dispatches(call).value
  {
  }

  /** All calls in order. */
  lemma {:induction false} AllCalls(w: World, o: nat, f: Fence, calls: seq<Call>)
    returns (es: seq<Event>, w': World, f': Fence)
    requires Owns(w, o, f, Idle, calls)
    requires forall i :: 0 <= i < |calls| ==> Dispatches(calls[i]) != Some(DeleteD1Database)
    ensures Reaches(w, es, w') && Owns(w', o, f', Idle, [])
    ensures Behind(f, f', RequiredAfter(f.verificationPending, calls)) && w'.debt == DebtAfter(w.debt, calls)
    ensures KeepsDispatches(w, w') && |w'.dispatches| == |w.dispatches| + DispatchCount(calls)
    ensures forall i :: 0 <= i < |calls| && Dispatches(calls[i]).Some? ==>
      SentSince(w, w', o, Dispatches(calls[i]).value)
    decreases calls
  {
    hide Owns, Reaches, IncursDebt;
    OwnsIsReady(w, o, f, Idle, calls);
    if calls == [] {
      es, w', f' := [], w, f;
      ReachesNothing(w);
    } else {
      var more, middle, f1;
      es, middle, f1 := OneCall(w, o, f, calls);
      more, w', f' := AllCalls(middle, o, f1, calls[1..]);
      ReachesConcat(w, es, middle, more, w');
      es := es + more;
      OneThenAll(f.verificationPending, w.debt, calls);
      forall i | 0 <= i < |calls| && Dispatches(calls[i]).Some?
        ensures SentSince(w, w', o, Dispatches(calls[i]).value)
      {
        if i == 0 {
          SentStays(w, middle, w', o, Dispatches(calls[0]).value);
        } else {
          assert calls[i] == calls[1..][i - 1];
          SentEarlier(w, middle, w', o, Dispatches(calls[i]).value);
        }
      }
    }
  }

  lemma ReachesNothing(w: World)
    ensures Reaches(w, [], w)
  {
  }

  lemma SentStays(w: World, middle: World, w': World, o: nat, step: Step)
    requires SentSince(w, middle, o, step) && KeepsDispatches(middle, w')
    ensures SentSince(w, w', o, step)
  {
  }

  lemma SentEarlier(w: World, middle: World, w': World, o: nat, step: Step)
    requires SentSince(middle, w', o, step) && KeepsDispatches(w, middle)
    ensures SentSince(w, w', o, step)
  {
  }

  lemma OneThenAll(required: bool, debt: bool, calls: seq<Call>)
    requires calls != []
    ensures RequiredAfter(RequiredAfter(required, [calls[0]]), calls[1..]) == RequiredAfter(required, calls)
    ensures DebtAfter(DebtAfter(debt, [calls[0]]), calls[1..]) == DebtAfter(debt, calls)
    ensures DispatchCount([calls[0]]) + DispatchCount(calls[1..]) == DispatchCount(calls)
  {
    hide IncursDebt;
    assert [calls[0]][1..] == [];
  }

  // ---------- the attempt ----------

  lemma {:induction false} CompletionSettles(required: bool, debt: bool, calls: seq<Call>)
    requires calls != [] && calls[|calls| - 1] == CompleteVerification
    ensures !RequiredAfter(required, calls) && !DebtAfter(debt, calls)
    decreases calls
  {
    hide IncursDebt;
    OneThenAll(required, debt, calls);
    if |calls| > 1 {
      CompletionSettles(RequiredAfter(required, [calls[0]]), DebtAfter(debt, [calls[0]]), calls[1..]);
    } else {
      assert calls == [CompleteVerification] && calls[1..] == [];
    }
  }

  lemma Acquires(w: World, a: Attempt, registered: set<string>) returns (es: seq<Event>, w': World)
    requires IdsBelow(w) && w.database && MayAttempt(w, a, registered) && w.row == Predecessor(a.intent)
    ensures Reaches(w, es, w') && w'.dispatches == w.dispatches && w'.debt == w.debt
    ensures Owns(w', a.owner, Open(ByClient(FirstRecord(a))), Idle, AttemptCalls(a.intent))
  {
    hide Reaches, AttemptCalls, MayAttempt;
    var value := ByClient(FirstRecord(a));
    var request := if w.row.None? then Insert(value) else Replace(w.row.value, value);
    var w1 := AcquireStep(w, a);
    AcquireWaits(w, a, request);
    ReachesOne(w, Acquire(a, registered));
    Commits(w1, a.owner, Open(value), Acquiring(w.next), AttemptCalls(a.intent), w.next, request, false);
    var w2 := CommitStep(w1, w.next);
    ReachesMore(w, [Acquire(a, registered)], w1, Commit(w.next));
    w' := AcquireReplyStep(w2, a.owner);
    es := [Acquire(a, registered)] + [Commit(w.next)];
    ReachesMore(w, es, w2, AcquireReply(a.owner));
    es := es + [AcquireReply(a.owner)];
  }

  lemma AcquireWaits(w: World, a: Attempt, request: Request)
    requires IdsBelow(w) && w.database && w.row == Predecessor(a.intent)
    requires var value := ByClient(FirstRecord(a));
      request == if w.row.None? then Insert(value) else Replace(w.row.value, value)
    ensures var w' := AcquireStep(w, a);
      && Waits(w', a.owner, Open(ByClient(FirstRecord(a))), Acquiring(w.next), AttemptCalls(a.intent), w.next, request,
               false)
      && w'.dispatches == w.dispatches && w'.debt == w.debt && w'.row == w.row
  {
    hide AttemptCalls;
  }

  lemma Finishes(w: World, o: nat, f: Fence) returns (es: seq<Event>, w': World)
    requires Owns(w, o, f, Idle, []) && MayFinish(f)
    ensures Reaches(w, es, w') && w'.row == None && w'.dispatches == w.dispatches && w'.debt == w.debt
  {
    hide Reaches;
    var w1 := EndStep(w, o);
    ReachesOne(w, End(o));
    Commits(w1, o, f, Releasing(w.next), [], w.next, Remove(f.value), false);
    w' := CommitStep(w1, w.next);
    es := [End(o)] + [Commit(w.next)];
    ReachesMore(w, [End(o)], w1, Commit(w.next));
  }

  lemma NothingOwedAtFirst(a: Attempt)
    requires !IsDeletionIntent(a.intent)
    ensures var f := Open(ByClient(FirstRecord(a))); !f.uncertain && !f.deletionPending && !f.databaseRemoved
  {
  }

  lemma UpdateCallsComplete(i: Intent)
    requires !IsDeletionIntent(i)
    ensures var calls := AttemptCalls(i);
      && calls != [] && calls[|calls| - 1] == CompleteVerification
      && forall k :: 0 <= k < |calls| ==> Dispatches(calls[k]) != Some(DeleteD1Database)
  {
    match i
    case NewUpdate(c) => OnlyUpdateSteps(c);
    case ResumeUpdate(_, _, c) => OnlyUpdateSteps(c);
    case VerifyUpdate(_, _, guardsToRelease) =>
  }

  lemma OnlyUpdateSteps(c: UpdateConditions)
    ensures var calls := UpdateCalls(c);
      && calls != [] && calls[|calls| - 1] == CompleteVerification
      && forall k :: 0 <= k < |calls| ==> Dispatches(calls[k]) != Some(DeleteD1Database)
  {
    hide UpdateCalls;
    UpdateDisciplined(false, c);
    UpdateInOrder(c);
  }

  /**
   * In any run, an update that may start where the row stands, anew, resumed or only to verify, gets through if
   * nobody disturbs it: every step it dispatches takes effect, it sends nothing else, no debt is left, and the row is
   * free. So whatever an interrupted update left that recovery offers can be brought to its end.
   */
  lemma UndisturbedUpdateFinishes(ws: seq<World>, es: seq<Event>, a: Attempt, registered: set<string>)
    returns (more: seq<Event>, w': World)
    requires IsRun(ws, es) && !IsDeletionIntent(a.intent)
    requires var w := ws[|es|]; w.database && MayAttempt(w, a, registered) && w.row == Predecessor(a.intent)
    ensures var w := ws[|es|];
      var calls := AttemptCalls(a.intent);
      && Reaches(w, more, w') && w'.row == None && !w'.debt
      && |w'.dispatches| == |w.dispatches| + DispatchCount(calls)
      && forall i :: 0 <= i < |calls| && Dispatches(calls[i]).Some? ==>
           SentSince(w, w', a.owner, Dispatches(calls[i]).value)
  {
    hide Reaches, AttemptCalls, MayAttempt, IsRun, Inv, Owns, IncursDebt;
    LastIsBelow(ws, es);
    var w := ws[|es|];
    var calls := AttemptCalls(a.intent);
    UpdateCallsComplete(a.intent);
    NothingOwedAtFirst(a);
    var f := Open(ByClient(FirstRecord(a)));
    var first, made, last, w1, w2, f';
    first, w1 := Acquires(w, a, registered);
    made, w2, f' := AllCalls(w1, a.owner, f, calls);
    CompletionSettles(f.verificationPending, w1.debt, calls);
    last, w' := Finishes(w2, a.owner, f');
    ReachesConcat(w, first, w1, made, w2);
    ReachesConcat(w, first + made, w2, last, w');
    more := first + made + last;
  }

  lemma LastIsBelow(ws: seq<World>, es: seq<Event>)
    requires IsRun(ws, es)
    ensures |ws| == |es| + 1 && IdsBelow(ws[|es|])
  {
    RunKeepsInvariant(ws, es, |es|);
  }
}
