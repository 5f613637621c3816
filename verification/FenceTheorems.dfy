/** What the fence guarantees over every run. */
module FenceTheorems {
  import opened Common
  import opened FenceRecords
  import opened FenceCalls
  import opened FenceProtocol
  import opened FenceSafety

  lemma {:induction false} RunKeepsInvariant(ws: seq<World>, es: seq<Event>, i: nat)
    requires IsRun(ws, es) && i < |ws|
    ensures Inv(ws[i])
  {
    if i == 0 {
      InitialOk();
    } else {
      RunKeepsInvariant(ws, es, i - 1);
      StepKeeps(ws[i - 1], es[i - 1]);
    }
  }

  predicate MayStillLand(w: World, pid: nat) {
    pid in w.dispatches && w.dispatches[pid].outcome == InFlight
  }

  predicate Holds(w: World, owner: nat) {
    w.row.Some? && w.row.value.record.owner == owner
  }

  // ---------- mutual exclusion of provider requests ----------

  /** Unless it is an address activation or a repeatable deletion step, a request that can still take
      effect has its own started record in the fence row: nobody has taken over since it was started. */
  lemma LateRequestsAreFenced(ws: seq<World>, es: seq<Event>, i: nat, pid: nat)
    requires IsRun(ws, es) && i < |ws| && MayStillLand(ws[i], pid)
    requires !IsBenign(ws[i].dispatches[pid].started)
    ensures ws[i].row == Some(ByClient(ws[i].dispatches[pid].started))
    ensures Holds(ws[i], ws[i].dispatches[pid].owner)
  {
    RunKeepsInvariant(ws, es, i);
    assert DispatchOk(ws[i], pid);
  }

  /** Of any two requests that can still take effect, one is benign. */
  lemma OneConsequentialRequest(ws: seq<World>, es: seq<Event>, i: nat, p: nat, q: nat)
    requires IsRun(ws, es) && i < |ws| && p != q && MayStillLand(ws[i], p) && MayStillLand(ws[i], q)
    ensures IsBenign(ws[i].dispatches[p].started) || IsBenign(ws[i].dispatches[q].started)
  {
    RunKeepsInvariant(ws, es, i);
    assert DispatchOk(ws[i], p) && DispatchOk(ws[i], q);
  }

  /** A settled record means what `isSettledStep` says: no consequential request is in flight. */
  lemma SettledRowIsQuiet(ws: seq<World>, es: seq<Event>, i: nat, pid: nat)
    requires IsRun(ws, es) && i < |ws| && MayStillLand(ws[i], pid)
    requires ws[i].row.Some? ==> IsSettledStep(ws[i].row.value.record)
    ensures IsBenign(ws[i].dispatches[pid].started)
  {
    RunKeepsInvariant(ws, es, i);
    assert DispatchOk(ws[i], pid);
  }

  /** Nothing that can still take effect matters, but for address activations and repeatable deletion steps. */
  ghost predicate OnlyBenignInFlight(w: World) {
    forall pid :: MayStillLand(w, pid) ==> IsBenign(w.dispatches[pid].started)
  }

  /** The row is the started record of a consequential request that is still in flight. */
  ghost predicate RowIsInFlight(w: World) {
    exists pid :: MayStillLand(w, pid) && !IsBenign(w.dispatches[pid].started)
                  && w.row == Some(ByClient(w.dispatches[pid].started))
  }

  /** What a sender can read: no row, a row whose step is not started or is benign, or its own started row. */
  predicate RowAllowsDispatch(row: Option<Text>, own: Text) {
    row.None? || row.value.record.stepState != Started || IsBenign(row.value.record) || row == Some(own)
  }

  /** When a client dispatches, everything else in flight is benign, unless the row is the started record of a
      consequential request in flight. What the row shows beforehand can rule that out, and so can a
      consequential step of the client's own. */
  lemma DispatchIsExclusive(ws: seq<World>, es: seq<Event>, i: nat, owner: nat)
    requires IsRun(ws, es) && i < |es| && es[i] == Send(owner)
    ensures OnlyBenignInFlight(ws[i]) <==> !RowIsInFlight(ws[i])
    ensures RowAllowsDispatch(ws[i].row, ws[i].clients[owner].fence.value) ==> OnlyBenignInFlight(ws[i])
    ensures !IsBenign(ws[i].clients[owner].fence.value.record) ==> OnlyBenignInFlight(ws[i])
  {
    RunKeepsInvariant(ws, es, i);
    assert PartyOk(ws[i], owner);
    QuietClient(ws[i], owner);
    forall pid | MayStillLand(ws[i], pid) && !IsBenign(ws[i].dispatches[pid].started)
      ensures ws[i].row == Some(ByClient(ws[i].dispatches[pid].started)) && ws[i].row.value.record.stepState == Started
      ensures ws[i].row != Some(ws[i].clients[owner].fence.value)
    {
      assert DispatchOk(ws[i], pid);
    }
  }

  // A run in which something consequential is in flight at a dispatch: owner 0 has recorded
  // `delete-worker` but has not sent it when owner 1 resumes the deletion and starts its helper upload.

  const FIRST_ATTEMPT := Attempt(0, "w", "", "", "r", NewDeletion(DeletionConditions(true, false, [], false)))
  const FIRST_HELD := ByClient(FirstRecord(FIRST_ATTEMPT))
  const FIRST_STARTED := ByClient(FirstRecord(FIRST_ATTEMPT).(step := DeleteWorker, stepState := Started))
  const SECOND_ATTEMPT :=
    Attempt(1, "w", "", "", "r", TakeOverByDeletion(FIRST_STARTED, None, DeletionConditions(false, true, [], false)))
  const SECOND_HELD := ByClient(FirstRecord(SECOND_ATTEMPT))
  const SECOND_STARTED :=
    ByClient(FirstRecord(SECOND_ATTEMPT).(step := UploadWorker, stepState := Started, uploadTag := Some(Tag(1, 3))))
  const SECOND_CALLS := [Mutate(EnableDeletionAddress, None), Mutate(DeleteR2Bucket, None)]

  const FIRST_PARTY := Party(Open(FIRST_HELD).(value := FIRST_STARTED, uncertain := true), Ready, [])
  const FIRST_EXCHANGES := map[
    0 := Exchange(Insert(FIRST_HELD), Some(0), false, Some(true)),
    1 := Exchange(Replace(FIRST_HELD, FIRST_STARTED), Some(0), false, Some(true))]

  /** Owner 0 has won its started row and is about to send. */
  const FIRST_READY := World(Some(FIRST_STARTED), true, {FIRST_HELD, FIRST_STARTED}, {0}, map[0 := FIRST_PARTY],
                            FIRST_EXCHANGES, map[], {}, false, 2)

  /** Owner 1 has taken over and has its upload in flight. */
  const UPLOAD_IN_FLIGHT := World(
    Some(SECOND_STARTED), true, {FIRST_HELD, FIRST_STARTED, SECOND_HELD, SECOND_STARTED}, {0, 1},
    map[0 := FIRST_PARTY,
        1 := Party(Open(SECOND_HELD).(value := SECOND_STARTED, uncertain := true), Dispatched(4), SECOND_CALLS)],
    FIRST_EXCHANGES[2 := Exchange(Replace(FIRST_STARTED, SECOND_HELD), Some(1), false, Some(true))]
                  [3 := Exchange(Replace(SECOND_HELD, SECOND_STARTED), Some(1), false, Some(true))],
    map[4 := Dispatch(1, SECOND_STARTED.record, InFlight)], {}, true, 5)

  ghost predicate Reaches(w: World, es: seq<Event>, w': World)
    decreases es
  {
    if es == [] then w == w' else Enabled(w, es[0]) && Reaches(Apply(w, es[0]), es[1..], w')
  }

  /** Owner 0 holds the row and has made no call yet. */
  const FIRST_IDLE := World(Some(FIRST_HELD), true, {FIRST_HELD}, {0},
                           map[0 := Party(Open(FIRST_HELD), Idle, [Mutate(DeleteWorker, None)])],
                           map[0 := Exchange(Insert(FIRST_HELD), Some(0), false, Some(true))], map[], {}, false, 1)

  lemma FirstAcquires()
    ensures Reaches(INITIAL, [Acquire(FIRST_ATTEMPT, {}), Commit(0), AcquireReply(0)], FIRST_IDLE)
  {
    var w1 := Apply(INITIAL, Acquire(FIRST_ATTEMPT, {}));
    var w2 := Apply(w1, Commit(0));
    var w3 := Apply(w2, AcquireReply(0));
    assert w3.clients[0] == FIRST_IDLE.clients[0];
    assert w3.clients == FIRST_IDLE.clients && w3.exchanges == FIRST_IDLE.exchanges;
    assert w3 == FIRST_IDLE;
    var es := [Acquire(FIRST_ATTEMPT, {}), Commit(0), AcquireReply(0)];
    assert es[2..][1..] == [] && Reaches(w2, es[2..], FIRST_IDLE);
    assert es[1..][1..] == es[2..] && Reaches(w1, es[1..], FIRST_IDLE);
  }

  lemma FirstRecords()
    ensures Reaches(FIRST_IDLE, [Use(0), Commit(1), RecordReply(0)], FIRST_READY)
  {
    var w1 := Apply(FIRST_IDLE, Use(0));
    assert w1.clients[0] == Party(Open(FIRST_HELD), Recording(1, FIRST_STARTED, true, false), []);
    var w2 := Apply(w1, Commit(1));
    assert Apply(w2, RecordReply(0)) == FIRST_READY;
    var es := [Use(0), Commit(1), RecordReply(0)];
    assert es[2..][1..] == [] && Reaches(w2, es[2..], FIRST_READY);
    assert es[1..][1..] == es[2..] && Reaches(w1, es[1..], FIRST_READY);
  }

  /** Owner 1 has sent its takeover; then it has won and has made no call yet. */
  const SECOND_ACQUIRING := World(
    Some(FIRST_STARTED), true, {FIRST_HELD, FIRST_STARTED}, {0},
    map[0 := FIRST_PARTY, 1 := Party(Open(SECOND_HELD), Acquiring(2), [Upload] + SECOND_CALLS)],
    FIRST_EXCHANGES[2 := Exchange(Replace(FIRST_STARTED, SECOND_HELD), Some(1), false, None)],
    map[], {}, false, 3)
  const SECOND_IDLE := World(
    Some(SECOND_HELD), true, {FIRST_HELD, FIRST_STARTED, SECOND_HELD}, {0, 1},
    map[0 := FIRST_PARTY, 1 := Party(Open(SECOND_HELD), Idle, [Upload] + SECOND_CALLS)],
    FIRST_EXCHANGES[2 := Exchange(Replace(FIRST_STARTED, SECOND_HELD), Some(1), false, Some(true))],
    map[], {}, false, 3)
  /** Owner 1 has sent its started step. */
  const SECOND_RECORDING := World(
    Some(SECOND_HELD), true, {FIRST_HELD, FIRST_STARTED, SECOND_HELD}, {0, 1},
    map[0 := FIRST_PARTY, 1 := Party(Open(SECOND_HELD), Recording(3, SECOND_STARTED, true, false), SECOND_CALLS)],
    SECOND_IDLE.exchanges[3 := Exchange(Replace(SECOND_HELD, SECOND_STARTED), Some(1), false, None)],
    map[], {}, false, 4)

  lemma SecondAcquires()
    ensures Reaches(FIRST_READY, [Acquire(SECOND_ATTEMPT, {})], SECOND_ACQUIRING)
  {
    assert DeletionCalls(DeletionConditions(false, true, [], false)) == [Upload] + SECOND_CALLS;
    var w := Apply(FIRST_READY, Acquire(SECOND_ATTEMPT, {}));
    assert w.clients == SECOND_ACQUIRING.clients;
    assert w.exchanges == SECOND_ACQUIRING.exchanges;
    assert [Acquire(SECOND_ATTEMPT, {})][1..] == [];
  }

  lemma SecondWins()
    ensures Reaches(SECOND_ACQUIRING, [Commit(2), AcquireReply(1)], SECOND_IDLE)
  {
    var w := Apply(SECOND_ACQUIRING, Commit(2));
    assert w == SECOND_IDLE.(clients := SECOND_ACQUIRING.clients);
    assert Apply(w, AcquireReply(1)) == SECOND_IDLE;
    var es := [Commit(2), AcquireReply(1)];
    assert es[1..][1..] == [] && Reaches(w, es[1..], SECOND_IDLE);
  }

  lemma SecondRecords()
    ensures Reaches(SECOND_IDLE, [Use(1)], SECOND_RECORDING)
  {
    assert ([Upload] + SECOND_CALLS)[1..] == SECOND_CALLS;
    var w := Apply(SECOND_IDLE, Use(1));
    assert FirstText(Open(SECOND_HELD), Upload, 1, 3) == SECOND_STARTED;
    assert w.clients == SECOND_RECORDING.clients;
    assert w.exchanges == SECOND_RECORDING.exchanges;
    assert [Use(1)][1..] == [];
  }

  /** Owner 1 has won its started step and is about to send. */
  const SECOND_READY := UPLOAD_IN_FLIGHT.(
    clients := map[0 := FIRST_PARTY, 1 := Party(Open(SECOND_HELD).(value := SECOND_STARTED, uncertain := true), Ready,
      SECOND_CALLS)],
    dispatches := map[], debt := false, next := 4)

  lemma SecondWinsStep()
    ensures Reaches(SECOND_RECORDING, [Commit(3), RecordReply(1)], SECOND_READY)
  {
    var w := Apply(SECOND_RECORDING, Commit(3));
    assert w == SECOND_READY.(clients := SECOND_RECORDING.clients)
      by { assert w.exchanges == UPLOAD_IN_FLIGHT.exchanges; }
    assert Apply(w, RecordReply(1)) == SECOND_READY;
    var es := [Commit(3), RecordReply(1)];
    assert es[1..][1..] == [] && Reaches(w, es[1..], SECOND_READY);
  }

  lemma SecondSends()
    ensures Reaches(SECOND_READY, [Send(1)], UPLOAD_IN_FLIGHT)
  {
    hide MayAttempt, RecoveryDecision, PromotesUpload, FirstText, NextRecord, AttemptCalls, Quiescent, CommitStep, Wins;
    var w := SendStep(SECOND_READY, 1);
    assert w.clients == UPLOAD_IN_FLIGHT.clients;
    assert w.dispatches == UPLOAD_IN_FLIGHT.dispatches;
    assert [Send(1)][1..] == [];
  }

  lemma SecondUploads()
    ensures Reaches(SECOND_RECORDING, [Commit(3), RecordReply(1)] + [Send(1)], UPLOAD_IN_FLIGHT)
  {
    SecondWinsStep();
    SecondSends();
    ReachesConcat(SECOND_RECORDING, [Commit(3), RecordReply(1)], SECOND_READY, [Send(1)], UPLOAD_IN_FLIGHT);
  }

  lemma FirstSends()
    ensures Reaches(UPLOAD_IN_FLIGHT, [Send(0)], Apply(UPLOAD_IN_FLIGHT, Send(0)))
  {
    assert [Send(0)][1..] == [];
  }

  lemma {:induction false} ReachesConcat(w: World, a: seq<Event>, x: World, b: seq<Event>, y: World)
    requires Reaches(w, a, x) && Reaches(x, b, y)
    ensures Reaches(w, a + b, y)
    decreases a
  {
    hide Enabled, Apply;
    if a == [] {
      assert a + b == b;
    } else {
      assert (a + b)[1..] == a[1..] + b;
      ReachesConcat(Apply(w, a[0]), a[1..], x, b, y);
    }
  }

  /** A reachable world ends a run. */
  lemma {:induction false} ReachesExtendsRun(ws: seq<World>, done: seq<Event>, es: seq<Event>, w: World)
    returns (all: seq<World>)
    requires IsRun(ws, done) && Reaches(ws[|done|], es, w)
    ensures IsRun(all, done + es) && all[|all| - 1] == w
    decreases es
  {
    hide Enabled, Apply;
    if es == [] {
      all := ws;
      assert done + es == done;
    } else {
      var next := Apply(ws[|done|], es[0]);
      assert IsRun(ws + [next], done + [es[0]]);
      all := ReachesExtendsRun(ws + [next], done + [es[0]], es[1..], w);
      assert done + [es[0]] + es[1..] == done + es;
    }
  }

  const FIRST_EVENTS := [Acquire(FIRST_ATTEMPT, {}), Commit(0), AcquireReply(0)] + [Use(0), Commit(1), RecordReply(0)]
  const SECOND_EVENTS :=
    [Acquire(SECOND_ATTEMPT, {})] + [Commit(2), AcquireReply(1)] + [Use(1)] + ([Commit(3), RecordReply(1)] + [Send(1)])
  const DISPLACED_EVENTS := FIRST_EVENTS + SECOND_EVENTS + [Send(0)]

  lemma SecondGetsThere()
    ensures Reaches(FIRST_READY, SECOND_EVENTS, UPLOAD_IN_FLIGHT)
  {
    SecondAcquires();
    SecondWins();
    ReachesConcat(FIRST_READY, [Acquire(SECOND_ATTEMPT, {})], SECOND_ACQUIRING, [Commit(2), AcquireReply(1)],
      SECOND_IDLE);
    SecondRecords();
    ReachesConcat(FIRST_READY, [Acquire(SECOND_ATTEMPT, {})] + [Commit(2), AcquireReply(1)], SECOND_IDLE, [Use(1)],
      SECOND_RECORDING);
    SecondUploads();
    ReachesConcat(FIRST_READY, [Acquire(SECOND_ATTEMPT, {})] + [Commit(2), AcquireReply(1)] + [Use(1)],
                  SECOND_RECORDING, [Commit(3), RecordReply(1)] + [Send(1)], UPLOAD_IN_FLIGHT);
  }

  /** The helper upload of owner 1 and the Worker removal of owner 0, which owner 1 displaced, can both still land. */
  predicate BothInFlight(w: World) {
    && MayStillLand(w, 4) && w.dispatches[4].owner == 1 && !IsBenign(w.dispatches[4].started)
    && MayStillLand(w, 5) && w.dispatches[5].owner == 0 && IsBenign(w.dispatches[5].started)
  }

  lemma LastSend()
    ensures Enabled(UPLOAD_IN_FLIGHT, Send(0)) && BothInFlight(Apply(UPLOAD_IN_FLIGHT, Send(0)))
  {
  }

  lemma DisplacedRun() returns (w: World)
    ensures Reaches(INITIAL, DISPLACED_EVENTS, w) && BothInFlight(w)
  {
    FirstAcquires();
    FirstRecords();
    ReachesConcat(INITIAL, [Acquire(FIRST_ATTEMPT, {}), Commit(0), AcquireReply(0)], FIRST_IDLE,
      [Use(0), Commit(1), RecordReply(0)], FIRST_READY);
    SecondGetsThere();
    ReachesConcat(INITIAL, FIRST_EVENTS, FIRST_READY, SECOND_EVENTS, UPLOAD_IN_FLIGHT);
    FirstSends();
    LastSend();
    w := Apply(UPLOAD_IN_FLIGHT, Send(0));
    ReachesConcat(INITIAL, FIRST_EVENTS + SECOND_EVENTS, UPLOAD_IN_FLIGHT, [Send(0)], w);
  }

  lemma RunTo(es: seq<Event>, w: World) returns (ws: seq<World>)
    requires Reaches(INITIAL, es, w)
    ensures IsRun(ws, es) && ws[|es|] == w
  {
    ws := ReachesExtendsRun([INITIAL], [], es, w);
    assert [] + es == es;
  }

  /** Not every dispatch is exclusive: a displaced owner may still send its benign request while a later owner's
      upload is in flight. */
  lemma DisplacedDispatchIsNotExclusive() returns (ws: seq<World>)
    ensures IsRun(ws, DISPLACED_EVENTS) && BothInFlight(ws[|DISPLACED_EVENTS|])
    ensures DISPLACED_EVENTS[|DISPLACED_EVENTS| - 1] == Send(0)
  {
    var w := DisplacedRun();
    hide Enabled, Apply, BothInFlight;
    ws := RunTo(DISPLACED_EVENTS, w);
  }

  // ---------- linear ownership ----------

  lemma LostStaysLost(w: World, e: Event, owner: nat)
    requires Inv(w) && Enabled(w, e) && owner in w.held && !Holds(w, owner)
    ensures owner in Apply(w, e).held && !Holds(Apply(w, e), owner)
    ensures e.Commit? && w.exchanges[e.id].author == Some(owner) ==> Apply(w, e).exchanges[e.id].won == Some(false)
  {
    hide PartyOk, DispatchOk;
    if e.Commit? {
      assert ExchangeOk(w, e.id);
    } else {
      OnlyCommitsMoveTheRow(w, e);
    }
  }

  lemma OnlyCommitsMoveTheRow(w: World, e: Event)
    requires Enabled(w, e) && !e.Commit?
    ensures Apply(w, e).row == w.row && Apply(w, e).held == w.held
  {
    hide MayAttempt, RecoveryDecision, PromotesUpload, FirstText, NextRecord, AttemptCalls, FirstRecord, Quiescent;
  }

  lemma {:induction false} HeldGrows(ws: seq<World>, es: seq<Event>, i: nat, j: nat, owner: nat)
    requires IsRun(ws, es) && i <= j < |ws| && owner in ws[i].held
    ensures owner in ws[j].held
    decreases j
  {
    hide Enabled, Apply;
    if i < j {
      HeldGrows(ws, es, i, j - 1, owner);
      HeldStep(ws[j - 1], es[j - 1], owner);
    }
  }

  lemma HeldStep(w: World, e: Event, owner: nat)
    requires Enabled(w, e) && owner in w.held
    ensures owner in Apply(w, e).held
  {
    if !e.Commit? { OnlyCommitsMoveTheRow(w, e); }
  }

  lemma LostStaysLostAt(ws: seq<World>, es: seq<Event>, k: nat, owner: nat)
    requires IsRun(ws, es) && k < |es| && owner in ws[k].held && !Holds(ws[k], owner)
    ensures !Holds(ws[k + 1], owner)
  {
    RunKeepsInvariant(ws, es, k);
    LostStaysLost(ws[k], es[k], owner);
  }

  lemma HolderIsHeld(ws: seq<World>, es: seq<Event>, i: nat, owner: nat)
    requires IsRun(ws, es) && i < |ws| && Holds(ws[i], owner)
    ensures owner in ws[i].held
  {
    RunKeepsInvariant(ws, es, i);
  }

  /** Ownership is linear: once the row has left an owner, it never returns to it. */
  lemma {:induction false} OwnershipIsLinear(ws: seq<World>, es: seq<Event>, i: nat, j: nat, k: nat, owner: nat)
    requires IsRun(ws, es) && i <= j <= k < |ws| && Holds(ws[i], owner) && !Holds(ws[j], owner)
    ensures !Holds(ws[k], owner)
    decreases k
  {
    hide Enabled, Apply, INITIAL;
    if j < k {
      OwnershipIsLinear(ws, es, i, j, k - 1, owner);
      HolderIsHeld(ws, es, i, owner);
      HeldGrows(ws, es, i, k - 1, owner);
      LostStaysLostAt(ws, es, k - 1, owner);
    }
  }

  /** None of the database requests of an owner that lost the row wins afterwards, however late it executes
      and whatever text of its earlier records it expects. */
  lemma LostOwnerNeverWins(ws: seq<World>, es: seq<Event>, i: nat, j: nat, k: nat, owner: nat, id: nat)
    requires IsRun(ws, es) && i <= j <= k < |es| && Holds(ws[i], owner) && !Holds(ws[j], owner)
    requires es[k] == Commit(id) && ws[k].exchanges[id].author == Some(owner)
    ensures ws[k + 1].exchanges[id].won == Some(false) && ws[k + 1].row == ws[k].row
  {
    OwnershipIsLinear(ws, es, i, j, k, owner);
    HolderIsHeld(ws, es, i, owner);
    HeldGrows(ws, es, i, k, owner);
    RunKeepsInvariant(ws, es, k);
    LostStaysLost(ws[k], es[k], owner);
  }

  lemma DisplacedClient(w: World, owner: nat)
    requires Inv(w) && owner in w.clients && !Holds(w, owner)
    ensures w.clients[owner].phase.Ready? ==> IsBenign(w.clients[owner].fence.value.record)
    ensures w.row != Some(w.clients[owner].fence.value)
  {
    assert PartyOk(w, owner);
  }

  /** After losing the row an owner starts no further fenced mutation: the next one stops it before anything
      is recorded, so it can only still send the step it had recorded before, and that step is benign. */
  lemma LostOwnerStartsNothing(ws: seq<World>, es: seq<Event>, i: nat, j: nat, k: nat, owner: nat)
    requires IsRun(ws, es) && i <= j <= k < |es| && Holds(ws[i], owner) && !Holds(ws[j], owner)
    ensures es[k] == Send(owner) ==> IsBenign(ws[k].clients[owner].fence.value.record)
    ensures es[k] == Use(owner) && Dispatches(ws[k].clients[owner].calls[0]).Some? ==>
              ws[k + 1].clients[owner].phase == Stopped && ws[k + 1].exchanges == ws[k].exchanges
  {
    OwnershipIsLinear(ws, es, i, j, k, owner);
    RunKeepsInvariant(ws, es, k);
    if es[k] == Send(owner) || es[k] == Use(owner) { DisplacedClient(ws[k], owner); }
  }

  // ---------- verification debt ----------

  /** Has a freeze, schema initialization, migration or Worker upload been dispatched since the last
      completed verification? */
  ghost predicate Owes(ws: seq<World>, es: seq<Event>, i: nat)
    requires IsRun(ws, es) && i < |ws|
    decreases i
  {
    i > 0 &&
    match es[i - 1]
    case Send(o) => Owes(ws, es, i - 1) || IncursDebt(ws[i - 1].clients[o].fence.value.record.step)
    case Commit(id) => Owes(ws, es, i - 1) && !(ws[i - 1].exchanges[id].completes && ws[i].exchanges[id].won ==
      Some(true))
    case TakeEffect(pid) => Owes(ws, es, i - 1) && ws[i - 1].dispatches[pid].started.step != DeleteD1Database
    case _ => Owes(ws, es, i - 1)
  }

  lemma {:induction false} DebtIsOwed(ws: seq<World>, es: seq<Event>, i: nat)
    requires IsRun(ws, es) && i < |ws|
    ensures ws[i].debt <==> Owes(ws, es, i)
  {
    hide Enabled, Apply;
    if i > 0 {
      DebtIsOwed(ws, es, i - 1);
      DebtStep(ws[i - 1], es[i - 1]);
    }
  }

  lemma DebtStep(w: World, e: Event)
    requires Enabled(w, e)
    ensures e.Send? ==>
              e.owner in w.clients && (Apply(w, e).debt <==>
                w.debt || IncursDebt(w.clients[e.owner].fence.value.record.step))
    ensures e.Commit? ==>
              && e.id in w.exchanges && e.id in Apply(w, e).exchanges
              && (Apply(w, e).debt <==>
                w.debt && !(w.exchanges[e.id].completes && Apply(w, e).exchanges[e.id].won == Some(true)))
    ensures e.TakeEffect? ==>
              e.pid in w.dispatches && (Apply(w, e).debt <==>
                w.debt && w.dispatches[e.pid].started.step != DeleteD1Database)
    ensures !e.Send? && !e.Commit? && !e.TakeEffect? ==> (Apply(w, e).debt <==> w.debt)
  {
    hide MayAttempt, RecoveryDecision, PromotesUpload, FirstText, NextRecord, AttemptCalls, FirstRecord, Quiescent;
  }

  /** Verification debt is never lost: from the dispatch on, through resume, verification, settling, release
      and takeover, the row stays held and flagged until verification completes or the database is removed. */
  lemma DebtKeepsTheRowHeld(ws: seq<World>, es: seq<Event>, i: nat)
    requires IsRun(ws, es) && i < |ws| && Owes(ws, es, i)
    ensures ws[i].row.Some?
    ensures ws[i].row.value.record.verificationPending == True || ws[i].row.value.record.deletionPending
  {
    RunKeepsInvariant(ws, es, i);
    DebtIsOwed(ws, es, i);
  }
}
