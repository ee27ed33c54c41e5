/**
 * The supervisor's event loop as the program runs it: one object whose fields the
 * loop updates message by message, over the shared ledger and the fence on disk.
 * Each method performs exactly the step that `Actor.Step` reasons about.
 */
module Supervision {
  import opened Wrappers
  import opened Backend
  import opened CapacityUnits
  import opened LoadPolicies
  import opened Eviction
  import opened LoadFences
  import opened LoadFlow
  import opened LoadFlowFacts
  import opened LoadTasks
  import opened GlobalCapacity
  import opened Actor
  import opened ActorInvariant
  import opened ActorRuns
  import opened ActorHistory
  import L = CapacityLedger

  class Supervisor {
    const settings: Settings
    const ledger: GlobalCapacityLedger
    const files: FenceFiles
    const fence: Option<LoadFence>
    const startupError: Option<BackendError>

    var keys: seq<string>
    var models: Models
    var active: Option<ActiveOp>
    var nextSeq: nat
    var poisoned: Option<Poison>
    var reservedGb: real
    var covered: map<string, real>
    var claim: Claim

    // What the loop has set going and what it has answered.
    var task: Option<Task>
    var chats: multiset<string>
    var replies: seq<Reply>
    var asked: map<nat, Request>

    function View(): State
      reads this, ledger, files
    {
      State(settings, keys, models, active, nextSeq, poisoned, reservedGb, covered, claim, startupError,
            ledger.Contents(), files.marker, task, chats, asked, replies)
    }

    /** An actor that may load holds the fence of its engine. */
    predicate Fenced()
      reads this
    {
      && (fence.Some? ==> fence.value.files == files)
      && (fence.None? ==> startupError.Some? && !(task.Some? && task.value.LoadTask?))
    }

    ghost predicate Valid()
      reads this, ledger, files
    {
      Fenced() && Inv(View())
    }

    // -------------------------------------------------------------- startup

    constructor (settings: Settings, ledger: GlobalCapacityLedger, files: FenceFiles, fence: Option<LoadFence>,
                 keys: seq<string>, models: Models, reservedGb: real, claim: Claim, startupError: Option<BackendError>)
      ensures this.files == files && this.fence == fence && this.ledger == ledger && this.task.None?
      ensures View() == Blank(settings, ledger.Contents(), files.marker).(
                          keys := keys, models := models, reservedGb := reservedGb, claim := claim,
                          startupError := startupError)
    {
      this.settings, this.ledger, this.files, this.fence := settings, ledger, files, fence;
      this.keys, this.models, this.active, this.nextSeq, this.poisoned := keys, models, None, 0, None;
      this.reservedGb, this.covered, this.claim, this.startupError := reservedGb, map[], claim, startupError;
      this.task, this.chats, this.replies, this.asked := None, multiset{}, [], map[];
    }

    /** Every model found loaded becomes a pinned slot that is not to be trusted. */
    static method InheritedSlots(loaded: seq<string>) returns (keys: seq<string>, models: Models)
      ensures keys == Distinct(loaded)
      ensures models == map k | k in loaded :: INHERITED_SLOT
    {
      keys, models := [], map[];
      for i := 0 to |loaded|
        invariant keys == Distinct(loaded[..i])
        invariant models == map k | k in loaded[..i] :: INHERITED_SLOT
        invariant forall k :: k in keys <==> k in loaded[..i]
      {
        assert loaded[..i + 1][..i] == loaded[..i] && loaded[..i + 1] == loaded[..i] + [loaded[i]];
        if loaded[i] !in keys {
          keys := keys + [loaded[i]];
        }
        models := models[loaded[i] := INHERITED_SLOT];
      }
      assert loaded[..|loaded|] == loaded;
    }

    /** The one sample before the first command; without a good one nothing is known to be resident. */
    static method ReadSample(sample: Result<BackendStatus, BackendError>)
      returns (gb: Option<real>, keys: seq<string>, models: Models, error: Option<BackendError>)
      ensures gb.Some? <==> sample.Success? && ValidSample(sample.value)
      ensures gb.Some? ==> gb.value == sample.value.usedGb && error.None? && keys == Distinct(sample.value.loaded)
      ensures gb.Some? ==> models == map k | k in sample.value.loaded :: INHERITED_SLOT
      ensures gb.None? ==> keys == [] && models == map[]
      ensures gb.None? ==> error == Some(if sample.Failure? then sample.error else Internal)
    {
      gb, keys, models, error := None, [], map[], None;
      if sample.Failure? {
        error := Some(sample.error);
      } else if !ValidSample(sample.value) {
        error := Some(Internal);
      } else {
        gb := Some(sample.value.usedGb);
        keys, models := InheritedSlots(sample.value.loaded);
      }
    }

    /** What was found resident, or the whole budget if that is unknown, enters the ledger. */
    static method AdoptResidency(settings: Settings, ledger: GlobalCapacityLedger, tracking: Tracking, gb: Option<real>,
                                 ghost marker: Marker)
      returns (claim: Claim, error: Option<BackendError>)
      modifies ledger
      ensures var blank := Blank(settings, old(ledger.Contents()), marker);
              StartupClaim(blank, tracking, if gb.Some? then gb.value else blank.ledger.config.budgetGb)
              == (blank.(ledger := ledger.Contents(), claim := claim), error)
    {
      if tracking.NoLedger? {
        return Untracked, None;
      }
      var adopted: Result<(), BackendError>;
      var claimedGb := ledger.config.budgetGb;
      if gb.Some? {
        claimedGb := gb.value;
        adopted := ledger.AdoptObserved(settings.ledgerKey, None, gb.value);
      } else {
        var blocked := ledger.BlockGrowthForUnknownResidency(settings.ledgerKey, None);
        adopted := if blocked.Success? then Success(()) else Failure(blocked.error);
      }
      if adopted.Failure? {
        return Untracked, Some(adopted.error);
      }
      if tracking.ByEstimate? {
        return Legacy(claimedGb), None;
      }
      match Units(claimedGb, Up)
      case Failure(_) => return Untracked, Some(InvalidRequest);
      case Success(units) => return Exact(units), None;
    }

    /** The lock first, then the marker; without either the actor comes up refusing every load. */
    static method ClaimFence(files: FenceFiles, owner: nat, claimFails: bool, checkFails: bool)
      returns (fence: Option<LoadFence>, error: Option<BackendError>)
      modifies files
      ensures fence.Some? <==> !claimFails && old(files.lockedBy).None?
      ensures fence.Some? ==> fence.value.files == files && fence.value.owner == owner
      ensures files.lockedBy == if fence.Some? then Some(owner) else old(files.lockedBy)
      ensures files.marker == old(files.marker)
      ensures error == StartupRefusal(old(files.lockedBy).Some?, claimFails, checkFails, files.marker)
    {
      var claimed := LoadFence.Claim(files, owner, claimFails);
      if claimed.Failure? {
        return None, Some(Internal);
      }
      var clear := claimed.value.CheckClear(checkFails);
      assert !clear && !checkFails ==> !BeginStep(files.marker, Begins).ok;
      return Some(claimed.value), if clear then None else Some(Internal);
    }

    /** The state assembled from the sample and its adoption is the one `Startup` specifies. */
    static lemma AdoptedIsStartup(blank: State, tracking: Tracking, fenceError: Option<BackendError>,
                                  sample: Result<BackendStatus, BackendError>, keys: seq<string>, models: Models,
                                  adopted: State, claimError: Option<BackendError>)
      requires blank == Blank(blank.settings, blank.ledger, blank.marker)
      requires var known := sample.Success? && ValidSample(sample.value);
               && keys == (if known then Distinct(sample.value.loaded) else [])
               && models == (if known then map k | k in sample.value.loaded :: INHERITED_SLOT else map[])
               && StartupClaim(blank, tracking, if known then sample.value.usedGb else blank.ledger.config.budgetGb)
                  == (adopted, claimError)
      ensures var known := sample.Success? && ValidSample(sample.value);
              var sampleError :=
                if known then None else Some(if sample.Failure? then sample.error else Internal);
              Startup(blank.settings, blank.ledger, blank.marker, tracking, fenceError, sample)
              == adopted.(keys := keys, models := models, reservedGb := if known then sample.value.usedGb else 0.0,
                          startupError := if fenceError.Some? then fenceError
                                          else if claimError.Some? then claimError else sampleError)
    {
    }

    /**
     * An actor comes up: it claims the fence, checks it, takes one residency sample
     * and adopts it. The state it starts from is `Startup`, and every invariant holds.
     */
    static method Start(settings: Settings, ledger: GlobalCapacityLedger, files: FenceFiles, owner: nat,
                        tracking: Tracking,
                        claimFails: bool, checkFails: bool, sample: Result<BackendStatus, BackendError>)
      returns (s: Supervisor)
      requires settings.budgetGb >= 0.0 && !L.IsBlank(settings.ledgerKey) && L.Valid(ledger.Contents())
      modifies ledger, files
      ensures fresh(s) && s.files == files && s.ledger == ledger
      ensures s.fence.Some? <==> !claimFails && old(files.lockedBy).None?
      ensures files.lockedBy == if s.fence.Some? then Some(owner) else old(files.lockedBy)
      ensures files.marker == old(files.marker)
      ensures s.View() == Startup(settings, old(ledger.Contents()), files.marker, tracking,
                                  StartupRefusal(old(files.lockedBy).Some?, claimFails, checkFails, files.marker),
                                  sample)
      ensures s.Valid() && AllInv(s.View())
    {
      ghost var before := ledger.Contents();
      ghost var refusal := StartupRefusal(files.lockedBy.Some?, claimFails, checkFails, files.marker);
      var fence, fenceError := ClaimFence(files, owner, claimFails, checkFails);
      var gb, keys, models, sampleError := ReadSample(sample);
      var claim, claimError := AdoptResidency(settings, ledger, tracking, gb, files.marker);
      ghost var blank := Blank(settings, before, files.marker);
      ghost var adopted := blank.(ledger := ledger.Contents(), claim := claim);
      var error := if fenceError.Some? then fenceError else if claimError.Some? then claimError else sampleError;
      var usedGb := if gb.Some? then gb.value else 0.0;
      s := new Supervisor(settings, ledger, files, fence, keys, models, usedGb, claim, error);
      AdoptedIsStartup(blank, tracking, refusal, sample, keys, models, adopted, claimError);
      StartupEstablishesAll(settings, before, files.marker, tracking, refusal, sample);
    }

    /** The actor goes away; a load, an unload or a chat still running keeps the lock. */
    method Exit()
      requires Fenced()
      modifies files
      ensures files.marker == old(files.marker)
      ensures fence.Some? && task.None? && chats == multiset{} ==> files.lockedBy != Some(fence.value.owner)
      ensures task.Some? || chats != multiset{} ==> files.lockedBy == old(files.lockedBy)
    {
      var stillRuns := task.Some? || chats != multiset{};
      if fence.Some? && !stillRuns {
        fence.value.Drop();
      }
    }

    // ------------------------------------------------------------- capacity

    method ClaimRuntimeCapacity(plannedGb: real, plannedCharge: Option<U128>, allow: bool)
      returns (r: Result<(), BackendError>)
      modifies this`claim, ledger
      ensures (View(), r) == ClaimCapacity(old(View()), plannedGb, plannedCharge, allow)
    {
      match claim
      case Untracked =>
        r := Success(());
      case Exact(current) =>
        if plannedCharge.None? {
          return Failure(InvariantViolation);
        }
        r := ledger.ClaimCharge(settings.ledgerKey, current, plannedCharge.value, allow);
        if r.Success? {
          claim := Exact(L.Max(current, plannedCharge.value));
        }
      case Legacy(gb) =>
        var next := MaxReal(gb, plannedGb);
        if next == gb {
          return Success(());
        }
        r := ledger.Resize(settings.ledgerKey, Some(gb), Some(next));
        if r.Success? {
          claim := Legacy(next);
        }
    }

    method SettleExactCapacity(current: U128) returns (r: Result<(), BackendError>)
      modifies this`claim, ledger
      ensures (View(), r) == SettleExact(old(View()), current)
    {
      var unconfirmed := AnyUnconfirmed(View());
      var charge := ExactCharge(View(), {});
      if charge.Failure? {
        return Failure(charge.error);
      }
      var accounted := charge.value;
      if accounted > current || !unconfirmed {
        r := ledger.UpdateCharge(settings.ledgerKey, Some(current), accounted, accounted <= current);
        if r.Failure? {
          return;
        }
        claim := Exact(accounted);
      }
      return if accounted > current && !unconfirmed then Failure(InvariantViolation) else Success(());
    }

    method SettleEstimatedCapacity(gb: real) returns (r: Result<(), BackendError>)
      modifies this`claim, ledger
      ensures (View(), r) == SettleLegacy(old(View()), gb)
    {
      var unconfirmed := AnyUnconfirmed(View());
      var accounted := AccountedGb(View());
      if -CAPACITY_EPSILON_GB <= accounted - gb <= CAPACITY_EPSILON_GB {
        return Success(());
      }
      if accounted > gb {
        r := ledger.AdoptObserved(settings.ledgerKey, Some(gb), accounted);
        if r.Failure? {
          return;
        }
        claim := Legacy(accounted);
        return if unconfirmed then Success(()) else Failure(InvariantViolation);
      }
      if unconfirmed {
        return Success(());
      }
      r := ledger.Resize(settings.ledgerKey, Some(gb), Some(accounted));
      if r.Success? {
        claim := Legacy(accounted);
      }
    }

    method SettleRuntimeCapacity() returns (r: Result<(), BackendError>)
      modifies this`claim, ledger
      ensures (View(), r) == SettleCapacity(old(View()))
    {
      match claim
      case Untracked => r := Success(());
      case Exact(current) => r := SettleExactCapacity(current);
      case Legacy(gb) => r := SettleEstimatedCapacity(gb);
    }

    // ----------------------------------------------------------------- load

    method Send(req: nat, result: Result<(), BackendError>)
      modifies this`replies
      ensures View() == AnswerTo(old(View()), req, result)
    {
      replies := replies + [Reply(req, result)];
    }

    method PlanRequest(id: string, gb: real, order: seq<string>) returns (r: Result<LoadPlan, BackendError>)
      ensures r == PlanLoad(View(), id, gb, order)
    {
      var reservation := EffectiveReservedGb(View(), {});
      if reservation > settings.budgetGb {
        return Failure(EvictionImpossible);
      }
      var request := if Inherited(View(), id) then MaxReal(gb, reservation) - reservation else gb;
      var snapshot := Snapshot(settings.budgetGb - reservation, Entries(order, models, id));
      assert snapshot == RequestSnapshot(View(), id, order) && request == RequestGb(View(), id, gb);
      var plan := ComputePlan(snapshot, ModelReq(id, request));
      if plan.Failure? {
        return Failure(MapPlanError(plan.error));
      }
      var victims := if plan.value.Evict? then plan.value.victims else [];
      var charges := ChargePlan(View(), id, gb, victims);
      if charges.Failure? {
        return Failure(charges.error);
      }
      var plannedGb := reservation + request + OccupiedGb(keys, models, {id} + SetOf(victims));
      return Success(LoadPlan(victims, request, charges.value.1, plannedGb, charges.value.0));
    }

    method StopChosen(victims: seq<string>)
      modifies this`models
      ensures models == StopVictims(old(models), victims)
    {
      for i := 0 to |victims|
        invariant models == StopVictims(old(models), victims[..i])
      {
        assert victims[..i + 1] == victims[..i] + [victims[i]];
        if victims[i] in models {
          models := models[victims[i] := models[victims[i]].(state := Stopping)];
        }
      }
      assert victims[..|victims|] == victims;
    }

    method InstallLoad(req: nat, id: string, gb: real, policy: LoadPolicy, allow: bool, plan: LoadPlan)
      modifies this`keys, this`models, this`active, this`task
      ensures View() == Install(old(View()), req, id, gb, policy, allow, plan)
    {
      var previous := PreviousOf(View(), id);
      var slot := NewSlot(View(), id, policy, plan);
      StopChosen(plan.victims);
      if id !in models {
        keys := keys + [id];
      }
      models := models[id := slot];
      active := Some(ActiveOp(id, ActiveLoad(policy, gb, allow, [req])));
      task := Some(LoadTask(FlowOf(View(), id, policy, plan.victims, previous)));
    }

    method JoinActive(req: nat)
      requires active.Some?
      modifies this`active
      ensures View() == Join(old(View()), req)
    {
      var op := active.value;
      match op.kind
      case ActiveLoad(policy, gb, allow, waiters) =>
        active := Some(op.(kind := ActiveLoad(policy, gb, allow, waiters + [req])));
      case ActiveUnload(waiters, started) =>
        active := Some(op.(kind := ActiveUnload(waiters + [req], started)));
    }

    /** The marker is written before any ledger or operation state changes. */
    method Admit(req: nat, id: string, gb: real, policy: LoadPolicy, allow: bool, plan: LoadPlan, beginIo: BeginIo,
                 clearIo: ClearIo)
      requires fence.Some? && fence.value.files == files
      modifies this, ledger, files
      ensures View() == AdmitLoad(old(View()), req, id, gb, policy, allow, plan, beginIo, clearIo)
    {
      var begun := fence.value.Begin(beginIo);
      if !begun {
        Send(req, Failure(Internal));
        return;
      }
      var claimed := ClaimRuntimeCapacity(plan.plannedGb, plan.plannedCharge, allow);
      if claimed.Success? {
        InstallLoad(req, id, gb, policy, allow, plan);
      } else {
        var cleared := fence.value.Clear(clearIo);
        Send(req, if cleared then claimed else Failure(Internal));
      }
    }

    method RequestLoad(req: nat, id: string, gb: real, policy: LoadPolicy, allow: bool, order: seq<string>,
                       beginIo: BeginIo, clearIo: ClearIo)
      requires Fenced() && Enabled(View(), Load(req, id, gb, policy, allow, order, beginIo, clearIo))
      modifies this, ledger, files
      ensures View() == Step(old(View()), Load(req, id, gb, policy, allow, order, beginIo, clearIo))
      ensures old(Valid()) ==> Valid()
    {
      ghost var before := View();
      Stays(before, Load(req, id, gb, policy, allow, order, beginIo, clearIo));
      DecideLoad(req, id, gb, policy, allow, order, beginIo, clearIo);
    }

    method DecideLoad(req: nat, id: string, gb: real, policy: LoadPolicy, allow: bool, order: seq<string>,
                      beginIo: BeginIo, clearIo: ClearIo)
      requires Fenced() && Enabled(View(), Load(req, id, gb, policy, allow, order, beginIo, clearIo))
      modifies this, ledger, files
      ensures View() == Step(old(View()), Load(req, id, gb, policy, allow, order, beginIo, clearIo))
    {
      var refusal := Refusal(View());
      asked := asked[req := LoadRequest(id, gb, policy, allow)];
      if refusal.Some? {
        Send(req, Failure(refusal.value));
        return;
      }
      match LoadGate(View(), id, gb, policy, allow)
      case Answered(result) => Send(req, result);
      case Joins => JoinActive(req);
      case Proceeds =>
        var planned := PlanRequest(id, gb, order);
        match planned {
          case Failure(e) => Send(req, Failure(e));
          case Success(plan) => Admit(req, id, gb, policy, allow, plan, beginIo, clearIo);
        }
    }

    // --------------------------------------------------------------- unload

    method RequestUnload(req: nat, id: string)
      requires Enabled(View(), Unload(req, id))
      modifies this
      ensures View() == Step(old(View()), Unload(req, id))
      ensures old(Valid()) ==> Valid()
    {
      Stays(View(), Unload(req, id));
      DecideUnload(req, id);
    }

    method DecideUnload(req: nat, id: string)
      requires Enabled(View(), Unload(req, id))
      modifies this
      ensures View() == Step(old(View()), Unload(req, id))
    {
      var refusal := Refusal(View());
      asked := asked[req := UnloadRequest(id)];
      if refusal.Some? {
        Send(req, Failure(refusal.value));
        return;
      }
      match UnloadGate(View(), id)
      case Answered(result) => Send(req, result);
      case Joins => JoinActive(req);
      case Proceeds =>
        BeginUnload(req, id);
    }

    method BeginUnload(req: nat, id: string)
      requires id in models
      modifies this`models, this`task, this`active
      ensures View() == StartUnload(old(View()), req, id)
    {
      var idle := models[id].inflight == 0;
      models := models[id := models[id].(state := Stopping)];
      if idle {
        task := Some(UnloadTaskOf(View(), id));
      }
      active := Some(ActiveOp(id, ActiveUnload([req], idle)));
    }

    // ---------------------------------------------------------------- chats

    method RequestChat(id: string, permit: bool) returns (dispatched: bool)
      modifies this
      ensures View() == Step(old(View()), Chat(id, permit))
      ensures dispatched <==> chats == old(chats) + multiset{id}
      ensures old(Valid()) ==> Valid()
    {
      Stays(View(), Chat(id, permit));
      OneMore(chats, id);
      if Refusal(View()).Some? || id !in models || !models[id].state.Ready? || !permit {
        return false;
      }
      Dispatch(id);
      return true;
    }

    method Dispatch(id: string)
      requires id in models && models[id].state.Ready?
      modifies this`nextSeq, this`models, this`chats
      ensures View() == HandleChat(old(View()), id, true)
      ensures chats == old(chats) + multiset{id}
    {
      nextSeq := nextSeq + 1;
      var slot := models[id];
      models := models[id := slot.(lastUsedSeq := nextSeq, inflight := slot.inflight + 1)];
      chats := chats + multiset{id};
    }

    method FinishChat(id: string)
      requires Valid() && id in chats
      modifies this
      ensures View() == Step(old(View()), ChatDone(id))
      ensures Valid()
    {
      ghost var before := View();
      Stays(before, ChatDone(id));
      ChattingModelsAreKnown(before, id);
      CountDown(id);
    }

    method CountDown(id: string)
      requires poisoned.None? ==> id in models
      modifies this`chats, this`models, this`task, this`active
      ensures View() == HandleChatDone(old(View()), id)
    {
      ghost var before := View();
      chats := chats - multiset{id};
      if poisoned.Some? {
        return;
      }
      var slot := models[id];
      var left := L.SaturatingSub(slot.inflight, 1);
      models := models[id := slot.(inflight := left)];
      ghost var counted := View();
      assert counted == CountedDown(before, id);
      if left == 0 && WaitsToUnload(View(), id) {
        StartDrainedUnload(id);
      }
    }

    /** The last chat has gone: the unload that waited for it goes to the engine. */
    method StartDrainedUnload(id: string)
      requires WaitsToUnload(View(), id)
      modifies this`task, this`active
      ensures View() == StartDrained(old(View()), id)
    {
      task := Some(UnloadTaskOf(View(), id));
      active := Some(active.value.(kind := active.value.kind.(started := true)));
    }

    // --------------------------------------------------------------- OpDone

    method RefreshFrom(status: BackendStatus, excluded: Option<string>, creditGb: real)
      modifies this`reservedGb, this`covered
      ensures View() == RefreshAggregate(old(View()), status, excluded, creditGb)
    {
      reservedGb := status.usedGb;
      covered := RefreshedCredits(models, status, excluded, creditGb);
    }

    method ReleaseWaiters(result: Result<(), BackendError>)
      modifies this`active, this`replies
      ensures View() == Release(old(View()), result)
    {
      var waiters := Waiters(View());
      active := None;
      for i := 0 to |waiters|
        invariant replies == old(replies) + RepliesTo(waiters[..i], result)
        invariant active == None
      {
        assert RepliesTo(waiters[..i + 1], result) == RepliesTo(waiters[..i], result) + [Reply(waiters[i], result)];
        replies := replies + [Reply(waiters[i], result)];
      }
      assert waiters[..|waiters|] == waiters;
    }

    method ConcludeOperation(result: Result<(), BackendError>)
      requires active.Some?
      modifies this, ledger
      ensures View() == Conclude(old(View()), result)
    {
      var capacity := SettleRuntimeCapacity();
      if capacity.Failure? {
        ReleaseWaiters(Failure(InvariantViolation));
        poisoned := Some(CapacityMismatch);
      } else {
        ReleaseWaiters(result);
      }
    }

    /** Each victim lands on Stopped or Error, one report at a time. */
    method SettleEviction(results: seq<VictimResult>)
      requires AllKnown(models, results)
      requires forall i, j :: 0 <= i < j < |results| ==> results[i].id != results[j].id
      modifies this`models
      ensures models == SettleVictims(old(models), results)
    {
      for i := 0 to |results|
        invariant models.Keys == old(models).Keys
        invariant models == SettleVictims(old(models), results[..i])
      {
        SettleOne(old(models), results, i);
        var r := results[i];
        models := models[r.id := Settled(models[r.id], if r.result.Success? then Stopped else Error)];
      }
      assert results[..|results|] == results;
    }

    method ApplyLoadReport(id: string, o: LoadOutcome)
      requires id in models && AllKnown(models, o.victimResults)
      requires forall i, j :: 0 <= i < j < |o.victimResults| ==> o.victimResults[i].id != o.victimResults[j].id
      modifies this
      ensures View() == ApplyLoadOutcome(old(View()), id, o)
    {
      SettleEviction(o.victimResults);
      if o.aggregateStatus.Some? {
        RefreshFrom(o.aggregateStatus.value, Some(id), o.aggregateTargetCreditGb);
      }
      if o.result.Success? {
        nextSeq := nextSeq + 1;
        models := models[id := models[id].(state := Ready, lastUsedSeq := nextSeq)];
      } else {
        models := models[id := FailedSlot(models[id], o.failure)];
        if o.failure.SettleReleased? {
          RefreshFrom(o.failure.status, None, 0.0);
        }
      }
    }

    /**
     * The background load runs against whatever engine and disk `script` stands
     * for, then the loop applies its report.
     */
    method FinishLoad(script: Script) returns (trace: seq<Event>)
      requires Valid() && task.Some? && task.value.LoadTask?
      modifies this, ledger, files
      ensures Enabled(old(View()), LoadReported(trace))
      ensures View() == Step(old(View()), LoadReported(trace))
      ensures Valid()
    {
      ghost var before := View();
      var ctx := task.value.ctx;
      var outcome;
      trace, outcome := RunLoadTask(script, ctx);
      Stays(before, LoadReported(trace));
      ReportFitsContext(ctx, trace);
      ReportedAreKnown(before, ctx, outcome);
      DistinctReports(ctx, outcome);
      if trace != [] && trace[|trace| - 1].FenceCleared? {
        var lifted := fence.value.Clear(trace[|trace| - 1].io);
      }
      EndLoad(ctx.id, outcome);
    }

    method EndLoad(id: string, o: LoadOutcome)
      requires id in models && AllKnown(models, o.victimResults) && active.Some? && poisoned.None?
      requires forall i, j :: 0 <= i < j < |o.victimResults| ==> o.victimResults[i].id != o.victimResults[j].id
      modifies this, ledger
      ensures View() == LoadDone(old(View()), id, o)
    {
      ghost var ended := View().(task := None);
      task := None;
      assert View() == ended;
      ApplyLoadReport(id, o);
      assert View() == ApplyLoadOutcome(ended, id, o);
      ConcludeOperation(o.result);
    }

    method ApplyUnloadReport(id: string, o: UnloadOutcome)
      requires id in models
      modifies this`models, this`nextSeq, this`reservedGb, this`covered
      ensures View() == ApplyUnloadOutcome(old(View()), id, o)
    {
      if o.result.Success? {
        nextSeq := nextSeq + 1;
        models := models[id := Settled(models[id], Stopped)];
      } else {
        models := models[id := Settled(models[id], Error)];
      }
      if o.status.Some? {
        RefreshFrom(o.status.value, None, 0.0);
      }
    }

    method EndUnload(id: string, o: UnloadOutcome)
      requires id in models && active.Some? && poisoned.None?
      modifies this, ledger
      ensures View() == UnloadDone(old(View()), id, o)
    {
      ghost var ended := View().(task := None);
      task := None;
      assert View() == ended;
      ApplyUnloadReport(id, o);
      assert View() == ApplyUnloadOutcome(ended, id, o);
      ConcludeOperation(o.result);
    }

    method FinishUnload(script: Script) returns (trace: seq<Event>, outcome: UnloadOutcome)
      requires Valid() && task.Some? && task.value.UnloadTask?
      modifies this, ledger, files
      ensures Enabled(old(View()), UnloadReported(trace, outcome))
      ensures View() == Step(old(View()), UnloadReported(trace, outcome))
      ensures Valid()
    {
      ghost var before := View();
      var id := task.value.id;
      trace, outcome := RunUnloadTask(script, id, task.value.maxUsedGb, settings.releaseAttempts);
      Stays(before, UnloadReported(trace, outcome));
      UnloadLeavesAllAtRest(before, id, outcome);
      RunningHasOperation(before);
      EndUnload(id, outcome);
    }
  }

  predicate RunsLoad(st: State) { st.task.Some? && st.task.value.LoadTask? }

  /** What every message keeps of the object: the invariant, and that an actor refused at startup runs no load. */
  lemma Stays(st: State, m: Message)
    requires Enabled(st, m)
    ensures Inv(st) ==> Inv(Step(st, m))
    ensures st.startupError.Some? && !RunsLoad(st) ==> !RunsLoad(Step(st, m))
  {
    if Inv(st) { StepKeepsInv(st, m); }
    if st.startupError.Some? && !RunsLoad(st) { RefusedStartsNoLoad(st, m); }
  }

  lemma RefusedStartsNoLoad(st: State, m: Message)
    requires Enabled(st, m) && st.startupError.Some? && !RunsLoad(st)
    ensures !RunsLoad(Step(st, m))
  {
    if m.UnloadReported? {
      var ended := st.(task := None);
      if st.task.value.id in st.models {
        SettleTouchesOnlyLedger(ApplyUnloadOutcome(ended, st.task.value.id, m.outcome));
      }
    }
  }

  lemma ChattingModelsAreKnown(st: State, id: string)
    requires Inv(st) && id in st.chats
    ensures st.poisoned.None? ==> id in st.models
  {
  }

  lemma OneMore(chats: multiset<string>, id: string)
    ensures chats + multiset{id} != chats
  {
    assert (chats + multiset{id})[id] == chats[id] + 1;
  }

  lemma RunningHasOperation(st: State)
    requires Inv(st) && st.task.Some?
    ensures st.poisoned.None? && st.active.Some?
  {
  }

  lemma SettleOne(models: Models, results: seq<VictimResult>, i: nat)
    requires i < |results| && AllKnown(models, results)
    requires forall a, b :: 0 <= a < b < |results| ==> results[a].id != results[b].id
    ensures var before, r := SettleVictims(models, results[..i]), results[i];
            && r.id in before
            && SettleVictims(models, results[..i + 1])
               == before[r.id := Settled(before[r.id], if r.result.Success? then Stopped else Error)]
  {
    var r := results[i];
    var fewer, more := results[..i], results[..i + 1];
    assert more == fewer + [r];
    assert r in results && !Reported(fewer, r.id);
    assert Reported(more, r.id) && (ReportedGone(more, r.id) <==> r.result.Success?);
    forall k | k in models && k != r.id
      ensures (Reported(more, k) <==> Reported(fewer, k)) && (ReportedGone(more, k) <==> ReportedGone(fewer, k))
    {
      assert forall x :: x in more ==> x in fewer || x == r;
      assert forall x :: x in fewer ==> x in more;
    }
  }

  lemma DistinctReports(ctx: FlowContext, o: LoadOutcome)
    requires WellFormed(ctx) && OutcomeFits(ctx, o)
    ensures forall i, j :: 0 <= i < j < |o.victimResults| ==> o.victimResults[i].id != o.victimResults[j].id
  {
    forall i, j | 0 <= i < j < |o.victimResults| ensures o.victimResults[i].id != o.victimResults[j].id {
      assert Ids(o.victimResults)[i] == ctx.victims[i] && Ids(o.victimResults)[j] == ctx.victims[j];
    }
  }
}
