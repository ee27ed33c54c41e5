/**
 * The shape every reachable actor state has between two messages: who may be in
 * which lifecycle state, what the background task and the chats are about, and
 * that no entry is ever lost.
 */
module ActorInvariant {
  import opened Wrappers
  import opened Backend
  import opened LoadPolicies
  import opened Eviction
  import opened LoadFences
  import opened LoadFlow
  import opened LoadFlowFacts
  import opened LoadTasks
  import opened Actor
  import opened CapacityUnits

  // ------------------------------------------------------------ definitions

  ghost predicate Enumerates(keys: seq<string>, models: Models) {
    multiset(keys) == multiset(models.Keys)
  }

  predicate IsLoadTarget(st: State, k: string) {
    st.active.Some? && st.active.value.id == k && st.active.value.kind.ActiveLoad?
  }

  predicate IsUnloadTarget(st: State, k: string) {
    st.active.Some? && st.active.value.id == k && st.active.value.kind.ActiveUnload?
  }

  predicate IsVictim(st: State, k: string) {
    st.task.Some? && st.task.value.LoadTask? && k in st.task.value.ctx.victims
  }

  predicate Draining(st: State, k: string) {
    IsUnloadTarget(st, k) && !st.active.value.kind.started
  }

  /** A slot no operation has taken. */
  predicate AtRest(slot: ModelSlot) {
    && (slot.state.Ready? || slot.state.Error? || slot.state.Stopped?)
    && (slot.inflight > 0 ==> slot.state.Ready?)
    && (slot.loadUnconfirmed ==> slot.state.Error?)
    && (slot.inherited ==> !slot.state.Stopped?)
  }

  predicate SlotFits(st: State, k: string, slot: ModelSlot) {
    && slot.memoryGb >= 0.0
    && slot.inflight == st.chats[k]
    && if IsLoadTarget(st, k) then
         slot.state.Loading? && slot.inflight == 0 && !slot.loadUnconfirmed
         && slot.policy == st.active.value.kind.policy
       else if IsUnloadTarget(st, k) then
         slot.state.Stopping? && !slot.loadUnconfirmed && (slot.inflight > 0 <==> Draining(st, k))
       else if IsVictim(st, k) then
         slot.state.Stopping? && slot.inflight == 0 && !slot.loadUnconfirmed && !slot.inherited
       else AtRest(slot)
  }

  predicate PreviousFits(previous: Option<PreviousModel>) {
    previous.Some? ==>
      (previous.value.state.Ready? || previous.value.state.Error?) && previous.value.memoryGb >= 0.0
  }

  /** The one background operation is the active one's. */
  predicate TaskFits(st: State) {
    match st.active
    case None => st.task.None?
    case Some(op) =>
      && op.id in st.models
      && match op.kind
         case ActiveLoad(policy, gb, allow, waiters) =>
           && st.task.Some? && st.task.value.LoadTask?
           && var ctx := st.task.value.ctx;
              && ctx.id == op.id && ctx.policy == policy && WellFormed(ctx) && PreviousFits(ctx.previous)
              && (forall v :: v in ctx.victims ==> v in st.models)
         case ActiveUnload(waiters, started) =>
           if started then st.task.Some? && st.task.value.UnloadTask? && st.task.value.id == op.id
           else st.task.None?
  }

  ghost predicate NumbersFit(st: State) {
    && st.settings.budgetGb >= 0.0
    && st.reservedGb >= 0.0
    && forall k :: k in st.covered ==> k in st.models && st.covered[k] >= 0.0
  }

  /** The invariant. A poisoned actor has dropped its operation and takes no other. */
  ghost predicate Inv(st: State) {
    && Enumerates(st.keys, st.models)
    && NumbersFit(st)
    && if st.poisoned.Some? then
         && st.poisoned == Some(CapacityMismatch) && st.active.None? && st.task.None?
         && (forall k :: k in st.models ==> AtRest(st.models[k]) && st.models[k].memoryGb >= 0.0)
       else
         && TaskFits(st)
         && (forall k :: k in st.models ==> SlotFits(st, k, st.models[k]))
         && (forall k :: k in st.chats ==> k in st.models)
  }

  // ------------------------------------------------------------ plan victims

  ghost predicate AtMostOnce(s: seq<string>) { forall x :: multiset(s)[x] <= 1 }

  lemma {:induction false} EntriesFacts(order: seq<string>, models: Models, exclude: string)
    requires AtMostOnce(order)
    ensures forall m :: m in Entries(order, models, exclude) ==>
              m.id in order && m.id in models && m.id != exclude && m == Entry(m.id, models[m.id])
    ensures UniqueIds(Entries(order, models, exclude))
    ensures forall k :: k in order && k in models && k != exclude ==>
              Entry(k, models[k]) in Entries(order, models, exclude)
  {
    if order != [] {
      var k, rest := order[0], order[1..];
      assert order == [k] + rest;
      assert multiset(order) == multiset{k} + multiset(rest);
      assert forall x :: multiset(rest)[x] <= multiset(order)[x];
      assert multiset(rest)[k] == 0;
      assert k !in rest;
      EntriesFacts(rest, models, exclude);
      if k in models && k != exclude {
        var tail := Entries(rest, models, exclude);
        assert ([Entry(k, models[k])] + tail)[1..] == tail;
      }
    }
  }

  predicate Evictable(slot: ModelSlot) {
    && (slot.state.Ready? || slot.state.Error?)
    && slot.inflight == 0 && slot.memoryGb > 0.0
    && !slot.loadUnconfirmed && !slot.inherited && slot.policy.keepalive != Pinned(true)
  }

  ghost predicate VictimsFit(st: State, id: string, victims: seq<string>) {
    && (forall v :: v in victims ==> v in st.models && v != id && Evictable(st.models[v]))
    && (forall i, j :: 0 <= i < j < |victims| ==> victims[i] != victims[j])
  }

  lemma {:induction false} DistinctIds(ms: seq<ModelEntry>)
    requires UniqueIds(ms)
    ensures forall i, j :: 0 <= i < j < |ms| ==> ms[i].id != ms[j].id
  {
    if ms != [] {
      DistinctIds(ms[1..]);
      forall i, j | 0 <= i < j < |ms| ensures ms[i].id != ms[j].id {
        assert ms[j] == ms[1..][j - 1];
        if i > 0 { assert ms[i] == ms[1..][i - 1]; }
      }
    }
  }

  lemma OrderIsAnEnumeration(st: State, order: seq<string>)
    requires Enumerates(st.keys, st.models) && multiset(order) == multiset(st.keys)
    ensures AtMostOnce(order) && forall k :: k in order <==> k in st.models
  {
    assert forall x :: x in order <==> x in multiset(order);
    assert forall x :: multiset(st.models.Keys)[x] <= 1;
  }

  /** A request that comes this far is one the planner accepts. */
  lemma RequestIsPlannable(st: State, id: string, gb: real, order: seq<string>)
    requires Inv(st) && st.poisoned.None? && gb >= 0.0
    requires multiset(order) == multiset(st.keys)
    requires EffectiveReservedGb(st, {}) <= st.settings.budgetGb
    ensures PlanApplies(RequestSnapshot(st, id, order), ModelReq(id, RequestGb(st, id, gb)))
    ensures RequestGb(st, id, gb) >= 0.0
  {
    OrderIsAnEnumeration(st, order);
    EntriesFacts(order, st.models, id);
    var ms := Entries(order, st.models, id);
    forall i | 0 <= i < |ms| ensures ms[i].memoryGb >= 0.0 && ms[i].id != id {
      assert ms[i] in ms;
    }
  }

  function PlannedVictims(st: State, id: string, gb: real, order: seq<string>): seq<string> {
    var plan := PlanEviction(RequestSnapshot(st, id, order), ModelReq(id, RequestGb(st, id, gb)));
    if plan.Success? && plan.value.Evict? then plan.value.victims else []
  }

  lemma ChosenAreEvictable(st: State, id: string, gb: real, order: seq<string>)
    requires Inv(st) && st.poisoned.None? && gb >= 0.0
    requires multiset(order) == multiset(st.keys)
    requires EffectiveReservedGb(st, {}) <= st.settings.budgetGb
    ensures VictimsFit(st, id, PlannedVictims(st, id, gb, order))
  {
    RequestIsPlannable(st, id, gb, order);
    var snapshot, need := RequestSnapshot(st, id, order), ModelReq(id, RequestGb(st, id, gb));
    PlanIsSoundAndMinimal(snapshot, need);
    var victims := PlannedVictims(st, id, gb, order);
    if victims != [] {
      var chosen := Chosen(snapshot, need);
      DistinctIds(chosen);
      forall v | v in victims ensures v in st.models && v != id && Evictable(st.models[v]) {
        var i :| 0 <= i < |victims| && victims[i] == v;
        assert chosen[i] in chosen;
        EligibleIsEvictable(st, id, order, chosen[i]);
      }
    }
  }

  /** The planner may choose exactly the evictable models other than the target. */
  lemma CandidatesAreTheEvictable(st: State, id: string, order: seq<string>, k: string)
    requires Inv(st) && multiset(order) == multiset(st.keys) && k in st.models && k != id
    ensures Entry(k, st.models[k]) in Candidates(Entries(order, st.models, id)) <==> Evictable(st.models[k])
  {
    OrderIsAnEnumeration(st, order);
    EntriesFacts(order, st.models, id);
  }

  lemma EligibleIsEvictable(st: State, id: string, order: seq<string>, m: ModelEntry)
    requires Inv(st) && multiset(order) == multiset(st.keys)
    requires m in Entries(order, st.models, id) && Eligible(m)
    ensures m.id in st.models && m.id != id && Evictable(st.models[m.id])
  {
    OrderIsAnEnumeration(st, order);
    EntriesFacts(order, st.models, id);
  }

  /** Only models at rest, idle, unpinned and known to be what they seem are ever chosen to go. */
  lemma PlanNamesEvictable(st: State, id: string, gb: real, order: seq<string>)
    requires Inv(st) && st.poisoned.None? && gb >= 0.0
    requires multiset(order) == multiset(st.keys)
    requires PlanLoad(st, id, gb, order).Success?
    ensures VictimsFit(st, id, PlanLoad(st, id, gb, order).value.victims)
    ensures PlanLoad(st, id, gb, order).value.memoryGb >= 0.0
  {
    PlanLoadShape(st, id, gb, order);
    RequestIsPlannable(st, id, gb, order);
    ChosenAreEvictable(st, id, gb, order);
  }

  lemma PlanLoadShape(st: State, id: string, gb: real, order: seq<string>)
    requires PlanLoad(st, id, gb, order).Success?
    ensures EffectiveReservedGb(st, {}) <= st.settings.budgetGb
    ensures PlanLoad(st, id, gb, order).value.victims == PlannedVictims(st, id, gb, order)
    ensures PlanLoad(st, id, gb, order).value.memoryGb == RequestGb(st, id, gb)
  {
  }

  // -------------------------------------------------------------- each step

  lemma AnswerKeepsInv(st: State, req: nat, result: Result<(), BackendError>)
    requires Inv(st)
    ensures Inv(AnswerTo(st, req, result))
  {
    var after := AnswerTo(st, req, result);
    if st.poisoned.None? {
      forall k | k in after.models ensures SlotFits(after, k, after.models[k]) {
        assert SlotFits(st, k, st.models[k]);
      }
    }
  }

  lemma JoinKeepsInv(st: State, req: nat)
    requires Inv(st) && st.active.Some?
    ensures Inv(Join(st, req))
  {
    var after := Join(st, req);
    forall k | k in after.models ensures SlotFits(after, k, after.models[k]) {
      assert SlotFits(st, k, st.models[k]);
    }
  }

  /** A change of the surroundings the lifecycle does not look at. */
  predicate SameLifecycle(a: State, b: State) {
    && a.settings == b.settings && a.keys == b.keys && a.models == b.models && a.active == b.active
    && a.poisoned == b.poisoned && a.reservedGb == b.reservedGb && a.covered == b.covered
    && a.task == b.task && a.chats == b.chats
  }

  lemma SurroundingsKeepInv(a: State, b: State)
    requires Inv(a) && SameLifecycle(a, b)
    ensures Inv(b)
  {
    if a.poisoned.None? {
      forall k | k in b.models ensures SlotFits(b, k, b.models[k]) {
        assert SlotFits(a, k, a.models[k]);
      }
    }
  }

  lemma ClaimIsSurroundings(st: State, plannedGb: real, plannedCharge: Option<U128>, allow: bool)
    ensures SameLifecycle(st, ClaimCapacity(st, plannedGb, plannedCharge, allow).0)
    ensures ClaimCapacity(st, plannedGb, plannedCharge, allow).0.marker == st.marker
  {
  }

  predicate Takeable(st: State, id: string) {
    id in st.models ==> st.models[id].inflight == 0 && !st.models[id].loadUnconfirmed
  }

  lemma InstalledKeys(st: State, req: nat, id: string, gb: real, policy: LoadPolicy, allow: bool, plan: LoadPlan)
    requires Enumerates(st.keys, st.models)
    ensures var after := Install(st, req, id, gb, policy, allow, plan);
            Enumerates(after.keys, after.models) && after.models.Keys == st.models.Keys + {id}
  {
    var after := Install(st, req, id, gb, policy, allow, plan);
    assert after.models.Keys == st.models.Keys + {id};
    AddedKeyIsListed(st.keys, st.models, after.models, id);
  }

  lemma AddedKeyIsListed(keys: seq<string>, before: Models, after: Models, id: string)
    requires Enumerates(keys, before) && after.Keys == before.Keys + {id}
    ensures Enumerates(if id in before then keys else keys + [id], after)
  {
    if id in before {
      assert after.Keys == before.Keys;
    } else {
      assert multiset(after.Keys) == multiset(before.Keys) + multiset{id};
    }
  }

  lemma InstalledSlot(st: State, req: nat, id: string, gb: real, policy: LoadPolicy, allow: bool, plan: LoadPlan,
                      k: string)
    requires Inv(st) && st.poisoned.None? && st.active.None?
    requires VictimsFit(st, id, plan.victims) && plan.memoryGb >= 0.0 && Takeable(st, id)
    requires k in st.models || k == id
    ensures var after := Install(st, req, id, gb, policy, allow, plan);
            k in after.models && SlotFits(after, k, after.models[k])
  {
    if k in st.models {
      assert SlotFits(st, k, st.models[k]);
    } else {
      assert st.chats[k] == 0;
    }
  }

  lemma InstalledTask(st: State, req: nat, id: string, gb: real, policy: LoadPolicy, allow: bool, plan: LoadPlan)
    requires Inv(st) && st.poisoned.None? && st.active.None?
    requires VictimsFit(st, id, plan.victims) && plan.memoryGb >= 0.0 && Takeable(st, id)
    ensures TaskFits(Install(st, req, id, gb, policy, allow, plan))
  {
    if id in st.models {
      assert SlotFits(st, id, st.models[id]);
    }
  }

  lemma InstallKeepsInv(st: State, req: nat, id: string, gb: real, policy: LoadPolicy, allow: bool, plan: LoadPlan)
    requires Inv(st) && st.poisoned.None? && st.active.None?
    requires VictimsFit(st, id, plan.victims) && plan.memoryGb >= 0.0 && Takeable(st, id)
    ensures Inv(Install(st, req, id, gb, policy, allow, plan))
  {
    var after := Install(st, req, id, gb, policy, allow, plan);
    InstalledKeys(st, req, id, gb, policy, allow, plan);
    InstalledTask(st, req, id, gb, policy, allow, plan);
    forall k | k in after.models ensures SlotFits(after, k, after.models[k]) {
      InstalledSlot(st, req, id, gb, policy, allow, plan, k);
    }
  }

  lemma AdmitKeepsInv(st: State, req: nat, id: string, gb: real, policy: LoadPolicy, allow: bool, plan: LoadPlan,
                      beginIo: BeginIo, clearIo: ClearIo)
    requires Inv(st) && st.poisoned.None? && st.active.None?
    requires VictimsFit(st, id, plan.victims) && plan.memoryGb >= 0.0 && Takeable(st, id)
    ensures Inv(AdmitLoad(st, req, id, gb, policy, allow, plan, beginIo, clearIo))
  {
    var fenced := st.(marker := BeginStep(st.marker, beginIo).marker);
    SurroundingsKeepInv(st, fenced);
    if !BeginStep(st.marker, beginIo).ok {
      AnswerKeepsInv(fenced, req, Failure(Internal));
    } else {
      ClaimIsSurroundings(fenced, plan.plannedGb, plan.plannedCharge, allow);
      var (claimed, result) := ClaimCapacity(fenced, plan.plannedGb, plan.plannedCharge, allow);
      SurroundingsKeepInv(fenced, claimed);
      if result.Success? {
        InstallKeepsInv(claimed, req, id, gb, policy, allow, plan);
      } else {
        var step := ClearStep(claimed.marker, clearIo);
        var cleared := claimed.(marker := step.marker);
        SurroundingsKeepInv(claimed, cleared);
        AnswerKeepsInv(cleared, req, if step.ok then result else Failure(Internal));
      }
    }
  }

  lemma GateProceeds(st: State, id: string, gb: real, policy: LoadPolicy, allow: bool)
    requires LoadGate(st, id, gb, policy, allow).Proceeds?
    ensures st.active.None? && Takeable(st, id) && gb >= 0.0
  {
  }

  lemma ProceedKeepsInv(st: State, req: nat, id: string, gb: real, policy: LoadPolicy, allow: bool,
                        planned: Result<LoadPlan, BackendError>, beginIo: BeginIo, clearIo: ClearIo)
    requires Inv(st) && st.poisoned.None? && st.active.None? && Takeable(st, id)
    requires planned.Success? ==> VictimsFit(st, id, planned.value.victims) && planned.value.memoryGb >= 0.0
    ensures Inv(ProceedLoad(st, req, id, gb, policy, allow, planned, beginIo, clearIo))
  {
    match planned
    case Failure(e) => AnswerKeepsInv(st, req, Failure(e));
    case Success(plan) => AdmitKeepsInv(st, req, id, gb, policy, allow, plan, beginIo, clearIo);
  }

  lemma LoadKeepsInv(st: State, req: nat, id: string, gb: real, policy: LoadPolicy, allow: bool,
                     order: seq<string>, beginIo: BeginIo, clearIo: ClearIo)
    requires Inv(st) && st.poisoned.None? && multiset(order) == multiset(st.keys)
    ensures Inv(HandleLoad(st, req, id, gb, policy, allow, order, beginIo, clearIo))
  {
    if LoadGate(st, id, gb, policy, allow).Proceeds? {
      GateProceeds(st, id, gb, policy, allow);
      PlannedLoadKeepsInv(st, req, id, gb, policy, allow, order, beginIo, clearIo);
    } else {
      SettledLoadKeepsInv(st, req, id, gb, policy, allow, order, beginIo, clearIo);
    }
  }

  /** A request answered or joined at the gate. */
  lemma SettledLoadKeepsInv(st: State, req: nat, id: string, gb: real, policy: LoadPolicy, allow: bool,
                            order: seq<string>, beginIo: BeginIo, clearIo: ClearIo)
    requires Inv(st) && !LoadGate(st, id, gb, policy, allow).Proceeds?
    ensures Inv(HandleLoad(st, req, id, gb, policy, allow, order, beginIo, clearIo))
  {
    var gate := LoadGate(st, id, gb, policy, allow);
    if gate.Answered? {
      AnswerKeepsInv(st, req, gate.result);
    } else {
      JoinKeepsInv(st, req);
    }
  }

  lemma PlannedLoadKeepsInv(st: State, req: nat, id: string, gb: real, policy: LoadPolicy, allow: bool,
                            order: seq<string>, beginIo: BeginIo, clearIo: ClearIo)
    requires Inv(st) && st.poisoned.None? && multiset(order) == multiset(st.keys)
    requires st.active.None? && Takeable(st, id) && gb >= 0.0
    ensures Inv(ProceedLoad(st, req, id, gb, policy, allow, PlanLoad(st, id, gb, order), beginIo, clearIo))
  {
    var planned := PlanLoad(st, id, gb, order);
    if planned.Success? {
      PlanNamesEvictable(st, id, gb, order);
    }
    ProceedKeepsInv(st, req, id, gb, policy, allow, planned, beginIo, clearIo);
  }

  lemma UnloadKeepsInv(st: State, req: nat, id: string)
    requires Inv(st) && st.poisoned.None?
    ensures Inv(HandleUnload(st, req, id))
  {
    match UnloadGate(st, id)
    case Answered(result) => AnswerKeepsInv(st, req, result);
    case Joins => JoinKeepsInv(st, req);
    case Proceeds => StartUnloadKeepsInv(st, req, id);
  }

  lemma StartUnloadKeepsInv(st: State, req: nat, id: string)
    requires Inv(st) && st.poisoned.None? && UnloadGate(st, id).Proceeds?
    ensures Inv(StartUnload(st, req, id))
  {
    var after := StartUnload(st, req, id);
    assert after.models.Keys == st.models.Keys;
    forall k | k in after.models ensures SlotFits(after, k, after.models[k]) {
      assert SlotFits(st, k, st.models[k]);
    }
  }

  lemma ChatKeepsInv(st: State, id: string, permit: bool)
    requires Inv(st) && st.poisoned.None?
    ensures Inv(HandleChat(st, id, permit))
  {
    var after := HandleChat(st, id, permit);
    if after != st {
      assert after.models.Keys == st.models.Keys;
      forall k | k in after.models ensures SlotFits(after, k, after.models[k]) {
        assert SlotFits(st, k, st.models[k]);
      }
    }
  }

  lemma ChatDoneSlot(st: State, id: string, k: string)
    requires Inv(st) && st.poisoned.None? && id in st.chats && k in st.models
    ensures var after := HandleChatDone(st, id);
            k in after.models && SlotFits(after, k, after.models[k])
  {
    assert SlotFits(st, k, st.models[k]);
    if k == id {
      CountedDownSlot(st, id);
    }
  }

  lemma CountedDownSlot(st: State, id: string)
    requires Inv(st) && st.poisoned.None? && id in st.chats
    ensures id in st.models
    ensures var after := HandleChatDone(st, id); id in after.models && SlotFits(after, id, after.models[id])
  {
    assert SlotFits(st, id, st.models[id]);
  }

  lemma ChatDoneTask(st: State, id: string)
    requires Inv(st) && st.poisoned.None? && id in st.chats
    ensures TaskFits(HandleChatDone(st, id)) && HandleChatDone(st, id).poisoned.None?
  {
    assert id in st.models;
  }

  lemma ChatDoneKeepsInv(st: State, id: string)
    requires Inv(st) && id in st.chats
    ensures Inv(HandleChatDone(st, id))
  {
    if st.poisoned.None? {
      var after := HandleChatDone(st, id);
      ChatDoneTask(st, id);
      ChatDoneSlot(st, id, id);
      forall k | k in after.models ensures SlotFits(after, k, after.models[k]) {
        ChatDoneSlot(st, id, k);
      }
      forall k | k in after.chats ensures k in after.models {
        assert k in st.chats;
      }
    }
  }

  // ------------------------------------------------------- finished operations

  /** Between `OpDone`'s changes and its release, every slot is at rest and nothing is lost. */
  ghost predicate AllAtRest(st: State) {
    && Enumerates(st.keys, st.models) && NumbersFit(st) && st.poisoned.None? && st.task.None?
    && (forall k :: k in st.models ==>
          AtRest(st.models[k]) && st.models[k].memoryGb >= 0.0 && st.models[k].inflight == st.chats[k])
    && (forall k :: k in st.chats ==> k in st.models)
  }

  lemma SettleIsSurroundings(st: State)
    ensures SameLifecycle(st, SettleCapacity(st).0)
  {
  }

  lemma ConcludeKeepsInv(st: State, result: Result<(), BackendError>)
    requires AllAtRest(st) && st.active.Some?
    ensures Inv(Conclude(st, result))
  {
    SettleIsSurroundings(st);
    var after := Conclude(st, result);
    assert after.models == st.models && after.keys == st.keys && after.covered == st.covered;
    if after.poisoned.None? {
      forall k | k in after.models ensures SlotFits(after, k, after.models[k]) {
        assert AtRest(st.models[k]);
      }
    }
  }

  lemma CreditsFit(models: Models, status: BackendStatus, excluded: Option<string>, creditGb: real)
    requires excluded.Some? ==> excluded.value in models
    requires creditGb >= 0.0 && forall k :: k in models ==> models[k].memoryGb >= 0.0
    ensures var c := RefreshedCredits(models, status, excluded, creditGb);
            forall k :: k in c ==> k in models && c[k] >= 0.0
  {
  }

  predicate SameButModels(a: State, b: State) {
    && a.models.Keys == b.models.Keys
    && a.keys == b.keys && a.settings == b.settings && a.chats == b.chats
    && a.poisoned == b.poisoned && a.task == b.task && a.active == b.active
  }

  lemma EvictionShape(st: State, id: string, o: LoadOutcome)
    ensures SameButModels(st, ApplyEviction(st, id, o))
    ensures ApplyEviction(st, id, o).models == SettleVictims(st.models, o.victimResults)
    ensures ApplyEviction(st, id, o).nextSeq == st.nextSeq
  {
    assert SettleVictims(st.models, o.victimResults).Keys == st.models.Keys;
  }

  lemma AppliedSlots(st: State, id: string, o: LoadOutcome, k: string)
    requires id in st.models && k in st.models
    ensures SameButModels(st, ApplyLoadOutcome(st, id, o))
    ensures var slot := SettleVictims(st.models, o.victimResults)[k];
            ApplyLoadOutcome(st, id, o).models[k]
            == if k != id then slot
               else if o.result.Success? then slot.(state := Ready, lastUsedSeq := st.nextSeq + 1)
               else FailedSlot(slot, o.failure)
  {
    EvictionShape(st, id, o);
    var evicted := ApplyEviction(st, id, o);
    if o.result.Success? {
      assert ApplySuccess(evicted, id).models.Keys == evicted.models.Keys;
    } else {
      assert ApplyFailure(evicted, id, o.failure).models.Keys == evicted.models.Keys;
    }
  }

  lemma FailedSlotRests(slot: ModelSlot, failure: LoadFailure, ctx: FlowContext)
    requires slot.state.Loading? && slot.inflight == 0 && slot.memoryGb >= 0.0 && !slot.loadUnconfirmed
    requires PreviousFits(ctx.previous)
    requires match failure
             case Settle(state) => state.Stopped? || state.Error?
             case SettleReleased(status) => true
             case RestorePrevious(p) => ctx.previous == Some(p)
             case RetainPreviousOnError(p) => ctx.previous == Some(p)
             case RetainUnconfirmedLoad(kept) => kept.None? || kept == ctx.previous
    ensures var after := FailedSlot(slot, failure);
            AtRest(after) && after.memoryGb >= 0.0 && after.inflight == 0
  {
  }

  /** What a report leaves in each slot. */
  lemma SlotAfterLoad(st: State, ctx: FlowContext, o: LoadOutcome, k: string)
    requires Inv(st) && st.poisoned.None? && st.task == Some(LoadTask(ctx)) && OutcomeFits(ctx, o) && k in st.models
    ensures ctx.id in st.models && k in ApplyLoadOutcome(st.(task := None), ctx.id, o).models
    ensures var slot := ApplyLoadOutcome(st.(task := None), ctx.id, o).models[k];
            AtRest(slot) && slot.memoryGb >= 0.0 && slot.inflight == st.chats[k]
  {
    assert SlotFits(st, k, st.models[k]);
    ReportedExactlyVictims(ctx, o, k);
    AppliedSlots(st.(task := None), ctx.id, o, k);
    if k == ctx.id && o.result.Failure? {
      FailedSlotRests(st.models[k], o.failure, ctx);
    }
  }

  lemma ReportedExactlyVictims(ctx: FlowContext, o: LoadOutcome, k: string)
    requires OutcomeFits(ctx, o)
    ensures Reported(o.victimResults, k) <==> k in ctx.victims
  {
    var ids := Ids(o.victimResults);
    if k in ctx.victims {
      var i :| 0 <= i < |ids| && ids[i] == k;
      assert o.victimResults[i] in o.victimResults;
    }
    if Reported(o.victimResults, k) {
      var r :| r in o.victimResults && r.id == k;
      var i :| 0 <= i < |o.victimResults| && o.victimResults[i] == r;
      assert ids[i] == k;
    }
  }

  lemma ReportedAreKnown(st: State, ctx: FlowContext, o: LoadOutcome)
    requires Inv(st) && st.poisoned.None? && st.task == Some(LoadTask(ctx)) && OutcomeFits(ctx, o)
    ensures ctx.id in st.models && AllKnown(st.models, o.victimResults) && st.active.Some?
  {
    forall r | r in o.victimResults ensures r.id in st.models {
      ReportedExactlyVictims(ctx, o, r.id);
    }
  }

  lemma LoadLeavesAllAtRest(st: State, ctx: FlowContext, o: LoadOutcome)
    requires Inv(st) && st.poisoned.None? && st.task == Some(LoadTask(ctx)) && OutcomeFits(ctx, o)
    ensures ctx.id in st.models && AllAtRest(ApplyLoadOutcome(st.(task := None), ctx.id, o))
  {
    ReportedAreKnown(st, ctx, o);
    var applied := ApplyLoadOutcome(st.(task := None), ctx.id, o);
    AppliedSlots(st.(task := None), ctx.id, o, ctx.id);
    forall k | k in applied.models
      ensures AtRest(applied.models[k]) && applied.models[k].memoryGb >= 0.0
              && applied.models[k].inflight == applied.chats[k]
    {
      SlotAfterLoad(st, ctx, o, k);
    }
    AppliedNumbersFit(st, ctx, o);
  }

  lemma LoadDoneKeepsInv(st: State, ctx: FlowContext, o: LoadOutcome)
    requires Inv(st) && st.poisoned.None? && st.task == Some(LoadTask(ctx)) && OutcomeFits(ctx, o)
    ensures Inv(LoadDone(st, ctx.id, o))
  {
    ReportedAreKnown(st, ctx, o);
    LoadLeavesAllAtRest(st, ctx, o);
    AppliedSlots(st.(task := None), ctx.id, o, ctx.id);
    ConcludeKeepsInv(ApplyLoadOutcome(st.(task := None), ctx.id, o), o.result);
  }

  lemma AppliedNumbersFit(st: State, ctx: FlowContext, o: LoadOutcome)
    requires Inv(st) && st.poisoned.None? && st.task == Some(LoadTask(ctx)) && OutcomeFits(ctx, o)
    ensures ctx.id in st.models && NumbersFit(ApplyLoadOutcome(st.(task := None), ctx.id, o))
  {
    var evicted := SettleVictims(st.models, o.victimResults);
    forall k | k in evicted ensures evicted[k].memoryGb >= 0.0 {
      assert SlotFits(st, k, st.models[k]);
    }
    SettledNumbersFit(st.(task := None), ctx, o);
  }

  ghost predicate AmountsFit(st: State) {
    NumbersFit(st) && forall k :: k in st.models ==> st.models[k].memoryGb >= 0.0
  }

  lemma SettledNumbersFit(st: State, ctx: FlowContext, o: LoadOutcome)
    requires AmountsFit(st) && ctx.id in st.models && OutcomeFits(ctx, o) && PreviousFits(ctx.previous)
    ensures NumbersFit(ApplyLoadOutcome(st, ctx.id, o))
  {
    EvictedNumbersFit(st, ctx, o);
    var evicted := ApplyEviction(st, ctx.id, o);
    EvictionShape(st, ctx.id, o);
    if o.result.Failure? {
      FailedNumbersFit(evicted, ctx.id, o.failure);
    }
  }

  lemma EvictedNumbersFit(st: State, ctx: FlowContext, o: LoadOutcome)
    requires AmountsFit(st) && ctx.id in st.models && OutcomeFits(ctx, o) && PreviousFits(ctx.previous)
    ensures AmountsFit(ApplyEviction(st, ctx.id, o))
  {
    var evicted := SettleVictims(st.models, o.victimResults);
    if o.aggregateStatus.Some? {
      CreditsFit(evicted, o.aggregateStatus.value, Some(ctx.id), o.aggregateTargetCreditGb);
    }
  }

  lemma FailedNumbersFit(st: State, id: string, failure: LoadFailure)
    requires AmountsFit(st) && id in st.models
    requires failure.SettleReleased? ==> failure.status.usedGb >= 0.0
    ensures NumbersFit(ApplyFailure(st, id, failure))
  {
    var failed := st.models[id := FailedSlot(st.models[id], failure)];
    if failure.SettleReleased? {
      CreditsFit(failed, failure.status, None, 0.0);
    }
  }

  lemma UnloadedSlot(st: State, id: string, o: UnloadOutcome, k: string)
    requires Inv(st) && st.poisoned.None? && st.task.Some? && st.task.value.UnloadTask? && st.task.value.id == id
    requires k in st.models
    ensures id in st.models && k in ApplyUnloadOutcome(st.(task := None), id, o).models
    ensures var slot := ApplyUnloadOutcome(st.(task := None), id, o).models[k];
            AtRest(slot) && slot.memoryGb >= 0.0 && slot.inflight == st.chats[k]
  {
    assert SlotFits(st, k, st.models[k]);
  }

  lemma UnloadShape(st: State, id: string, o: UnloadOutcome)
    requires id in st.models
    ensures var applied := ApplyUnloadOutcome(st, id, o);
            && applied.models.Keys == st.models.Keys
            && applied.keys == st.keys && applied.settings == st.settings && applied.chats == st.chats
            && applied.poisoned == st.poisoned && applied.task == st.task && applied.active == st.active
  {
    var applied := ApplyUnloadOutcome(st, id, o);
    assert applied.models.Keys == st.models.Keys;
  }

  lemma UnloadLeavesAllAtRest(st: State, id: string, o: UnloadOutcome)
    requires Inv(st) && st.poisoned.None? && st.task.Some? && st.task.value.UnloadTask? && st.task.value.id == id
    requires o.status.Some? ==> o.status.value.usedGb >= 0.0
    ensures id in st.models && AllAtRest(ApplyUnloadOutcome(st.(task := None), id, o))
  {
    var applied := ApplyUnloadOutcome(st.(task := None), id, o);
    UnloadShape(st.(task := None), id, o);
    forall k | k in applied.models
      ensures AtRest(applied.models[k]) && applied.models[k].memoryGb >= 0.0
              && applied.models[k].inflight == applied.chats[k]
    {
      UnloadedSlot(st, id, o, k);
    }
    if o.status.Some? {
      CreditsFit(applied.models, o.status.value, None, 0.0);
    }
  }

  lemma UnloadDoneKeepsInv(st: State, id: string, o: UnloadOutcome)
    requires Inv(st) && st.poisoned.None? && st.task.Some? && st.task.value.UnloadTask? && st.task.value.id == id
    requires o.status.Some? ==> o.status.value.usedGb >= 0.0
    ensures Inv(UnloadDone(st, id, o))
  {
    UnloadLeavesAllAtRest(st, id, o);
    UnloadShape(st.(task := None), id, o);
    ConcludeKeepsInv(ApplyUnloadOutcome(st.(task := None), id, o), o.result);
  }

  /** Every message that may arrive finds what it is about, and leaves the invariant standing. */
  lemma StepKeepsInv(st: State, m: Message)
    requires Inv(st) && Enabled(st, m)
    ensures Inv(Step(st, m))
  {
    match m
    case Load(req, id, gb, policy, allow, order, beginIo, clearIo) =>
      var asked := st.(asked := st.asked[req := LoadRequest(id, gb, policy, allow)]);
      SurroundingsKeepInv(st, asked);
      if Refusal(st).Some? {
        AnswerKeepsInv(asked, req, Failure(Refusal(st).value));
      } else {
        LoadKeepsInv(asked, req, id, gb, policy, allow, order, beginIo, clearIo);
      }
    case Unload(req, id) =>
      var asked := st.(asked := st.asked[req := UnloadRequest(id)]);
      SurroundingsKeepInv(st, asked);
      if Refusal(st).Some? {
        AnswerKeepsInv(asked, req, Failure(Refusal(st).value));
      } else {
        UnloadKeepsInv(asked, req, id);
      }
    case Chat(id, permit) =>
      if Refusal(st).None? { ChatKeepsInv(st, id, permit); }
    case ChatDone(id) =>
      ChatDoneKeepsInv(st, id);
    case LoadReported(trace) =>
      var ctx := st.task.value.ctx;
      var lifted := st.(marker := MarkerAfter(st.marker, trace));
      SurroundingsKeepInv(st, lifted);
      ReportFitsContext(ctx, trace);
      LoadDoneKeepsInv(lifted, ctx, Report(ctx, RunFlow(ctx, trace)));
    case UnloadReported(trace, outcome) =>
      UnloadDoneKeepsInv(st, st.task.value.id, outcome);
    case OtherOwner(op) =>
      SurroundingsKeepInv(st, Step(st, m));
  }
}
