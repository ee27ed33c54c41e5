/**
 * What the actor's past forces on its present: order of use, loads that can never
 * be settled, the marker under a running load; and the invariants over whole runs.
 */
module ActorHistory {
  import opened Wrappers
  import opened Backend
  import opened CapacityUnits
  import opened LoadPolicies
  import opened Eviction
  import opened LoadFences
  import opened LoadFlow
  import opened LoadFlowFacts
  import opened LoadTasks
  import opened Actor
  import opened ActorInvariant
  import opened ActorCapacity
  import opened ActorRuns
  import L = CapacityLedger

  // ----------------------------------------------------------- order of use

  /** One past the position of the last use of `k`; zero if it was never used. */
  function LastUse(uses: seq<Option<string>>, k: string): nat
    decreases |uses|
  {
    if uses == [] then 0
    else if uses[|uses| - 1] == Some(k) then |uses|
    else LastUse(uses[..|uses| - 1], k)
  }

  function LastSeq(models: Models, k: string): nat { if k in models then models[k].lastUsedSeq else 0 }

  /** The counter and the stamps on the slots are the history of use. */
  ghost predicate UsesFit(st: State, uses: seq<Option<string>>) {
    && st.nextSeq == |uses|
    && forall k :: LastSeq(st.models, k) == LastUse(uses, k)
  }

  /**
   * What a message adds to the history, told from outside the actor: a chat handed
   * to the engine, a load or an unload that was reported to have succeeded. An
   * unload uses no model, but counts as a moment.
   */
  ghost function UsesOf(st: State, m: Message): seq<Option<string>>
    requires Enabled(st, m)
  {
    match m
    case Chat(id, _) => if Step(st, m).chats != st.chats then [Some(id)] else []
    case LoadReported(trace) =>
      var ctx := st.task.value.ctx;
      if Report(ctx, RunFlow(ctx, trace)).result.Success? then [Some(ctx.id)] else []
    case UnloadReported(_, o) => if o.result.Success? then [None] else []
    case _ => []
  }

  lemma UsedNext(uses: seq<Option<string>>, u: Option<string>, k: string)
    ensures LastUse(uses + [u], k) == if u == Some(k) then |uses| + 1 else LastUse(uses, k)
  {
    assert (uses + [u])[..|uses|] == uses;
  }

  predicate SameStamps(a: State, b: State) {
    && a.nextSeq == b.nextSeq && a.models.Keys <= b.models.Keys
    && forall k :: k in b.models ==> b.models[k].lastUsedSeq == LastSeq(a.models, k)
  }

  lemma UnusedFits(a: State, b: State, uses: seq<Option<string>>)
    requires UsesFit(a, uses) && SameStamps(a, b)
    ensures UsesFit(b, uses)
  {
    forall k ensures LastSeq(b.models, k) == LastUse(uses, k) {
      assert LastSeq(a.models, k) == LastUse(uses, k);
    }
  }

  lemma UsedFits(a: State, b: State, uses: seq<Option<string>>, u: Option<string>)
    requires UsesFit(a, uses) && b.nextSeq == a.nextSeq + 1
    requires forall k :: LastSeq(b.models, k) == if u == Some(k) then a.nextSeq + 1 else LastSeq(a.models, k)
    ensures UsesFit(b, uses + [u])
  {
    forall k ensures LastSeq(b.models, k) == LastUse(uses + [u], k) {
      UsedNext(uses, u, k);
      assert LastSeq(a.models, k) == LastUse(uses, k);
    }
  }

  lemma AdmitKeepsStamps(st: State, m: Message, plan: LoadPlan)
    requires m.Load?
    ensures SameStamps(st, AdmitLoad(st, m.req, m.id, m.gb, m.policy, m.allow, plan, m.beginIo, m.clearIo))
  {
    var fenced := st.(marker := BeginStep(st.marker, m.beginIo).marker);
    ClaimTouchesOnlyLedger(fenced, plan.plannedGb, plan.plannedCharge, m.allow);
  }

  lemma LoadKeepsStamps(st: State, m: Message)
    requires Enabled(st, m) && m.Load?
    ensures SameStamps(st, Step(st, m))
  {
    var asked := st.(asked := st.asked[m.req := LoadRequest(m.id, m.gb, m.policy, m.allow)]);
    if Refusal(st).None? && LoadGate(asked, m.id, m.gb, m.policy, m.allow).Proceeds? {
      var planned := PlanLoad(asked, m.id, m.gb, m.order);
      if planned.Success? {
        AdmitKeepsStamps(asked, m, planned.value);
      }
    }
  }

  lemma ConcludeKeepsStamps(st: State, result: Result<(), BackendError>)
    ensures SameStamps(st, Conclude(st, result))
  {
    SettleTouchesOnlyLedger(st);
  }

  lemma EvictionKeepsStamps(st: State, id: string, o: LoadOutcome)
    ensures SameStamps(st, ApplyEviction(st, id, o))
  {
    EvictionShape(st, id, o);
  }

  lemma SuccessIsAUse(st: State, id: string, uses: seq<Option<string>>)
    requires UsesFit(st, uses) && id in st.models
    ensures UsesFit(ApplySuccess(st, id), uses + [Some(id)])
  {
    UsedFits(st, ApplySuccess(st, id), uses, Some(id));
  }

  lemma FailureKeepsStamps(st: State, id: string, failure: LoadFailure)
    requires id in st.models
    ensures SameStamps(st, ApplyFailure(st, id, failure))
  {
  }

  lemma LoadOutcomeIsAUse(st: State, id: string, o: LoadOutcome, uses: seq<Option<string>>)
    requires UsesFit(st, uses) && id in st.models
    ensures UsesFit(ApplyLoadOutcome(st, id, o), uses + if o.result.Success? then [Some(id)] else [])
  {
    var evicted := ApplyEviction(st, id, o);
    EvictionShape(st, id, o);
    EvictionKeepsStamps(st, id, o);
    UnusedFits(st, evicted, uses);
    if o.result.Success? {
      SuccessIsAUse(evicted, id, uses);
    } else {
      FailureKeepsStamps(evicted, id, o.failure);
      UnusedFits(evicted, ApplyFailure(evicted, id, o.failure), uses);
      assert uses + [] == uses;
    }
  }

  lemma UnloadOutcomeIsAMoment(st: State, id: string, o: UnloadOutcome, uses: seq<Option<string>>)
    requires UsesFit(st, uses) && id in st.models
    ensures UsesFit(ApplyUnloadOutcome(st, id, o), uses + if o.result.Success? then [None] else [])
  {
    var after := ApplyUnloadOutcome(st, id, o);
    if o.result.Success? {
      UsedFits(st, after, uses, None);
    } else {
      UnusedFits(st, after, uses);
      assert uses + [] == uses;
    }
  }

  lemma LoadReportIsAUse(st: State, m: Message, uses: seq<Option<string>>)
    requires Inv(st) && UsesFit(st, uses) && Enabled(st, m) && m.LoadReported?
    ensures UsesFit(Step(st, m), uses + UsesOf(st, m))
  {
    var ctx := st.task.value.ctx;
    var o := Report(ctx, RunFlow(ctx, m.trace));
    var ended := st.(marker := MarkerAfter(st.marker, m.trace), task := None);
    ReportFitsContext(ctx, m.trace);
    ReportedAreKnown(st, ctx, o);
    UnusedFits(st, ended, uses);
    LoadOutcomeIsAUse(ended, ctx.id, o, uses);
    var applied := ApplyLoadOutcome(ended, ctx.id, o);
    ConcludeKeepsStamps(applied, o.result);
    UnusedFits(applied, Step(st, m), uses + UsesOf(st, m));
  }

  lemma UnloadReportIsAMoment(st: State, m: Message, uses: seq<Option<string>>)
    requires Inv(st) && UsesFit(st, uses) && Enabled(st, m) && m.UnloadReported?
    ensures UsesFit(Step(st, m), uses + UsesOf(st, m))
  {
    var id := st.task.value.id;
    var ended := st.(task := None);
    UnusedFits(st, ended, uses);
    UnloadOutcomeIsAMoment(ended, id, m.outcome, uses);
    var applied := ApplyUnloadOutcome(ended, id, m.outcome);
    ConcludeKeepsStamps(applied, m.outcome.result);
    UnusedFits(applied, Step(st, m), uses + UsesOf(st, m));
  }

  lemma UnloadKeepsStamps(st: State, m: Message)
    requires Enabled(st, m) && m.Unload?
    ensures SameStamps(st, Step(st, m))
  {
  }

  lemma ChatIsAUse(st: State, m: Message, uses: seq<Option<string>>)
    requires UsesFit(st, uses) && Enabled(st, m) && m.Chat?
    ensures UsesFit(Step(st, m), uses + UsesOf(st, m))
  {
    var after := Step(st, m);
    if after == st {
      assert uses + [] == uses;
    } else {
      assert after.chats[m.id] == st.chats[m.id] + 1;
      UsedFits(st, after, uses, Some(m.id));
    }
  }

  /** The stamps on the slots follow the history that the messages themselves make. */
  lemma StepKeepsUses(st: State, m: Message, uses: seq<Option<string>>)
    requires Inv(st) && UsesFit(st, uses) && Enabled(st, m)
    ensures UsesFit(Step(st, m), uses + UsesOf(st, m))
  {
    match m
    case Chat(_, _) => ChatIsAUse(st, m, uses);
    case LoadReported(_) => LoadReportIsAUse(st, m, uses);
    case UnloadReported(_, _) => UnloadReportIsAMoment(st, m, uses);
    case _ => UselessMessageKeepsUses(st, m, uses);
  }

  lemma UselessMessageKeepsUses(st: State, m: Message, uses: seq<Option<string>>)
    requires UsesFit(st, uses) && Enabled(st, m) && (m.Load? || m.Unload? || m.ChatDone? || m.OtherOwner?)
    ensures UsesFit(Step(st, m), uses + UsesOf(st, m))
  {
    assert SameStamps(st, Step(st, m)) by {
      if m.Load? { LoadKeepsStamps(st, m); }
      if m.Unload? { UnloadKeepsStamps(st, m); }
    }
    UnusedFits(st, Step(st, m), uses);
    assert uses + [] == uses;
  }

  lemma NotNamedNotChosen(chosen: seq<ModelEntry>, m: ModelEntry)
    requires m.id !in IdsOf(chosen)
    ensures m !in chosen
  {
    forall j | 0 <= j < |chosen| ensures chosen[j] != m {
      assert IdsOf(chosen)[j] == chosen[j].id;
    }
  }

  lemma SparedByPlan(st: State, id: string, gb: real, order: seq<string>, chosen: seq<ModelEntry>, v: string,
                     spared: string)
    requires Inv(st) && multiset(order) == multiset(st.keys)
    requires chosen == Chosen(RequestSnapshot(st, id, order), ModelReq(id, RequestGb(st, id, gb)))
    requires SparesLaterUse(Entries(order, st.models, id), chosen)
    requires forall m :: m in chosen ==> m in Entries(order, st.models, id)
    requires v in IdsOf(chosen) && spared !in IdsOf(chosen)
    requires spared in st.models && spared != id && Evictable(st.models[spared])
    ensures v in st.models && st.models[v].lastUsedSeq <= st.models[spared].lastUsedSeq
  {
    OrderIsAnEnumeration(st, order);
    EntriesFacts(order, st.models, id);
    var m := Entry(spared, st.models[spared]);
    var i :| 0 <= i < |chosen| && IdsOf(chosen)[i] == v;
    assert chosen[i] in chosen;
    NotNamedNotChosen(chosen, m);
    assert m in Entries(order, st.models, id) && Eligible(m);
  }

  /** Victims are the models whose last use lies furthest back in the run's own history. */
  lemma VictimsAreLeastRecentlyUsed(st: State, id: string, gb: real, order: seq<string>,
                                   uses: seq<Option<string>>, v: string, spared: string)
    requires Inv(st) && st.poisoned.None? && UsesFit(st, uses) && gb >= 0.0
    requires multiset(order) == multiset(st.keys)
    requires PlanLoad(st, id, gb, order).Success? && v in PlanLoad(st, id, gb, order).value.victims
    requires spared in st.models && spared != id && Evictable(st.models[spared])
    requires spared !in PlanLoad(st, id, gb, order).value.victims
    ensures LastUse(uses, v) <= LastUse(uses, spared)
  {
    PlanLoadShape(st, id, gb, order);
    RequestIsPlannable(st, id, gb, order);
    var snapshot, need := RequestSnapshot(st, id, order), ModelReq(id, RequestGb(st, id, gb));
    PlanIsSoundAndMinimal(snapshot, need);
    SparedByPlan(st, id, gb, order, Chosen(snapshot, need), v, spared);
    assert LastSeq(st.models, v) == LastUse(uses, v) && LastSeq(st.models, spared) == LastUse(uses, spared);
  }

  // -------------------------------------------------------- unconfirmed loads

  /** A slot whose load may still allocate is beyond the reach of every command and every report. */
  lemma StepKeepsUnconfirmed(st: State, m: Message, k: string)
    requires Inv(st) && Enabled(st, m) && k in st.models && st.models[k].loadUnconfirmed
    ensures k in Step(st, m).models && Step(st, m).models[k] == st.models[k]
    ensures st.models[k].state.Error? && OccupiesBudget(st.models[k].state)
    ensures !MayBeUnloaded(st, k)
  {
    if st.poisoned.None? { assert SlotFits(st, k, st.models[k]); }
    match m
    case Load(_, _, _, _, _, _, _, _) => LoadSparesUnconfirmed(st, m, k);
    case Unload(req, id) => UnloadRequestSparesUnconfirmed(st, m, k);
    case Chat(id, permit) =>
    case ChatDone(id) => ChatDoneSparesUnconfirmed(st, id, k);
    case LoadReported(trace) => ReportSparesUnconfirmed(st, trace, k);
    case UnloadReported(trace, o) => UnloadSparesUnconfirmed(st, o, k);
    case OtherOwner(op) =>
  }

  lemma UnloadRequestSparesUnconfirmed(st: State, m: Message, k: string)
    requires Enabled(st, m) && m.Unload? && k in st.models && st.models[k].loadUnconfirmed
    ensures k in Step(st, m).models && Step(st, m).models[k] == st.models[k]
  {
    UnloadGateSparesUnconfirmed(st.(asked := st.asked[m.req := UnloadRequest(m.id)]), m.req, m.id, k);
  }

  lemma UnloadGateSparesUnconfirmed(st: State, req: nat, id: string, k: string)
    requires k in st.models && st.models[k].loadUnconfirmed
    ensures var after := HandleUnload(st, req, id); k in after.models && after.models[k] == st.models[k]
  {
  }

  lemma LoadSparesUnconfirmed(st: State, m: Message, k: string)
    requires Inv(st) && Enabled(st, m) && m.Load? && k in st.models && st.models[k].loadUnconfirmed
    ensures k in Step(st, m).models && Step(st, m).models[k] == st.models[k]
  {
    var asked := st.(asked := st.asked[m.req := LoadRequest(m.id, m.gb, m.policy, m.allow)]);
    SurroundingsKeepInv(st, asked);
    if Refusal(st).None? && LoadGate(asked, m.id, m.gb, m.policy, m.allow).Proceeds? {
      GateProceeds(asked, m.id, m.gb, m.policy, m.allow);
      var planned := PlanLoad(asked, m.id, m.gb, m.order);
      if planned.Success? {
        PlanNamesEvictable(asked, m.id, m.gb, m.order);
        AdmitSparesUnconfirmed(asked, m, planned.value, k);
      }
    }
  }

  lemma AdmitSparesUnconfirmed(st: State, m: Message, plan: LoadPlan, k: string)
    requires m.Load? && k in st.models && k != m.id && k !in plan.victims
    ensures var after := AdmitLoad(st, m.req, m.id, m.gb, m.policy, m.allow, plan, m.beginIo, m.clearIo);
            k in after.models && after.models[k] == st.models[k]
  {
    var fenced := st.(marker := BeginStep(st.marker, m.beginIo).marker);
    ClaimTouchesOnlyLedger(fenced, plan.plannedGb, plan.plannedCharge, m.allow);
  }

  lemma ChatDoneSparesUnconfirmed(st: State, id: string, k: string)
    requires Inv(st) && id in st.chats && k in st.models && st.models[k].loadUnconfirmed
    ensures k in HandleChatDone(st, id).models && HandleChatDone(st, id).models[k] == st.models[k]
  {
    if st.poisoned.None? {
      assert SlotFits(st, k, st.models[k]);
      ChatDoneCountsDown(st, id);
    }
  }

  lemma ReportSparesUnconfirmed(st: State, trace: seq<Event>, k: string)
    requires Inv(st) && Enabled(st, LoadReported(trace)) && k in st.models && st.models[k].loadUnconfirmed
    ensures var after := Step(st, LoadReported(trace)); k in after.models && after.models[k] == st.models[k]
  {
    var ctx := st.task.value.ctx;
    var o := Report(ctx, RunFlow(ctx, trace));
    assert SlotFits(st, k, st.models[k]);
    ReportedModels(st, trace);
    ReportedExactlyVictims(ctx, o, k);
    AppliedSlots(st.(marker := MarkerAfter(st.marker, trace), task := None), ctx.id, o, k);
  }

  lemma UnloadSparesUnconfirmed(st: State, o: UnloadOutcome, k: string)
    requires Inv(st) && st.task.Some? && st.task.value.UnloadTask? && k in st.models && st.models[k].loadUnconfirmed
    ensures var after := UnloadDone(st, st.task.value.id, o); k in after.models && after.models[k] == st.models[k]
  {
    var id := st.task.value.id;
    assert id in st.models && k != id by { assert SlotFits(st, k, st.models[k]); }
    var applied := ApplyUnloadOutcome(st.(task := None), id, o);
    assert k in applied.models && applied.models[k] == st.models[k];
    ConcludeKeepsModels(applied, o.result);
  }

  lemma ConcludeKeepsModels(st: State, result: Result<(), BackendError>)
    ensures Conclude(st, result).models == st.models
  {
    SettleTouchesOnlyLedger(st);
  }

  lemma ReportedModels(st: State, trace: seq<Event>)
    requires Inv(st) && Enabled(st, LoadReported(trace))
    ensures var ctx := st.task.value.ctx;
            var o := Report(ctx, RunFlow(ctx, trace));
            var ended := st.(marker := MarkerAfter(st.marker, trace), task := None);
            && ctx.id in st.models && OutcomeFits(ctx, o)
            && Step(st, LoadReported(trace)).models == ApplyLoadOutcome(ended, ctx.id, o).models
  {
    var ctx := st.task.value.ctx;
    var o := Report(ctx, RunFlow(ctx, trace));
    var ended := st.(marker := MarkerAfter(st.marker, trace), task := None);
    ReportFitsContext(ctx, trace);
    ReportedAreKnown(st, ctx, o);
    ConcludeKeepsModels(ApplyLoadOutcome(ended, ctx.id, o), o.result);
  }

  /** The target's slot after a report, whatever settling the capacity brought. */
  lemma ReportedTarget(st: State, trace: seq<Event>)
    requires Inv(st) && Enabled(st, LoadReported(trace))
    ensures var ctx := st.task.value.ctx;
            var o := Report(ctx, RunFlow(ctx, trace));
            && ctx.id in st.models && !st.models[ctx.id].loadUnconfirmed && st.models[ctx.id].memoryGb >= 0.0
            && ctx.id in Step(st, LoadReported(trace)).models
            && Step(st, LoadReported(trace)).models[ctx.id]
               == if o.result.Success? then st.models[ctx.id].(state := Ready, lastUsedSeq := st.nextSeq + 1)
                  else FailedSlot(st.models[ctx.id], o.failure)
  {
    var ctx := st.task.value.ctx;
    var o := Report(ctx, RunFlow(ctx, trace));
    ReportedModels(st, trace);
    assert SlotFits(st, ctx.id, st.models[ctx.id]);
    ReportedExactlyVictims(ctx, o, ctx.id);
    AppliedSlots(st.(marker := MarkerAfter(st.marker, trace), task := None), ctx.id, o, ctx.id);
  }

  predicate ChargedFor(slot: ModelSlot, gb: real, charge: nat) { slot.memoryGb >= gb && slot.charge >= charge }

  /** The slot of a running load against the request it was admitted for. */
  predicate RequestFits(st: State) {
    LoadActive(st) ==>
      && st.active.value.id in st.models && st.task.Some? && st.task.value.LoadTask?
      && SlotMeetsRequest(st, st.models[st.active.value.id], st.active.value.kind.memoryGb)
  }

  /** A fresh load is charged its whole request; an inherited one at most that. */
  predicate SlotMeetsRequest(st: State, slot: ModelSlot, gb: real)
    requires st.task.Some? && st.task.value.LoadTask?
  {
    && slot.inherited == st.task.value.ctx.inherited
    && slot.memoryGb <= gb
    && (!slot.inherited ==> slot.memoryGb == gb && (st.claim.Exact? ==> Units(gb, Up) == Success(slot.charge)))
  }

  lemma PlannedCharge(st: State, id: string, gb: real, order: seq<string>)
    requires PlanLoad(st, id, gb, order).Success? && st.claim.Exact? && !Inherited(st, id)
    ensures Units(gb, Up) == Success(PlanLoad(st, id, gb, order).value.charge)
  {
  }

  lemma InstallMeetsRequest(before: State, st: State, m: Message, plan: LoadPlan)
    requires m.Load? && m.gb >= 0.0
    requires Inherited(before, m.id) ==> OccupiesBudget(before.models[m.id].state)
    requires st == before.(marker := st.marker, ledger := st.ledger, claim := st.claim)
    requires st.claim.Exact? ==> before.claim.Exact?
    requires PlanLoad(before, m.id, m.gb, m.order) == Success(plan)
    ensures RequestFits(Install(st, m.req, m.id, m.gb, m.policy, m.allow, plan))
  {
    PlanLoadShape(before, m.id, m.gb, m.order);
    if before.claim.Exact? && !Inherited(before, m.id) {
      PlannedCharge(before, m.id, m.gb, m.order);
    }
  }

  lemma AdmitMeetsRequest(st: State, m: Message, plan: LoadPlan)
    requires Inv(st) && st.poisoned.None? && m.Load? && m.gb >= 0.0 && st.active.None?
    requires PlanLoad(st, m.id, m.gb, m.order) == Success(plan)
    ensures RequestFits(AdmitLoad(st, m.req, m.id, m.gb, m.policy, m.allow, plan, m.beginIo, m.clearIo))
  {
    var begun := BeginStep(st.marker, m.beginIo);
    var fenced := st.(marker := begun.marker);
    ClaimTouchesOnlyLedger(fenced, plan.plannedGb, plan.plannedCharge, m.allow);
    var (claimed, result) := ClaimCapacity(fenced, plan.plannedGb, plan.plannedCharge, m.allow);
    if begun.ok && result.Success? {
      if Inherited(st, m.id) { assert SlotFits(st, m.id, st.models[m.id]); }
      InstallMeetsRequest(st, claimed, m, plan);
    }
  }

  lemma LoadKeepsRequest(st: State, m: Message)
    requires Inv(st) && RequestFits(st) && Enabled(st, m) && m.Load?
    ensures RequestFits(Step(st, m))
  {
    var asked := st.(asked := st.asked[m.req := LoadRequest(m.id, m.gb, m.policy, m.allow)]);
    if st.active.Some? {
      BusyActorOnlyAnswers(st, m);
    } else if Refusal(st).None? {
      SurroundingsKeepInv(st, asked);
      IdleActorMeetsRequest(asked, m);
    }
  }

  lemma IdleActorMeetsRequest(st: State, m: Message)
    requires Inv(st) && st.poisoned.None? && st.active.None? && m.Load?
    ensures RequestFits(HandleLoad(st, m.req, m.id, m.gb, m.policy, m.allow, m.order, m.beginIo, m.clearIo))
  {
    if LoadGate(st, m.id, m.gb, m.policy, m.allow).Proceeds? {
      GateProceeds(st, m.id, m.gb, m.policy, m.allow);
      var planned := PlanLoad(st, m.id, m.gb, m.order);
      if planned.Success? {
        AdmitMeetsRequest(st, m, planned.value);
      }
    }
  }

  lemma ReportEndsRequest(st: State, m: Message)
    requires Inv(st) && Enabled(st, m) && (m.LoadReported? || m.UnloadReported?)
    ensures Step(st, m).active.None?
  {
  }

  lemma StepKeepsRequest(st: State, m: Message)
    requires Inv(st) && RequestFits(st) && Enabled(st, m)
    ensures RequestFits(Step(st, m))
  {
    match m
    case Load(_, _, _, _, _, _, _, _) => LoadKeepsRequest(st, m);
    case Unload(_, _) => UnloadKeepsRequest(st, m);
    case LoadReported(_) => ReportEndsRequest(st, m);
    case UnloadReported(_, _) => ReportEndsRequest(st, m);
    case ChatDone(id) => ChatDoneKeepsRequest(st, id);
    case Chat(id, permit) =>
      if LoadActive(st) { assert SlotFits(st, st.active.value.id, st.models[st.active.value.id]); }
    case OtherOwner(_) =>
  }

  lemma UnloadKeepsRequest(st: State, m: Message)
    requires RequestFits(st) && Enabled(st, m) && m.Unload?
    ensures RequestFits(Step(st, m))
  {
    if st.active.Some? { BusyActorOnlyAnswers(st, m); }
  }

  lemma ChatDoneKeepsRequest(st: State, id: string)
    requires Inv(st) && RequestFits(st) && id in st.chats
    ensures RequestFits(HandleChatDone(st, id))
  {
    if LoadActive(st) { assert SlotFits(st, st.active.value.id, st.models[st.active.value.id]); }
  }

  /** When a load is admitted: the slot alone covers the request unless it is set against what was inherited. */
  lemma SlotCoversRequestExactly(st: State, id: string, gb: real, order: seq<string>)
    requires gb >= 0.0 && PlanLoad(st, id, gb, order).Success?
    ensures PlanLoad(st, id, gb, order).value.memoryGb >= gb
            <==> !Inherited(st, id) || EffectiveReservedGb(st, {}) == 0.0 || gb == 0.0
    ensures PlanLoad(st, id, gb, order).value.memoryGb
            + (if Inherited(st, id) then EffectiveReservedGb(st, {}) else 0.0) >= gb
  {
    PlanLoadShape(st, id, gb, order);
  }

  /** The old instance's footprint `p` as an unconfirmed report leaves it. */
  predicate KeepsOldFootprint(slot: ModelSlot, loading: ModelSlot, previous: Option<PreviousModel>, trace: seq<Event>) {
    previous.Some? ==>
      var p := previous.value;
      ChargedFor(slot, p.memoryGb, p.charge) <==> !RetriedForGood(trace) || ChargedFor(loading, p.memoryGb, p.charge)
  }

  /** The request as an unconfirmed report leaves it: covered unless the target was inherited at a lower charge. */
  predicate KeepsRequest(st: State, slot: ModelSlot, loading: ModelSlot, previous: Option<PreviousModel>, gb: real) {
    && (slot.memoryGb >= gb
        <==> !loading.inherited || loading.memoryGb >= gb || (previous.Some? && previous.value.memoryGb >= gb))
    && (!loading.inherited && st.claim.Exact? ==> Units(gb, Up).Success? && slot.charge >= Units(gb, Up).value)
  }

  /**
   * A report that does not follow a successful removal of the marker leaves its
   * slot Error and unconfirmed. It is charged for the old instance exactly unless
   * the flow retried for good with less, and for the request exactly unless the
   * model was inherited and charged only the rest.
   */
  lemma UnconfirmedKeepsBothFootprints(st: State, trace: seq<Event>)
    requires Inv(st) && RequestFits(st) && Enabled(st, LoadReported(trace))
    ensures var ctx := st.task.value.ctx;
            var after := Step(st, LoadReported(trace));
            && ctx.id in st.models && ctx.id in after.models && LoadActive(st)
            && (after.models[ctx.id].loadUnconfirmed <==> !FenceLifted(trace))
            && (after.models[ctx.id].loadUnconfirmed ==>
                  && after.models[ctx.id].state.Error?
                  && KeepsOldFootprint(after.models[ctx.id], st.models[ctx.id], ctx.previous, trace)
                  && KeepsRequest(st, after.models[ctx.id], st.models[ctx.id], ctx.previous,
                                  st.active.value.kind.memoryGb))
  {
    var ctx := st.task.value.ctx;
    var o := Report(ctx, RunFlow(ctx, trace));
    ReportedTarget(st, trace);
    ReportTellsTheFence(ctx, trace);
    if o.result.Failure? && o.failure.RetainUnconfirmedLoad? {
      UnconfirmedKeeps(ctx, trace);
      RetainedFootprints(st, st.models[ctx.id], o.failure, trace);
    }
  }

  lemma RetainedFootprints(st: State, slot: ModelSlot, failure: LoadFailure, trace: seq<Event>)
    requires LoadActive(st) && st.task.Some? && st.task.value.LoadTask?
    requires SlotMeetsRequest(st, slot, st.active.value.kind.memoryGb)
    requires failure.RetainUnconfirmedLoad?
    requires failure.kept == if RetriedForGood(trace) then None else st.task.value.ctx.previous
    requires RetriedForGood(trace) ==> !st.task.value.ctx.inherited
    ensures FailedSlot(slot, failure).state.Error? && FailedSlot(slot, failure).loadUnconfirmed
    ensures KeepsOldFootprint(FailedSlot(slot, failure), slot, st.task.value.ctx.previous, trace)
    ensures KeepsRequest(st, FailedSlot(slot, failure), slot, st.task.value.ctx.previous, st.active.value.kind.memoryGb)
  {
    RetainedFootprint(slot, failure);
  }

  lemma RetainedFootprint(slot: ModelSlot, failure: LoadFailure)
    requires failure.RetainUnconfirmedLoad?
    ensures var after := FailedSlot(slot, failure);
            if failure.kept.None? then after.memoryGb == slot.memoryGb && after.charge == slot.charge
            else
              && after.memoryGb == MaxReal(slot.memoryGb, failure.kept.value.memoryGb)
              && after.charge == L.Max(slot.charge, failure.kept.value.charge)
  {
  }

  // ----------------------------------------------------------------- marker

  /** A running load stands behind a durable marker. */
  predicate MarkerFits(st: State) {
    st.task.Some? && st.task.value.LoadTask? ==> st.marker == Marker(true, true)
  }

  lemma AdmitRaisesMarker(st: State, m: Message, plan: LoadPlan)
    requires m.Load? && st.task.None?
    ensures var after := AdmitLoad(st, m.req, m.id, m.gb, m.policy, m.allow, plan, m.beginIo, m.clearIo);
            && MarkerFits(after)
            && (after.task.Some? ==> !st.marker.visible && after.task.value.LoadTask?)
  {
    var fenced := st.(marker := BeginStep(st.marker, m.beginIo).marker);
    ClaimTouchesOnlyLedger(fenced, plan.plannedGb, plan.plannedCharge, m.allow);
  }

  /** A load task appears only where no marker stood, and then a durable one does. */
  lemma LoadKeepsMarker(st: State, m: Message)
    requires Inv(st) && MarkerFits(st) && Enabled(st, m) && m.Load?
    ensures MarkerFits(Step(st, m))
    ensures Step(st, m).task != st.task
            ==> st.task.None? && !st.marker.visible && Step(st, m).task.Some? && Step(st, m).task.value.LoadTask?
    ensures st.task.Some? ==> Step(st, m).task == st.task && Step(st, m).marker == st.marker
  {
    var asked := st.(asked := st.asked[m.req := LoadRequest(m.id, m.gb, m.policy, m.allow)]);
    if st.active.Some? {
      BusyActorOnlyAnswers(st, m);
    } else if Refusal(st).None? && LoadGate(asked, m.id, m.gb, m.policy, m.allow).Proceeds? {
      var planned := PlanLoad(asked, m.id, m.gb, m.order);
      if planned.Success? {
        AdmitRaisesMarker(asked, m, planned.value);
      }
    }
  }

  lemma ConcludeKeepsSurroundings(st: State, result: Result<(), BackendError>)
    ensures Conclude(st, result).marker == st.marker && Conclude(st, result).task == st.task
  {
    SettleTouchesOnlyLedger(st);
  }

  lemma ReportsEndTheTask(st: State, m: Message)
    requires Inv(st) && Enabled(st, m) && (m.LoadReported? || m.UnloadReported?)
    ensures Step(st, m).task.None?
    ensures Step(st, m).marker == if m.LoadReported? then MarkerAfter(st.marker, m.trace) else st.marker
  {
    if m.LoadReported? {
      var ctx := st.task.value.ctx;
      var o := Report(ctx, RunFlow(ctx, m.trace));
      var ended := st.(marker := MarkerAfter(st.marker, m.trace), task := None);
      ReportFitsContext(ctx, m.trace);
      ReportedAreKnown(st, ctx, o);
      AppliedSlots(ended, ctx.id, o, ctx.id);
      AppliedRecords(ended, ctx.id, o);
      ConcludeKeepsSurroundings(ApplyLoadOutcome(ended, ctx.id, o), o.result);
    } else {
      var id := st.task.value.id;
      ConcludeKeepsSurroundings(ApplyUnloadOutcome(st.(task := None), id, m.outcome), m.outcome.result);
    }
  }

  lemma StepKeepsMarker(st: State, m: Message)
    requires Inv(st) && MarkerFits(st) && Enabled(st, m)
    ensures MarkerFits(Step(st, m))
  {
    if m.Load? {
      LoadKeepsMarker(st, m);
    } else if m.LoadReported? || m.UnloadReported? {
      ReportsEndTheTask(st, m);
    }
  }

  // ------------------------------------------------------------------- runs

  ghost predicate AllInv(st: State) {
    Inv(st) && CapacityInv(st) && RepliesFit(st) && MarkerFits(st) && RequestFits(st)
  }

  lemma StepKeepsAll(st: State, m: Message)
    requires AllInv(st) && Enabled(st, m)
    ensures AllInv(Step(st, m))
  {
    StepKeepsInv(st, m);
    StepKeepsCapacity(st, m);
    StepKeepsReplies(st, m);
    StepKeepsMarker(st, m);
    StepKeepsRequest(st, m);
  }

  /** Messages that can arrive in this order, each finding the actor as the ones before it left it. */
  ghost predicate Possible(st: State, ms: seq<Message>)
    decreases |ms|
  {
    ms == [] || (Enabled(st, ms[0]) && Possible(Step(st, ms[0]), ms[1..]))
  }

  ghost function After(st: State, ms: seq<Message>): State
    requires Possible(st, ms)
    decreases |ms|
  {
    if ms == [] then st else After(Step(st, ms[0]), ms[1..])
  }

  /** The uses of a whole run, message by message. */
  ghost function History(st: State, ms: seq<Message>): seq<Option<string>>
    requires Possible(st, ms)
    decreases |ms|
  {
    if ms == [] then [] else UsesOf(st, ms[0]) + History(Step(st, ms[0]), ms[1..])
  }

  lemma {:induction false} RunKeepsAll(st: State, ms: seq<Message>)
    requires AllInv(st) && Possible(st, ms)
    ensures AllInv(After(st, ms))
    decreases |ms|
  {
    if ms != [] {
      StepKeepsAll(st, ms[0]);
      RunKeepsAll(Step(st, ms[0]), ms[1..]);
    }
  }

  /** In every run the stamps on the slots are the history its messages make. */
  lemma {:induction false} RunFollowsHistory(st: State, ms: seq<Message>, uses: seq<Option<string>>)
    requires AllInv(st) && Possible(st, ms) && UsesFit(st, uses)
    ensures UsesFit(After(st, ms), uses + History(st, ms))
    decreases |ms|
  {
    if ms == [] {
      NothingAdded(uses);
    } else {
      StepKeepsAll(st, ms[0]);
      StepKeepsUses(st, ms[0], uses);
      RunFollowsHistory(Step(st, ms[0]), ms[1..], uses + UsesOf(st, ms[0]));
      AddedInTurn(uses, UsesOf(st, ms[0]), History(Step(st, ms[0]), ms[1..]));
    }
  }

  lemma NothingAdded(uses: seq<Option<string>>)
    ensures uses + [] == uses == [] + uses
  {
  }

  lemma AddedInTurn(a: seq<Option<string>>, b: seq<Option<string>>, c: seq<Option<string>>)
    ensures (a + b) + c == a + (b + c)
  {
  }

  /** For the rest of the run, whatever is asked: the slot stays as it was marked. */
  lemma {:induction false} UnconfirmedForever(st: State, ms: seq<Message>, k: string)
    requires AllInv(st) && Possible(st, ms) && k in st.models && st.models[k].loadUnconfirmed
    ensures k in After(st, ms).models && After(st, ms).models[k] == st.models[k]
    ensures !MayBeUnloaded(After(st, ms), k)
    decreases |ms|
  {
    if ms == [] {
      assert st.poisoned.None? ==> SlotFits(st, k, st.models[k]);
    } else {
      StepKeepsAll(st, ms[0]);
      StepKeepsUnconfirmed(st, ms[0], k);
      UnconfirmedForever(Step(st, ms[0]), ms[1..], k);
    }
  }

  // ---------------------------------------------------------------- startup

  lemma {:induction false} DistinctFacts(ids: seq<string>)
    ensures forall k :: k in Distinct(ids) <==> k in ids
    ensures AtMostOnce(Distinct(ids))
    decreases |ids|
  {
    if ids != [] {
      var before, last := ids[..|ids| - 1], ids[|ids| - 1];
      DistinctFacts(before);
      assert ids == before + [last];
      var rest := Distinct(before);
      if last !in rest {
        assert multiset(rest + [last]) == multiset(rest) + multiset{last};
        assert multiset(rest)[last] == 0;
      }
    }
  }

  lemma {:induction false} NothingIsCharged(keys: seq<string>, models: Models)
    requires forall k :: k in models ==> models[k].charge == 0 && models[k].memoryGb == 0.0
    ensures OccupiedCharge(keys, models, {}) == 0 && OccupiedGb(keys, models, {}) == 0.0
    ensures CoveredCharge(keys, models, map[]) == Success(0) && CoveredGb(keys, models, map[], {}) == 0.0
  {
    if keys != [] { NothingIsCharged(keys[1..], models); }
  }

  lemma StartupClaimFits(st: State, tracking: Tracking, gb: real)
    requires L.Valid(st.ledger) && st.claim.Untracked? && !L.IsBlank(st.settings.ledgerKey)
    ensures var (claimed, error) := StartupClaim(st, tracking, gb);
            && OnlyLedger(st, claimed) && EntryFits(claimed)
            && (error.None? ==>
                  match tracking
                  case NoLedger => claimed.claim.Untracked?
                  case ByEstimate => claimed.claim == Legacy(gb)
                  case ByExactBytes => claimed.claim.Exact? && Units(gb, Up) == Success(claimed.claim.units))
  {
    L.StepIsSafe(st.ledger, L.AdoptObserved(st.settings.ledgerKey, None, gb));
  }

  lemma StartupCovers(st: State)
    requires st.covered == map[] && !AnyUnconfirmed(st)
    requires forall k :: k in st.models ==> st.models[k] == INHERITED_SLOT
    requires st.reservedGb >= 0.0
    requires st.claim.Exact? ==> Units(st.reservedGb, Up) == Success(st.claim.units)
    requires st.claim.Legacy? ==> st.claim.gb == st.reservedGb
    ensures ClaimCovers(st)
  {
    NothingIsCharged(st.keys, st.models);
  }

  lemma SampledStartup(settings: Settings, ledger: L.Ledger, marker: Marker, tracking: Tracking,
                       fenceError: Option<BackendError>, status: BackendStatus)
    requires settings.budgetGb >= 0.0 && !L.IsBlank(settings.ledgerKey) && L.Valid(ledger)
    requires ValidSample(status)
    ensures var st := Startup(settings, ledger, marker, tracking, fenceError, Success(status));
            Inv(st) && CapacityInv(st)
  {
    var st := Startup(settings, ledger, marker, tracking, fenceError, Success(status));
    var blank := Blank(settings, ledger, marker);
    StartupClaimFits(blank, tracking, status.usedGb);
    var (claimed, error) := StartupClaim(blank, tracking, status.usedGb);
    assert st.ledger == claimed.ledger && st.claim == claimed.claim && st.settings == settings;
    DistinctFacts(status.loaded);
    KeysEnumerate(st.keys, st.models);
    if st.startupError.None? { StartupCovers(st); }
  }

  lemma BlindStartup(settings: Settings, ledger: L.Ledger, marker: Marker, tracking: Tracking,
                     fenceError: Option<BackendError>, e: BackendError)
    requires settings.budgetGb >= 0.0 && !L.IsBlank(settings.ledgerKey) && L.Valid(ledger)
    ensures var st := StartupUnknown(Blank(settings, ledger, marker), tracking, fenceError, e);
            Inv(st) && CapacityInv(st) && st.startupError.Some?
  {
    StartupClaimFits(Blank(settings, ledger, marker), tracking, ledger.config.budgetGb);
    KeysEnumerate([], map[]);
  }

  lemma StartupShape(settings: Settings, ledger: L.Ledger, marker: Marker, tracking: Tracking,
                     fenceError: Option<BackendError>, sample: Result<BackendStatus, BackendError>)
    requires !L.IsBlank(settings.ledgerKey) && L.Valid(ledger)
    ensures var st := Startup(settings, ledger, marker, tracking, fenceError, sample);
            && st.replies == [] && st.active.None? && st.asked == map[] && st.nextSeq == 0
            && st.task.None? && st.poisoned.None? && st.marker == marker
            && (fenceError.Some? ==> st.startupError.Some?)
            && forall k :: k in st.models ==> st.models[k] == INHERITED_SLOT
  {
    var gb := if sample.Success? && ValidSample(sample.value) then sample.value.usedGb else ledger.config.budgetGb;
    StartupClaimFits(Blank(settings, ledger, marker), tracking, gb);
  }

  /** Every startup, with or without a usable sample, begins inside the invariants. */
  lemma StartupEstablishesAll(settings: Settings, ledger: L.Ledger, marker: Marker, tracking: Tracking,
                              fenceError: Option<BackendError>, sample: Result<BackendStatus, BackendError>)
    requires settings.budgetGb >= 0.0 && !L.IsBlank(settings.ledgerKey) && L.Valid(ledger)
    ensures AllInv(Startup(settings, ledger, marker, tracking, fenceError, sample))
    ensures UsesFit(Startup(settings, ledger, marker, tracking, fenceError, sample), [])
  {
    StartupShape(settings, ledger, marker, tracking, fenceError, sample);
    StartupRecords(Startup(settings, ledger, marker, tracking, fenceError, sample));
    if sample.Failure? {
      BlindStartup(settings, ledger, marker, tracking, fenceError, sample.error);
    } else if ValidSample(sample.value) {
      SampledStartup(settings, ledger, marker, tracking, fenceError, sample.value);
    } else {
      BlindStartup(settings, ledger, marker, tracking, fenceError, Internal);
    }
  }

  /** A sample that makes sense: nothing negative, and nothing loaded without memory. */
  predicate Usable(sample: Result<BackendStatus, BackendError>) {
    sample.Success? && sample.value.usedGb >= 0.0 && (sample.value.usedGb == 0.0 ==> sample.value.loaded == [])
  }

  /** What an actor takes over from a sample: the aggregate, and each model as an error that cannot be evicted. */
  ghost predicate TakesOver(st: State, status: BackendStatus) {
    && st.reservedGb == status.usedGb && AccountedGb(st) == status.usedGb
    && forall k :: (k in st.models <==> k in status.loaded)
                   && (k in st.models ==>
                         st.models[k].inherited && st.models[k].memoryGb == 0.0 && !Evictable(st.models[k])
                         && st.models[k].state.Error? && !st.models[k].loadUnconfirmed
                         && st.models[k].policy == LoadPolicy(OnDemand, Pinned(true), Coexist))
  }

  /** The ledger's entry at startup: what was found, or the whole budget if that is unknown. */
  lemma StartupIsCharged(blank: State, tracking: Tracking, gb: real)
    requires L.Valid(blank.ledger) && blank.claim.Untracked?
    ensures var (claimed, error) := StartupClaim(blank, tracking, gb);
            && OnlyLedger(blank, claimed)
            && if tracking.NoLedger? then claimed.ledger == blank.ledger && error.None?
               else error.None? ==> L.HoldsEstimate(L.Lookup(claimed.ledger.allocations, blank.settings.ledgerKey), gb)
  {
  }

  /** An actor takes commands only after a usable sample, which it then has taken over. */
  lemma StartupIsFaithful(settings: Settings, ledger: L.Ledger, marker: Marker, tracking: Tracking,
                          fenceError: Option<BackendError>, sample: Result<BackendStatus, BackendError>)
    requires L.Valid(ledger)
    ensures var st := Startup(settings, ledger, marker, tracking, fenceError, sample);
            && (st.startupError.None? ==> Usable(sample) && fenceError.None?)
            && (Usable(sample) && fenceError.None? && tracking.NoLedger? ==> st.startupError.None?)
            && (if Usable(sample) then TakesOver(st, sample.value) else st.models == map[] && st.reservedGb == 0.0)
  {
    var gb := if Usable(sample) then sample.value.usedGb else ledger.config.budgetGb;
    StartupIsCharged(Blank(settings, ledger, marker), tracking, gb);
    if Usable(sample) {
      TakenOver(Startup(settings, ledger, marker, tracking, fenceError, sample), sample.value);
    }
  }

  lemma TakenOver(st: State, status: BackendStatus)
    requires st.reservedGb == status.usedGb >= 0.0 && st.covered == map[]
    requires st.models == map k | k in status.loaded :: INHERITED_SLOT
    ensures TakesOver(st, status)
  {
    NothingIsCharged(st.keys, st.models);
    NothingIsOccupied(st.keys, st.models);
  }

  lemma {:induction false} NothingIsOccupied(keys: seq<string>, models: Models)
    requires forall k :: k in models ==> models[k].memoryGb == 0.0
    ensures OccupiedGb(keys, models, {}) == 0.0
  {
    if keys != [] { NothingIsOccupied(keys[1..], models); }
  }

  lemma KeysEnumerate(keys: seq<string>, models: Models)
    requires AtMostOnce(keys) && forall k :: k in keys <==> k in models
    ensures Enumerates(keys, models)
  {
    forall x ensures multiset(keys)[x] == multiset(models.Keys)[x] {
      assert x in keys <==> x in multiset(keys);
    }
  }

  lemma StartupRecords(st: State)
    requires st.replies == [] && st.active.None? && st.asked == map[] && st.nextSeq == 0
    requires forall k :: k in st.models ==> st.models[k].lastUsedSeq == 0
    ensures RepliesFit(st) && UsesFit(st, [])
  {
    assert multiset(ReqIds(st.replies)) == multiset{};
  }

  /** The theorem over whole runs. */
  lemma EveryRunKeepsAll(settings: Settings, ledger: L.Ledger, marker: Marker, tracking: Tracking,
                         fenceError: Option<BackendError>, sample: Result<BackendStatus, BackendError>,
                         ms: seq<Message>)
    requires settings.budgetGb >= 0.0 && !L.IsBlank(settings.ledgerKey) && L.Valid(ledger)
    requires Possible(Startup(settings, ledger, marker, tracking, fenceError, sample), ms)
    ensures var start := Startup(settings, ledger, marker, tracking, fenceError, sample);
            var st := After(start, ms);
            && AllInv(st) && UsesFit(st, History(start, ms))
            && st.poisoned != Some(LostEntry) && st.poisoned != Some(NoActiveOp)
  {
    StartupEstablishesAll(settings, ledger, marker, tracking, fenceError, sample);
    var start := Startup(settings, ledger, marker, tracking, fenceError, sample);
    RunKeepsAll(start, ms);
    RunFollowsHistory(start, ms, []);
    NothingAdded(History(start, ms));
  }
}
