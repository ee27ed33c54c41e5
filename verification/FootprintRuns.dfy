/**
 * Two runs from a startup after which an unconfirmed load is charged less than one
 * might expect: for the request alone, though the instance it replaced was larger;
 * and for less than the request, because residency was there before the actor was.
 */
module FootprintRuns {
  import opened Wrappers
  import opened Backend
  import opened LoadPolicies
  import opened Eviction
  import opened LoadFences
  import opened LoadFlow
  import opened Actor
  import opened ActorHistory
  import opened ActorAdmission
  import opened ExampleRuns
  import L = CapacityLedger

  // ------------------------------------------------- a retry with less memory

  const OTHER_POLICY := LoadPolicy(Resident, Pinned(false), Coexist)
  const LOAD_8 := Load(0, "m", 8.0, OTHER_POLICY, true, [], Begins, Clears)
  const LOAD_2 := Load(1, "m", 2.0, ANY_POLICY, true, ["m"], Begins, Clears)
  const READY_TRACE := [
    LoadIssued("m", OTHER_POLICY), LoadAnswered("m", Ok(())), Probed("m", Ok(true)), FenceCleared(Clears)]
  /** Out of memory, seen gone, tried again, timed out. */
  const RETRY_TRACE := [
    LoadIssued("m", ANY_POLICY), LoadAnswered("m", Err(Oom)), Sampled(Ok(BackendStatus(0.0, []))),
    LoadIssued("m", ANY_POLICY), LoadAnswered("m", Err(AdapterTimedOut)), Unloaded("m", Err(AdapterTimedOut))]

  lemma ReadyTraceRuns(c: FlowContext)
    requires c.id == "m" && c.policy == OTHER_POLICY && c.victims == [] && !c.inherited && c.probeAttempts == 1
    ensures RunFlow(c, READY_TRACE) == FlowState(Done(Success(()), Settle(Error)), [], None, false)
  {
    var t := READY_TRACE;
    assert t[..0] == [];
    RunFlowPrefix(c, t, 0);
    RunFlowPrefix(c, t, 1);
    assert RunFlow(c, t[..2]) == FlowState(Probing(1), [], None, false);
    RunFlowPrefix(c, t, 2);
    RunFlowPrefix(c, t, 3);
    assert t[..4] == t;
  }

  lemma RetryTraceRuns(c: FlowContext)
    requires c.id == "m" && c.policy == ANY_POLICY && c.victims == [] && !c.inherited
    requires c.targetAbsentGb >= 0.0 && c.releaseAttempts == 1
    ensures RunFlow(c, RETRY_TRACE)
            == FlowState(Done(Failure(AdapterTimedOut), RetainUnconfirmedLoad(None)), [],
                         Some(BackendStatus(0.0, [])), true)
  {
    var t := RETRY_TRACE;
    assert t[..0] == [];
    RunFlowPrefix(c, t, 0);
    assert RunFlow(c, t[..1]) == FlowState(AwaitingLoad, [], None, false);
    RunFlowPrefix(c, t, 1);
    assert RunFlow(c, t[..2]) == FlowState(Confirming(OfOomTarget, 1), [], None, false);
    RunFlowPrefix(c, t, 2);
    assert RunFlow(c, t[..3]) == FlowState(ReadyToLoad, [], Some(BackendStatus(0.0, [])), true);
    RunFlowPrefix(c, t, 3);
    RunFlowPrefix(c, t, 4);
    assert RunFlow(c, t[..5])
           == FlowState(CleaningUp(AdapterTimedOut, true), [], Some(BackendStatus(0.0, [])), true);
    RunFlowPrefix(c, t, 5);
    assert t[..6] == t;
  }

  /** One model without residency behind it, at rest or loading. */
  predicate OneModel(st: State, slot: ModelSlot) {
    && st.settings == SETTINGS && st.keys == ["m"] && st.models == map["m" := slot]
    && st.nextSeq == slot.lastUsedSeq && st.reservedGb == 0.0 && st.covered == map[] && st.claim.Untracked?
    && st.poisoned.None? && st.startupError.None?
  }

  predicate LoadOfModel(st: State, policy: LoadPolicy, previous: Option<PreviousModel>) {
    && st.marker == Marker(true, true) && st.active.Some? && st.active.value.id == "m"
    && st.task.Some? && st.task.value.LoadTask?
    && var ctx := st.task.value.ctx;
       ctx.id == "m" && ctx.policy == policy && ctx.victims == [] && ctx.previous == previous
       && ctx.targetAbsentGb >= 0.0 && ctx.releaseAttempts == 1 && ctx.probeAttempts == 1
       && ctx.inherited == (previous.Some? && previous.value.inherited)
  }

  predicate AtRest(st: State) { st.marker == Marker(false, false) && st.active.None? && st.task.None? }

  const LOADING_8 := ModelSlot(8.0, 0, Loading, 0, OTHER_POLICY, 0, false, false)
  const READY_8 := LOADING_8.(state := Ready, lastUsedSeq := 1)
  const LOADING_2 := ModelSlot(2.0, 0, Loading, 1, ANY_POLICY, 0, false, false)

  lemma LoadOf8Starts(ledger: L.Ledger)
    ensures var start := Fresh(ledger, EMPTY);
            && Enabled(start, LOAD_8)
            && OneModel(Step(start, LOAD_8), LOADING_8) && LoadOfModel(Step(start, LOAD_8), OTHER_POLICY, None)
            && Step(start, LOAD_8).asked.Keys == {0}
  {
    FreshIsBlank(ledger);
    var start := Fresh(ledger, EMPTY);
    NobodyToEvict(100.0, "m", 8.0);
    FittingLoad(start, LOAD_8);
    OnlyTheTarget("m", Step(start, LOAD_8).models, map[], {"m"} + SetOf([]));
  }

  lemma LoadOf8Reports(st: State)
    requires OneModel(st, LOADING_8) && LoadOfModel(st, OTHER_POLICY, None)
    ensures Enabled(st, LoadReported(READY_TRACE))
    ensures var after := Step(st, LoadReported(READY_TRACE));
            OneModel(after, READY_8) && AtRest(after) && after.asked == st.asked
  {
    ReadyTraceRuns(st.task.value.ctx);
    ReportedLoad(st, READY_TRACE);
  }

  lemma LoadOf2Starts(st: State)
    requires OneModel(st, READY_8) && AtRest(st) && st.asked.Keys == {0}
    ensures Enabled(st, LOAD_2)
    ensures OneModel(Step(st, LOAD_2), LOADING_2)
    ensures LoadOfModel(Step(st, LOAD_2), ANY_POLICY, Some(PreviousModel(Ready, OTHER_POLICY, 8.0, 0, false)))
  {
    OnlyTheTarget("m", st.models, st.covered, {});
    NobodyToEvict(100.0, "m", 2.0);
    FittingLoad(st, LOAD_2);
    OnlyTheTarget("m", Step(st, LOAD_2).models, map[], {"m"} + SetOf([]));
  }

  lemma OnlySlot(models: Models, was: ModelSlot, slot: ModelSlot)
    requires models == map["m" := was]
    ensures models["m" := slot] == map["m" := slot]
  {
  }

  lemma LoadOf2TimesOut(st: State, previous: Option<PreviousModel>)
    requires OneModel(st, LOADING_2) && LoadOfModel(st, ANY_POLICY, previous)
    requires previous.Some? ==> !previous.value.inherited
    ensures Enabled(st, LoadReported(RETRY_TRACE))
    ensures Step(st, LoadReported(RETRY_TRACE)).models
            == map["m" := LOADING_2.(state := Error, loadUnconfirmed := true)]
  {
    RetryTraceRuns(st.task.value.ctx);
    FailedLoad(st, RETRY_TRACE);
    OnlySlot(st.models, LOADING_2, LOADING_2.(state := Error, loadUnconfirmed := true));
  }

  /** A run on which the old footprint is given up: ready at 8 GB, then unconfirmed and charged the 2 GB asked for. */
  lemma RetryGivesUpOldFootprint(ledger: L.Ledger)
    ensures var start := Fresh(ledger, EMPTY);
            var ready := [LOAD_8, LoadReported(READY_TRACE)];
            var run := ready + [LOAD_2, LoadReported(RETRY_TRACE)];
            && Possible(start, ready) && After(start, ready).models == map["m" := READY_8]
            && Possible(start, run)
            && After(start, run).models == map["m" := LOADING_2.(state := Error, loadUnconfirmed := true)]
  {
    var start := Fresh(ledger, EMPTY);
    LoadOf8Starts(ledger);
    var one := Step(start, LOAD_8);
    LoadOf8Reports(one);
    var two := Step(one, LoadReported(READY_TRACE));
    LoadOf2Starts(two);
    LoadOf2TimesOut(Step(two, LOAD_2), Some(PreviousModel(Ready, OTHER_POLICY, 8.0, 0, false)));
    var ready := [LOAD_8, LoadReported(READY_TRACE)];
    FirstTwo(start, LOAD_8, LoadReported(READY_TRACE));
    TwoMore(start, ready, LOAD_2, LoadReported(RETRY_TRACE));
  }

  // ------------------------------------------------------- an inherited model

  const FOUND := BackendStatus(8.0, ["m"])
  const LOAD_10 := Load(0, "m", 10.0, ANY_POLICY, true, ["m"], Begins, Clears)
  const INHERITED_TRACE := [
    Sampled(Ok(FOUND)), Probed("m", Ok(true)), LoadIssued("m", ANY_POLICY),
    LoadAnswered("m", Err(AdapterTimedOut)), Unloaded("m", Err(AdapterTimedOut))]
  const FOUND_INSTANCE := PreviousModel(Error, INHERITED_SLOT.policy, 0.0, 0, true)
  const LOADING_REST := ModelSlot(2.0, 0, Loading, 0, ANY_POLICY, 0, false, true)

  lemma InheritedTraceRuns(c: FlowContext)
    requires c.id == "m" && c.policy == ANY_POLICY && c.victims == [] && c.inherited
    requires c.previous == Some(FOUND_INSTANCE) && c.afterEvictionGb == 8.0
    ensures RunFlow(c, INHERITED_TRACE)
            == FlowState(Done(Failure(AdapterTimedOut), RetainUnconfirmedLoad(Some(FOUND_INSTANCE))), [], None, false)
  {
    var t := INHERITED_TRACE;
    assert t[..0] == [];
    RunFlowPrefix(c, t, 0);
    assert RunFlow(c, t[..1]) == FlowState(InheritedProbe, [], None, false);
    RunFlowPrefix(c, t, 1);
    assert RunFlow(c, t[..2]) == FlowState(ReadyToLoad, [], None, false);
    RunFlowPrefix(c, t, 2);
    RunFlowPrefix(c, t, 3);
    assert RunFlow(c, t[..4]) == FlowState(CleaningUp(AdapterTimedOut, true), [], None, false);
    RunFlowPrefix(c, t, 4);
    assert t[..5] == t;
  }

  lemma FoundModel(ledger: L.Ledger)
    ensures Fresh(ledger, FOUND)
            == Blank(SETTINGS, ledger, Marker(false, false)).(
                 reservedGb := 8.0, keys := ["m"], models := map["m" := INHERITED_SLOT])
  {
    assert Distinct([]) == [] && Distinct(["m"]) == ["m"];
    assert (map k | k in ["m"] :: INHERITED_SLOT) == map["m" := INHERITED_SLOT];
  }

  predicate JustFound(st: State) {
    && st.settings == SETTINGS && st.keys == ["m"] && st.models == map["m" := INHERITED_SLOT]
    && st.reservedGb == 8.0 && st.covered == map[] && st.claim.Untracked? && st.poisoned.None?
  }

  lemma RestFits(st: State)
    requires JustFound(st)
    ensures EffectiveReservedGb(st, {}) == 8.0 && RequestGb(st, "m", 10.0) == 2.0
    ensures PlanEviction(RequestSnapshot(st, "m", ["m"]), ModelReq("m", 2.0)) == Success(NotNeeded)
  {
    OnlyTheTarget("m", st.models, st.covered, {});
    NobodyToEvict(92.0, "m", 2.0);
  }

  lemma RestInstalled(st: State, plan: LoadPlan)
    requires JustFound(st) && st.marker == Marker(true, true)
    requires plan.victims == [] && plan.memoryGb == 2.0 && plan.charge == 0
    ensures var after := Install(st, 0, "m", 10.0, ANY_POLICY, true, plan);
            && after.models == map["m" := LOADING_REST] && after.claim.Untracked? && after.poisoned.None?
            && LoadOfModel(after, ANY_POLICY, Some(FOUND_INSTANCE)) && after.task.value.ctx.afterEvictionGb == 8.0
  {
    var after := Install(st, 0, "m", 10.0, ANY_POLICY, true, plan);
    OnlyTheTarget("m", after.models, map[], {"m"} + SetOf([]));
    OnlyTheTarget("m", after.models, map[], {});
  }

  lemma RestStarts(st: State)
    requires JustFound(st) && AtRest(st) && st.startupError.None? && st.asked == map[]
    ensures var after := Step(st, LOAD_10);
            && after.models == map["m" := LOADING_REST] && after.claim.Untracked? && after.poisoned.None?
            && LoadOfModel(after, ANY_POLICY, Some(FOUND_INSTANCE)) && after.task.value.ctx.afterEvictionGb == 8.0
  {
    RestFits(st);
    FittingLoad(st, LOAD_10);
    var plannedGb := 10.0 + OccupiedGb(st.keys, st.models, {"m"} + SetOf([]));
    RestInstalled(Asked(st, LOAD_10).(marker := Marker(true, true)), LoadPlan([], 2.0, 0, plannedGb, None));
  }

  lemma LoadOfFoundStarts(ledger: L.Ledger)
    ensures var start := Fresh(ledger, FOUND);
            var after := Step(start, LOAD_10);
            && Enabled(start, LOAD_10)
            && after.models == map["m" := LOADING_REST] && after.claim.Untracked? && after.poisoned.None?
            && LoadOfModel(after, ANY_POLICY, Some(FOUND_INSTANCE)) && after.task.value.ctx.afterEvictionGb == 8.0
  {
    FoundModel(ledger);
    RestStarts(Fresh(ledger, FOUND));
  }

  lemma LoadOfFoundTimesOut(st: State)
    requires st.models == map["m" := LOADING_REST] && st.claim.Untracked? && st.poisoned.None?
    requires LoadOfModel(st, ANY_POLICY, Some(FOUND_INSTANCE)) && st.task.value.ctx.afterEvictionGb == 8.0
    ensures Enabled(st, LoadReported(INHERITED_TRACE))
    ensures var slot := LOADING_REST.(state := Error, loadUnconfirmed := true, policy := INHERITED_SLOT.policy);
            Step(st, LoadReported(INHERITED_TRACE)).models == map["m" := slot]
  {
    InheritedTraceRuns(st.task.value.ctx);
    FailedLoad(st, INHERITED_TRACE);
  }

  /** A run on which a load is charged less than it asked for: 10 GB of a model found in an 8 GB engine. */
  lemma InheritedRequestIsChargedTheRest(ledger: L.Ledger)
    ensures var start := Fresh(ledger, FOUND);
            && Enabled(start, LOAD_10) && Step(start, LOAD_10).models == map["m" := LOADING_REST]
            && Possible(start, [LOAD_10, LoadReported(INHERITED_TRACE)])
            && var slot := LOADING_REST.(state := Error, loadUnconfirmed := true, policy := INHERITED_SLOT.policy);
               After(start, [LOAD_10, LoadReported(INHERITED_TRACE)]).models == map["m" := slot]
  {
    LoadOfFoundStarts(ledger);
    LoadOfFoundTimesOut(Step(Fresh(ledger, FOUND), LOAD_10));
    FirstTwo(Fresh(ledger, FOUND), LOAD_10, LoadReported(INHERITED_TRACE));
  }
}
