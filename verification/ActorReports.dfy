/**
 * What a finished operation leaves behind, slot by slot: an unload, the victims of
 * a load, and the target of a load from before its admission to after its report.
 */
module ActorReports {
  import opened Wrappers
  import opened Backend
  import opened Eviction
  import opened LoadFences
  import opened LoadFlow
  import opened LoadFlowFacts
  import opened LoadTasks
  import opened LoadVerdict
  import opened Actor
  import opened ActorInvariant
  import opened ActorRuns
  import opened ActorHistory
  import opened ActorCapacity
  import opened ActorCredits
  import opened ActorAdmission

  // ----------------------------------------------------------------- unload

  /** The model was unloaded and a sample without it followed. */
  predicate UnloadProved(trace: seq<Event>, id: string, maxUsedGb: real) {
    && trace != [] && trace[0] == Unloaded(id, Ok(()))
    && var last := trace[|trace| - 1];
       last.Sampled? && last.status.Ok? && id !in last.status.value.loaded
       && 0.0 <= last.status.value.usedGb <= maxUsedGb + 0.000001
       && (last.status.value.usedGb == 0.0 ==> last.status.value.loaded == [])
  }

  /** How an unload that is not proved went wrong. */
  function UnloadTrouble(trace: seq<Event>): BackendError
    requires trace != [] && trace[0].Unloaded?
  {
    match trace[0].done
    case Err(e) => e
    case Panicked => AdapterPanicked
    case Ok(_) =>
      var last := trace[|trace| - 1];
      if last.Sampled? && last.status.Panicked? then AdapterPanicked else Internal
  }

  /** The task reports what its calls showed, and nothing better. */
  lemma UnloadRunProves(trace: seq<Event>, id: string, maxUsedGb: real, attempts: nat, o: UnloadOutcome)
    requires IsUnloadRun(trace, id, maxUsedGb, attempts, o)
    ensures o.result == if UnloadProved(trace, id, maxUsedGb) then Success(()) else Failure(UnloadTrouble(trace))
    ensures o.status == if o.result.Success? then Some(trace[|trace| - 1].status.value) else None
  {
    if trace[0].done.Ok? {
      assert trace[0].done.value == ();
      var polls := trace[1..];
      if polls != [] { assert polls[|polls| - 1] == trace[|trace| - 1]; }
    }
    if o.result.Success? {
      assert o.result.value == ();
    }
  }

  /**
   * An unload leaves its model Stopped and uncharged exactly when the engine showed it
   * gone; otherwise the model is an error that keeps its whole charge. No other slot changes.
   */
  lemma UnloadReportSettles(st: State, m: Message)
    requires Inv(st) && Enabled(st, m) && m.UnloadReported?
    ensures var UnloadTask(id, maxUsedGb) := st.task.value;
            var after := Step(st, m);
            && id in st.models && after.models.Keys == st.models.Keys
            && after.models[id] == (if UnloadProved(m.trace, id, maxUsedGb) then
                                      st.models[id].(state := Stopped, inherited := false)
                                    else st.models[id].(state := Error))
            && (forall k :: k in st.models && k != id ==> after.models[k] == st.models[k])
            && after.reservedGb == if UnloadProved(m.trace, id,
                                                   maxUsedGb) then m.trace[|m.trace| - 1].status.value.usedGb
                                   else st.reservedGb
  {
    var UnloadTask(id, maxUsedGb) := st.task.value;
    UnloadRunProves(m.trace, id, maxUsedGb, st.settings.releaseAttempts, m.outcome);
    UnloadReportAggregate(st, m);
    UnloadApplied(st.(task := None), id, m.outcome);
  }

  lemma UnloadApplied(st: State, id: string, o: UnloadOutcome)
    requires id in st.models && (o.result.Success? <==> o.status.Some?)
    ensures var after := ApplyUnloadOutcome(st, id, o);
            && after.models.Keys == st.models.Keys
            && after.models[id] == (if o.result.Success? then st.models[id].(state := Stopped, inherited := false)
                                    else st.models[id].(state := Error))
            && (forall k :: k in st.models && k != id ==> after.models[k] == st.models[k])
            && after.reservedGb == if o.status.Some? then o.status.value.usedGb else st.reservedGb
  {
  }

  // --------------------------------------------------------- victims of a load

  /** A victim is gone when its own unload succeeded and a sample then showed the victims gone. */
  predicate VictimReleased(seen: Seen, v: string) {
    !seen.panicked && seen.victimsGone && VictimResult(v, Success(())) in seen.unloads
  }

  lemma JudgedGone(ctx: FlowContext, seen: Seen, v: string)
    requires v in ctx.victims
    ensures ReportedGone(Judged(ctx, seen).victimResults, v) <==> VictimReleased(seen, v)
  {
    var results := Judged(ctx, seen).victimResults;
    if ReportedGone(results, v) {
      var r :| r in results && r.id == v && r.result.Success?;
      assert r.result.value == ();
    }
    if VictimReleased(seen, v) {
      assert VictimResult(v, Success(())).result.Success?;
      assert VictimResult(v, Success(())) in results;
    }
  }

  lemma ReportedGoneExactly(ctx: FlowContext, trace: seq<Event>, v: string)
    requires WellFormed(ctx) && Finished(RunFlow(ctx, trace)) && v in ctx.victims
    ensures ReportedGone(Report(ctx, RunFlow(ctx, trace)).victimResults, v) <==> VictimReleased(Read(ctx, trace), v)
  {
    ReportIsJudged(ctx, trace);
    JudgedGone(ctx, Read(ctx, trace), v);
  }

  /** A load that reports leaves each victim Stopped if it was released, an error if not, and spares the rest. */
  lemma VictimsSettle(st: State, trace: seq<Event>, k: string)
    requires Inv(st) && Enabled(st, LoadReported(trace)) && k in st.models && k != st.task.value.ctx.id
    ensures var ctx := st.task.value.ctx;
            var after := Step(st, LoadReported(trace));
            && k in after.models
            && after.models[k] == if k !in ctx.victims then st.models[k]
                                  else if VictimReleased(Read(ctx, trace), k) then st.models[k].(state := Stopped)
                                  else st.models[k].(state := Error)
  {
    var ctx := st.task.value.ctx;
    var o := Report(ctx, RunFlow(ctx, trace));
    assert SlotFits(st, k, st.models[k]);
    ReportedModels(st, trace);
    ReportedExactlyVictims(ctx, o, k);
    AppliedSlots(st.(marker := MarkerAfter(st.marker, trace), task := None), ctx.id, o, k);
    if k in ctx.victims {
      ReportedGoneExactly(ctx, trace, k);
    }
  }

  /** A victim that ends Stopped was missing from a sample the engine gave. */
  lemma StoppedVictimWasGone(st: State, trace: seq<Event>, v: string)
    requires Inv(st) && Enabled(st, LoadReported(trace)) && v in st.task.value.ctx.victims && v in st.models
    requires v in Step(st, LoadReported(trace)).models && Step(st, LoadReported(trace)).models[v].state.Stopped?
    ensures exists i :: 0 <= i < |trace| && trace[i].Sampled? && trace[i].status.Ok?
                        && v !in trace[i].status.value.loaded
  {
    assert v != st.task.value.ctx.id by { assert TaskFits(st); }
    VictimsSettle(st, trace, v);
    GoneWasSeen(st.task.value.ctx, trace, v);
  }

  // --------------------------------------------------------- target of a load

  /** Everything but a load's own report leaves the slot being loaded and its task alone. */
  lemma LoadingStep(st: State, m: Message)
    requires Inv(st) && LoadActive(st) && Enabled(st, m) && !m.LoadReported?
    ensures var id := st.active.value.id;
            var after := Step(st, m);
            && LoadActive(after) && after.active.value.id == id && after.task == st.task
            && id in st.models && id in after.models && after.models[id] == st.models[id]
  {
    var id := st.active.value.id;
    assert SlotFits(st, id, st.models[id]);
    if m.Load? || m.Unload? {
      BusyActorOnlyAnswers(st, m);
    }
  }

  ghost predicate BeforeReport(ms: seq<Message>) { forall m :: m in ms ==> !m.LoadReported? }

  lemma {:induction false} LoadingStands(st: State, ms: seq<Message>)
    requires Inv(st) && LoadActive(st) && Possible(st, ms) && BeforeReport(ms)
    ensures var id := st.active.value.id;
            var after := After(st, ms);
            && Inv(after) && LoadActive(after) && after.active.value.id == id && after.task == st.task
            && id in st.models && id in after.models && after.models[id] == st.models[id]
    decreases |ms|
  {
    if ms != [] {
      LoadingStep(st, ms[0]);
      StepKeepsInv(st, ms[0]);
      LoadingStands(Step(st, ms[0]), ms[1..]);
    } else {
      assert SlotFits(st, st.active.value.id, st.models[st.active.value.id]);
    }
  }

  /** What stood in the slot before, if it was charged at all. */
  function Former(st: State, id: string): Option<PreviousModel> {
    if id !in st.models || st.models[id].state.Stopped? || st.models[id].state.Launching? then None
    else
      var was := st.models[id];
      Some(PreviousModel(was.state, was.policy, was.memoryGb, was.charge, was.inherited))
  }

  function LoadingSlot(st: State, m: Message, plan: LoadPlan): ModelSlot
    requires m.Load?
  {
    ModelSlot(plan.memoryGb, plan.charge, Loading, if m.id in st.models then st.models[m.id].lastUsedSeq else 0,
              m.policy, 0, false, m.id in st.models && st.models[m.id].inherited)
  }

  lemma AdmittedOrNot(st: State, m: Message, plan: LoadPlan)
    requires m.Load?
    ensures var after := AdmitLoad(st, m.req, m.id, m.gb, m.policy, m.allow, plan, m.beginIo, m.clearIo);
            var fenced := st.(marker := BeginStep(st.marker, m.beginIo).marker);
            var claimed := ClaimCapacity(fenced, plan.plannedGb, plan.plannedCharge, m.allow).0;
            after.task == st.task || after == Install(claimed, m.req, m.id, m.gb, m.policy, m.allow, plan)
  {
    var fenced := st.(marker := BeginStep(st.marker, m.beginIo).marker);
    ClaimLeavesTheTask(fenced, plan, m.allow);
  }

  lemma InstalledTarget(st: State, m: Message, plan: LoadPlan)
    requires m.Load?
    ensures var after := Install(st, m.req, m.id, m.gb, m.policy, m.allow, plan);
            && LoadActive(after) && after.active.value.id == m.id && after.task.Some? && after.task.value.LoadTask?
            && after.task.value.ctx.id == m.id && after.task.value.ctx.previous == Former(st, m.id)
            && m.id in after.models && after.models[m.id] == LoadingSlot(st, m, plan)
  {
  }

  /** `after` runs the load `m` asks for, in place of what `st` had of that model. */
  predicate Started(st: State, after: State, m: Message, plan: LoadPlan)
    requires m.Load?
  {
    && LoadActive(after) && after.active.value.id == m.id && after.task.Some? && after.task.value.LoadTask?
    && after.task.value.ctx.id == m.id && after.task.value.ctx.previous == Former(st, m.id)
    && m.id in after.models && after.models[m.id] == LoadingSlot(st, m, plan)
    && (m.id in st.models ==> st.models[m.id].inflight == 0 && !st.models[m.id].loadUnconfirmed)
  }

  lemma AdmittedTarget(st: State, m: Message, plan: LoadPlan)
    requires m.Load?
    requires m.id in st.models ==> st.models[m.id].inflight == 0 && !st.models[m.id].loadUnconfirmed
    ensures var after := AdmitLoad(st, m.req, m.id, m.gb, m.policy, m.allow, plan, m.beginIo, m.clearIo);
            after.task == st.task || Started(st, after, m, plan)
  {
    var fenced := st.(marker := BeginStep(st.marker, m.beginIo).marker);
    var claimed := ClaimCapacity(fenced, plan.plannedGb, plan.plannedCharge, m.allow).0;
    AdmittedOrNot(st, m, plan);
    ClaimTouchesOnlyLedger(fenced, plan.plannedGb, plan.plannedCharge, m.allow);
    InstalledTarget(claimed, m, plan);
  }

  lemma HandledTarget(st: State, m: Message)
    requires m.Load?
    ensures var after := HandleLoad(st, m.req, m.id, m.gb, m.policy, m.allow, m.order, m.beginIo, m.clearIo);
            var plan := PlanLoad(st, m.id, m.gb, m.order);
            after.task == st.task || (plan.Success? && Started(st, after, m, plan.value))
  {
    var plan := PlanLoad(st, m.id, m.gb, m.order);
    if LoadGate(st, m.id, m.gb, m.policy, m.allow).Proceeds? && plan.Success? {
      AdmittedTarget(st, m, plan.value);
    }
  }

  /** The slot and the task of a load that has just begun, from the state before. */
  lemma StartedLoad(st: State, m: Message)
    requires Enabled(st, m) && m.Load? && Step(st, m).task != st.task
    ensures var plan := PlanLoad(Asked(st, m), m.id, m.gb, m.order);
            plan.Success? && Started(st, Step(st, m), m, plan.value)
  {
    HandledTarget(Asked(st, m), m);
  }

  /** What a load leaves of its target, from the slot `was` before it, if any, and the slot while it ran. */
  predicate Leaves(was: Option<ModelSlot>, loading: ModelSlot, o: LoadOutcome, stamp: nat, after: ModelSlot) {
    if o.result.Success? then after == loading.(state := Ready, lastUsedSeq := stamp)
    else
      match o.failure
      case Settle(state) => after == loading.(state := state, inherited := loading.inherited && !state.Stopped?)
      case SettleReleased(_) => after == loading.(state := Stopped, inherited := false)
      case RestorePrevious(_) => was == Some(after)
      case RetainPreviousOnError(_) => was.Some? && after == ChargedForBoth(was.value, loading)
      case RetainUnconfirmedLoad(kept) =>
        if kept.Some? then was.Some? && after == ChargedForBoth(was.value, loading).(loadUnconfirmed := true)
        else after == loading.(state := Error, loadUnconfirmed := true)
  }

  function ChargedForBoth(was: ModelSlot, loading: ModelSlot): ModelSlot {
    was.(state := Error,
         memoryGb := if was.memoryGb < loading.memoryGb then loading.memoryGb else was.memoryGb,
         charge := if was.charge < loading.charge then loading.charge else was.charge)
  }

  function SlotOf(st: State, id: string): Option<ModelSlot> {
    if id in st.models then Some(st.models[id]) else None
  }

  lemma FailedTarget(st: State, m: Message, plan: LoadPlan, o: LoadOutcome)
    requires m.Load? && o.result.Failure?
    requires m.id in st.models ==> st.models[m.id].inflight == 0 && !st.models[m.id].loadUnconfirmed
    requires match o.failure
             case RestorePrevious(p) => Former(st, m.id) == Some(p)
             case RetainPreviousOnError(p) => Former(st, m.id) == Some(p)
             case RetainUnconfirmedLoad(kept) => kept.None? || kept == Former(st, m.id)
             case _ => true
    ensures Leaves(SlotOf(st, m.id), LoadingSlot(st, m, plan), o, 0, FailedSlot(LoadingSlot(st, m, plan), o.failure))
  {
  }

  /** From `before` to `after`, by the verdict on the trace, in terms of the state in which `m` was asked. */
  predicate EndsAsJudged(st: State, m: Message, plan: LoadPlan, before: State, after: State, trace: seq<Event>)
    requires m.Load?
  {
    && before.task.Some? && before.task.value.LoadTask? && m.id in after.models
    && var ctx := before.task.value.ctx;
       Leaves(SlotOf(st, m.id), LoadingSlot(st, m, plan), Judged(ctx, Read(ctx, trace)), before.nextSeq + 1,
              after.models[m.id])
  }

  /**
   * From the request to the report, whatever arrives in between: a load that is
   * refused leaves its model exactly as it was before; one that failed halfway
   * leaves it charged for the larger of the old and the new; and so on by the verdict.
   */
  lemma LoadLeaves(st: State, m: Message, ms: seq<Message>, trace: seq<Event>)
    requires Inv(st) && Enabled(st, m) && m.Load? && Step(st, m).task != st.task
    requires Possible(Step(st, m), ms) && BeforeReport(ms)
    requires Enabled(After(Step(st, m), ms), LoadReported(trace))
    ensures var before := After(Step(st, m), ms);
            var plan := PlanLoad(Asked(st, m), m.id, m.gb, m.order);
            plan.Success? && EndsAsJudged(st, m, plan.value, before, Step(before, LoadReported(trace)), trace)
  {
    BeganWell(st, m);
    RunLeaves(st, m, PlanLoad(Asked(st, m), m.id, m.gb, m.order).value, Step(st, m), ms, trace);
  }

  lemma BeganWell(st: State, m: Message)
    requires Inv(st) && Enabled(st, m) && m.Load? && Step(st, m).task != st.task
    ensures Inv(Step(st, m))
    ensures var plan := PlanLoad(Asked(st, m), m.id, m.gb, m.order);
            plan.Success? && Started(st, Step(st, m), m, plan.value)
  {
    StepKeepsInv(st, m);
    StartedLoad(st, m);
  }

  lemma RunLeaves(st: State, m: Message, plan: LoadPlan, one: State, ms: seq<Message>, trace: seq<Event>)
    requires m.Load? && Inv(one) && Started(st, one, m, plan) && Possible(one, ms) && BeforeReport(ms)
    requires Enabled(After(one, ms), LoadReported(trace))
    ensures EndsAsJudged(st, m, plan, After(one, ms), Step(After(one, ms), LoadReported(trace)), trace)
  {
    LoadingStands(one, ms);
    ReportLeaves(st, m, plan, After(one, ms), trace);
  }

  lemma ReportLeaves(st: State, m: Message, plan: LoadPlan, before: State, trace: seq<Event>)
    requires m.Load? && Inv(before) && Started(st, before, m, plan) && Enabled(before, LoadReported(trace))
    ensures EndsAsJudged(st, m, plan, before, Step(before, LoadReported(trace)), trace)
  {
    var ctx := before.task.value.ctx;
    var o := Report(ctx, RunFlow(ctx, trace));
    assert WellFormed(ctx) by { assert TaskFits(before); }
    ReportIsJudged(ctx, trace);
    ReportedTarget(before, trace);
    ReportedModels(before, trace);
    if o.result.Failure? {
      FailedTarget(st, m, plan, o);
    }
  }
}
