/**
 * What short runs are put together from: a startup without a shared ledger, a load
 * that is admitted, a load that reports, and one message after another.
 */
module ExampleRuns {
  import opened Wrappers
  import opened Backend
  import opened LoadPolicies
  import opened Eviction
  import opened LoadFences
  import opened LoadFlow
  import opened LoadTasks
  import opened Actor
  import opened ActorHistory
  import opened ActorAdmission
  import L = CapacityLedger

  const SETTINGS := Settings(100.0, 1, 1, "k")
  const EMPTY := BackendStatus(0.0, [])
  const ANY_POLICY := LoadPolicy(OnDemand, Pinned(true), Coexist)

  /** An actor that came up over an unmarked disk and an engine in which `status` was found. */
  ghost function Fresh(ledger: L.Ledger, status: BackendStatus): State {
    Startup(SETTINGS, ledger, Marker(false, false), NoLedger, None, Success(status))
  }

  lemma FreshIsBlank(ledger: L.Ledger)
    ensures Fresh(ledger, EMPTY) == Blank(SETTINGS, ledger, Marker(false, false))
  {
    assert Distinct([]) == [];
    var none: seq<string> := [];
    assert (map k | k in none :: INHERITED_SLOT) == map[];
  }

  /** A load that is planned, marked and claimed is installed. */
  lemma AdmittedLoad(st: State, m: Message, plan: LoadPlan, claimed: State)
    requires Enabled(st, m) && m.Load? && m.beginIo.Begins? && !st.marker.visible && Refusal(st).None?
    requires LoadGate(Asked(st, m), m.id, m.gb, m.policy, m.allow).Proceeds?
    requires PlanLoad(Asked(st, m), m.id, m.gb, m.order) == Success(plan)
    requires ClaimCapacity(Asked(st, m).(marker := Marker(true, true)), plan.plannedGb, plan.plannedCharge, m.allow)
             == (claimed, Success(()))
    ensures Step(st, m) == Install(claimed, m.req, m.id, m.gb, m.policy, m.allow, plan)
  {
  }

  lemma FittingPlan(st: State, id: string, gb: real, order: seq<string>)
    requires !st.claim.Exact? && EffectiveReservedGb(st, {}) <= st.settings.budgetGb
    requires PlanEviction(RequestSnapshot(st, id, order), ModelReq(id, RequestGb(st, id, gb))) == Success(NotNeeded)
    ensures var request := RequestGb(st, id, gb);
            var plannedGb := EffectiveReservedGb(st, {}) + request + OccupiedGb(st.keys, st.models, {id} + SetOf([]));
            PlanLoad(st, id, gb, order) == Success(LoadPlan([], request, 0, plannedGb, None))
  {
  }

  /** A request that fits beside what is charged needs no victims and claims nothing outside a ledger. */
  lemma FittingLoad(st: State, m: Message)
    requires Enabled(st, m) && m.Load? && m.beginIo.Begins? && !st.marker.visible && Refusal(st).None?
    requires LoadGate(Asked(st, m), m.id, m.gb, m.policy, m.allow).Proceeds? && st.claim.Untracked?
    requires EffectiveReservedGb(st, {}) <= st.settings.budgetGb
    requires PlanEviction(RequestSnapshot(st, m.id, m.order), ModelReq(m.id, RequestGb(st, m.id, m.gb)))
             == Success(NotNeeded)
    ensures var request := RequestGb(st, m.id, m.gb);
            var plannedGb := EffectiveReservedGb(st, {}) + request + OccupiedGb(st.keys, st.models, {m.id} + SetOf([]));
            Step(st, m) == Install(Asked(st, m).(marker := Marker(true, true)), m.req, m.id, m.gb, m.policy, m.allow,
                                   LoadPlan([], request, 0, plannedGb, None))
  {
    FittingPlan(st, m.id, m.gb, m.order);
    AskedReadsAlike(st, m);
    AdmittedLoad(st, m, PlanLoad(st, m.id, m.gb, m.order).value, Asked(st, m).(marker := Marker(true, true)));
  }

  lemma NobodyToEvict(budgetGb: real, id: string, gb: real)
    requires 0.0 <= gb <= budgetGb
    ensures PlanEviction(Snapshot(budgetGb, []), ModelReq(id, gb)) == Success(NotNeeded)
  {
  }

  lemma OnlyTheTarget(id: string, models: Models, covered: map<string, real>, skip: set<string>)
    requires id in models
    ensures Entries([id], models, id) == []
    ensures OccupiedGb([id], models, skip)
            == if id !in skip && OccupiesBudget(models[id].state) then models[id].memoryGb else 0.0
    ensures covered == map[] ==> CoveredGb([id], models, covered, skip) == 0.0
  {
    assert [id][1..] == [];
  }

  lemma RunFlowPrefix(ctx: FlowContext, t: seq<Event>, n: nat)
    requires n < |t|
    ensures RunFlow(ctx, t[..n + 1]) == StepFlow(ctx, RunFlow(ctx, t[..n]), t[n])
  {
    assert t[..n + 1] == t[..n] + [t[n]];
    RunFlowAppend(ctx, t[..n], t[n]);
  }

  /** What a load that evicted nobody reports is applied to its slot, and capacity follows. */
  lemma ReportedLoad(st: State, trace: seq<Event>)
    requires Enabled(st, LoadReported(trace)) && st.poisoned.None? && st.task.value.ctx.id in st.models
    requires RunFlow(st.task.value.ctx, trace).phase.Done? && RunFlow(st.task.value.ctx, trace).victimResults == []
    ensures var ctx := st.task.value.ctx;
            var end := RunFlow(ctx, trace);
            var ended := st.(marker := MarkerAfter(st.marker, trace), task := None);
            var sampled := if end.aggregate.Some? then
                RefreshAggregate(ended, end.aggregate.value, Some(ctx.id), CreditGb(ctx, end)) else ended;
            Step(st, LoadReported(trace))
            == Conclude(if end.phase.result.Success? then ApplySuccess(sampled, ctx.id)
                        else ApplyFailure(sampled, ctx.id, end.phase.failure),
                        end.phase.result)
  {
    assert SettleVictims(st.models, []) == st.models;
  }

  /** Outside a ledger a failed load leaves its slot to the failure and the other slots alone. */
  lemma FailedLoad(st: State, trace: seq<Event>)
    requires Enabled(st, LoadReported(trace)) && st.poisoned.None? && st.task.value.ctx.id in st.models
    requires st.active.Some? && st.claim.Untracked?
    requires RunFlow(st.task.value.ctx, trace).phase.Done? && RunFlow(st.task.value.ctx, trace).victimResults == []
    requires RunFlow(st.task.value.ctx, trace).phase.result.Failure?
    ensures var id := st.task.value.ctx.id;
            Step(st, LoadReported(trace)).models
            == st.models[id := FailedSlot(st.models[id], RunFlow(st.task.value.ctx, trace).phase.failure)]
  {
    ReportedLoad(st, trace);
  }

  /** A run goes on with whatever may arrive where it ends. */
  lemma {:induction false} OneMore(st: State, ms: seq<Message>, m: Message)
    requires Possible(st, ms) && Enabled(After(st, ms), m)
    ensures Possible(st, ms + [m]) && After(st, ms + [m]) == Step(After(st, ms), m)
    decreases |ms|
  {
    if ms == [] {
      assert [m][1..] == [];
      assert ms + [m] == [m];
    } else {
      OneMore(Step(st, ms[0]), ms[1..], m);
      assert (ms + [m])[1..] == ms[1..] + [m];
    }
  }

  lemma TwoMore(st: State, ms: seq<Message>, a: Message, b: Message)
    requires Possible(st, ms) && Enabled(After(st, ms), a) && Enabled(Step(After(st, ms), a), b)
    ensures Possible(st, ms + [a, b]) && After(st, ms + [a, b]) == Step(Step(After(st, ms), a), b)
  {
    OneMore(st, ms, a);
    OneMore(st, ms + [a], b);
    assert ms + [a] + [b] == ms + [a, b];
  }

  lemma FirstTwo(st: State, a: Message, b: Message)
    requires Enabled(st, a) && Enabled(Step(st, a), b)
    ensures Possible(st, [a, b]) && After(st, [a, b]) == Step(Step(st, a), b)
  {
    TwoMore(st, [], a, b);
    assert [] + [a, b] == [a, b];
  }
}
