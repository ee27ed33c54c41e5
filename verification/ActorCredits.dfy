/**
 * The credits of a residency sample over a run: what a sample credits, that nothing
 * but the next sample changes them, and that they bound what is hidden of the sample.
 */
module ActorCredits {
  import opened Wrappers
  import opened Backend
  import opened Eviction
  import opened LoadFences
  import opened LoadFlow
  import opened LoadFlowFacts
  import opened Actor
  import opened ActorInvariant
  import opened ActorRuns
  import opened ActorHistory

  /** The last sample an outcome brings, if it brings one. */
  function SampleOf(o: LoadOutcome): Option<BackendStatus> {
    if o.result.Failure? && o.failure.SettleReleased? then Some(o.failure.status) else o.aggregateStatus
  }

  function LoadReport(st: State, trace: seq<Event>): LoadOutcome
    requires Enabled(st, LoadReported(trace))
  {
    Report(st.task.value.ctx, RunFlow(st.task.value.ctx, trace))
  }

  /** The engine sample a message carries; only reports of finished operations carry one. */
  function CarriedSample(st: State, m: Message): Option<BackendStatus>
    requires Enabled(st, m)
  {
    match m
    case LoadReported(trace) => SampleOf(LoadReport(st, trace))
    case UnloadReported(_, o) => o.status
    case _ => None
  }

  // ------------------------------------------------- nothing else moves them

  predicate SameAggregate(a: State, b: State) { a.reservedGb == b.reservedGb && a.covered == b.covered }

  lemma ConcludeKeepsAggregate(st: State, result: Result<(), BackendError>)
    ensures SameAggregate(st, Conclude(st, result)) && Conclude(st, result).keys == st.keys
  {
    SettleTouchesOnlyLedger(st);
  }

  lemma AdmitKeepsAggregate(st: State, m: Message, plan: LoadPlan)
    requires m.Load?
    ensures SameAggregate(st, AdmitLoad(st, m.req, m.id, m.gb, m.policy, m.allow, plan, m.beginIo, m.clearIo))
    ensures KeysGrow(st, AdmitLoad(st, m.req, m.id, m.gb, m.policy, m.allow, plan, m.beginIo, m.clearIo))
  {
    var fenced := st.(marker := BeginStep(st.marker, m.beginIo).marker);
    ClaimTouchesOnlyLedger(fenced, plan.plannedGb, plan.plannedCharge, m.allow);
  }

  /** Slots are listed in the order they appeared and are never dropped. */
  predicate KeysGrow(a: State, b: State) { a.keys <= b.keys }

  lemma LoadKeepsAggregate(st: State, m: Message)
    requires Enabled(st, m) && m.Load?
    ensures SameAggregate(st, Step(st, m)) && KeysGrow(st, Step(st, m))
  {
    var asked := st.(asked := st.asked[m.req := LoadRequest(m.id, m.gb, m.policy, m.allow)]);
    if Refusal(st).None? && LoadGate(asked, m.id, m.gb, m.policy, m.allow).Proceeds? {
      var planned := PlanLoad(asked, m.id, m.gb, m.order);
      if planned.Success? {
        AdmitKeepsAggregate(asked, m, planned.value);
      }
    }
  }

  lemma LoadReportAggregate(st: State, m: Message)
    requires Inv(st) && Enabled(st, m) && m.LoadReported?
    ensures var ctx := st.task.value.ctx;
            var o := LoadReport(st, m.trace);
            var ended := st.(marker := MarkerAfter(st.marker, m.trace), task := None);
            && ctx.id in st.models && OutcomeFits(ctx, o)
            && SameAggregate(ApplyLoadOutcome(ended, ctx.id, o), Step(st, m))
            && Step(st, m).keys == st.keys
  {
    var ctx := st.task.value.ctx;
    var o := LoadReport(st, m.trace);
    var ended := st.(marker := MarkerAfter(st.marker, m.trace), task := None);
    ReportedModels(st, m.trace);
    ReportedAreKnown(st, ctx, o);
    ConcludeKeepsAggregate(ApplyLoadOutcome(ended, ctx.id, o), o.result);
    AppliedSlots(ended, ctx.id, o, ctx.id);
  }

  lemma UnloadReportAggregate(st: State, m: Message)
    requires Inv(st) && Enabled(st, m) && m.UnloadReported?
    ensures var id := st.task.value.id;
            && id in st.models
            && SameAggregate(ApplyUnloadOutcome(st.(task := None), id, m.outcome), Step(st, m))
            && Step(st, m).models == ApplyUnloadOutcome(st.(task := None), id, m.outcome).models
            && Step(st, m).keys == st.keys
  {
    var applied := ApplyUnloadOutcome(st.(task := None), st.task.value.id, m.outcome);
    ConcludeKeepsAggregate(applied, m.outcome.result);
    ConcludeKeepsModels(applied, m.outcome.result);
  }

  lemma QuietMessageKeepsAggregate(st: State, m: Message)
    requires Enabled(st, m) && (m.Chat? || m.ChatDone? || m.OtherOwner?)
    ensures SameAggregate(st, Step(st, m)) && KeysGrow(st, Step(st, m))
  {
  }

  lemma UnloadKeepsAggregate(st: State, m: Message)
    requires Enabled(st, m) && m.Unload?
    ensures SameAggregate(st, Step(st, m)) && KeysGrow(st, Step(st, m))
  {
  }

  /** A load that reports no sample leaves the aggregate as it was. */
  lemma SamplelessLoadReport(st: State, m: Message)
    requires Inv(st) && Enabled(st, m) && m.LoadReported?
    ensures CarriedSample(st, m).None? ==> SameAggregate(st, Step(st, m))
    ensures KeysGrow(st, Step(st, m))
  {
    LoadReportAggregate(st, m);
  }

  lemma SamplelessUnloadReport(st: State, m: Message)
    requires Inv(st) && Enabled(st, m) && m.UnloadReported?
    ensures CarriedSample(st, m).None? ==> SameAggregate(st, Step(st, m))
    ensures KeysGrow(st, Step(st, m))
  {
    UnloadReportAggregate(st, m);
  }

  /** The aggregate and its credits change only in a report that carries a sample. */
  lemma OnlySamplesMoveCredits(st: State, m: Message)
    requires Inv(st) && Enabled(st, m)
    ensures CarriedSample(st, m).None? ==> SameAggregate(st, Step(st, m))
    ensures KeysGrow(st, Step(st, m))
  {
    match m
    case Load(_, _, _, _, _, _, _, _) => LoadKeepsAggregate(st, m);
    case Unload(_, _) => UnloadKeepsAggregate(st, m);
    case LoadReported(_) => SamplelessLoadReport(st, m);
    case UnloadReported(_, _) => SamplelessUnloadReport(st, m);
    case _ => QuietMessageKeepsAggregate(st, m);
  }

  // ---------------------------------------------------------- a fresh sample

  /** A model credited with something else than its slot, and what; nothing if that is zero. */
  datatype Credit = Credit(id: string, gb: real)

  /** Charged, and not by a load whose end is unknown. */
  predicate Creditable(slot: ModelSlot) {
    !slot.state.Launching? && !slot.state.Stopped? && !slot.loadUnconfirmed
  }

  /** A listed model is credited what its slot is worth then; the target of a load its old footprint. */
  predicate CreditFits(models: Models, covered: map<string, real>, status: BackendStatus, target: Option<Credit>,
                       k: string)
  {
    if target.Some? && k == target.value.id then
      && (k in covered <==> k in status.loaded && target.value.gb > 0.0)
      && (k in covered ==> covered[k] == target.value.gb)
    else
      && (k in covered <==> k in status.loaded && k in models && Creditable(models[k]))
      && (k in covered ==> covered[k] == models[k].memoryGb)
  }

  ghost predicate CreditsFitSample(after: State, status: BackendStatus, target: Option<Credit>) {
    after.reservedGb == status.usedGb && forall k :: CreditFits(after.models, after.covered, status, target, k)
  }

  predicate SameSlot(a: Models, b: Models, k: string) {
    (k in a <==> k in b) && (k in a ==> a[k] == b[k])
  }

  /** A refresh credits by the slots it finds; `later` has the same ones, but for the target's. */
  lemma RefreshedFit(models: Models, later: Models, status: BackendStatus, id: string, gb: real, k: string)
    requires k != id ==> SameSlot(models, later, k)
    ensures CreditFits(later, RefreshedCredits(models, status, Some(id), gb), status, Some(Credit(id, gb)), k)
  {
  }

  lemma RefreshedFitAll(models: Models, status: BackendStatus, k: string)
    ensures CreditFits(models, RefreshedCredits(models, status, None, 0.0), status, None, k)
  {
  }

  predicate Released(o: LoadOutcome) { o.result.Failure? && o.failure.SettleReleased? }

  /** The load's own target counts at its old footprint, unless it was seen gone. */
  function TargetCredit(st: State, m: Message): Option<Credit>
    requires Enabled(st, m)
  {
    if m.LoadReported? && !Released(LoadReport(st, m.trace)) then
      var ctx := st.task.value.ctx;
      Some(Credit(ctx.id, if ctx.previous.Some? && LoadCount(m.trace) < 2 then ctx.previous.value.memoryGb else 0.0))
    else None
  }

  lemma SampleCreditsTarget(ctx: FlowContext, trace: seq<Event>)
    requires WellFormed(ctx) && Finished(RunFlow(ctx, trace))
    requires Report(ctx, RunFlow(ctx, trace)).aggregateStatus.Some?
    ensures Report(ctx, RunFlow(ctx, trace)).aggregateTargetCreditGb
            == if ctx.previous.Some? && LoadCount(trace) < 2 then ctx.previous.value.memoryGb else 0.0
  {
    EndingShowsInTrace(ctx, trace);
    LoadsAreJustified(ctx, trace);
  }

  lemma ReleasedCredits(st: State, m: Message)
    requires Inv(st) && Enabled(st, m) && m.LoadReported? && Released(LoadReport(st, m.trace))
    ensures CreditsFitSample(Step(st, m), LoadReport(st, m.trace).failure.status, None)
  {
    LoadReportAggregate(st, m);
    ReportedModels(st, m.trace);
    var ended := st.(marker := MarkerAfter(st.marker, m.trace), task := None);
    RefreshedByRelease(ended, st.task.value.ctx.id, LoadReport(st, m.trace));
    forall k {
      RefreshedFitAll(Step(st, m).models, LoadReport(st, m.trace).failure.status, k);
    }
  }

  lemma RefreshedByRelease(st: State, id: string, o: LoadOutcome)
    requires id in st.models && Released(o)
    ensures var after := ApplyLoadOutcome(st, id, o);
            && after.reservedGb == o.failure.status.usedGb
            && after.covered == RefreshedCredits(after.models, o.failure.status, None, 0.0)
  {
  }

  lemma UnreleasedCredits(st: State, id: string, o: LoadOutcome)
    requires id in st.models && !Released(o) && o.aggregateStatus.Some?
    ensures ApplyLoadOutcome(st, id, o).reservedGb == o.aggregateStatus.value.usedGb
    ensures ApplyLoadOutcome(st, id, o).covered
            == RefreshedCredits(SettleVictims(st.models, o.victimResults), o.aggregateStatus.value, Some(id),
                                o.aggregateTargetCreditGb)
  {
  }

  lemma EvictionCredits(st: State, m: Message)
    requires Inv(st) && Enabled(st, m) && m.LoadReported?
    requires !Released(LoadReport(st, m.trace)) && LoadReport(st, m.trace).aggregateStatus.Some?
    ensures CreditsFitSample(Step(st, m), LoadReport(st, m.trace).aggregateStatus.value, TargetCredit(st, m))
  {
    var ctx := st.task.value.ctx;
    var o := LoadReport(st, m.trace);
    var after := Step(st, m);
    var ended := st.(marker := MarkerAfter(st.marker, m.trace), task := None);
    LoadReportAggregate(st, m);
    ReportedModels(st, m.trace);
    UnreleasedCredits(ended, ctx.id, o);
    SampleCreditsTarget(ctx, m.trace);
    forall k ensures CreditFits(after.models, after.covered, o.aggregateStatus.value, TargetCredit(st, m), k) {
      OthersAsEvicted(ended, ctx.id, o, k);
      RefreshedFit(SettleVictims(ended.models, o.victimResults), after.models, o.aggregateStatus.value, ctx.id,
                   o.aggregateTargetCreditGb, k);
    }
  }

  lemma OthersAsEvicted(st: State, id: string, o: LoadOutcome, k: string)
    requires id in st.models
    ensures k != id ==> SameSlot(SettleVictims(st.models, o.victimResults), ApplyLoadOutcome(st, id, o).models, k)
  {
    if k in st.models {
      AppliedSlots(st, id, o, k);
    } else {
      AppliedSlots(st, id, o, id);
    }
  }

  lemma UnloadCredits(st: State, m: Message)
    requires Inv(st) && Enabled(st, m) && m.UnloadReported? && m.outcome.status.Some?
    ensures CreditsFitSample(Step(st, m), m.outcome.status.value, None)
  {
    UnloadReportAggregate(st, m);
  }

  /**
   * At a sample a model is credited exactly if it is listed, charged and confirmed,
   * and then what its slot is worth; the target of a load exactly if it is listed
   * and had an old footprint that was not seen gone, and then that.
   */
  lemma SampleCreditsSlots(st: State, m: Message)
    requires Inv(st) && Enabled(st, m) && CarriedSample(st, m).Some?
    ensures CreditsFitSample(Step(st, m), CarriedSample(st, m).value, TargetCredit(st, m))
  {
    if m.UnloadReported? {
      UnloadCredits(st, m);
    } else if Released(LoadReport(st, m.trace)) {
      ReleasedCredits(st, m);
    } else {
      EvictionCredits(st, m);
    }
  }

  // ------------------------------------------------------------------- runs

  function CreditTotal(keys: seq<string>, covered: map<string, real>): real {
    if keys == [] then 0.0 else (if keys[0] in covered then covered[keys[0]] else 0.0) + CreditTotal(keys[1..], covered)
  }

  ghost predicate NoSample(st: State, ms: seq<Message>)
    requires Possible(st, ms)
    decreases |ms|
  {
    ms == [] || (CarriedSample(st, ms[0]).None? && NoSample(Step(st, ms[0]), ms[1..]))
  }

  lemma {:induction false} AggregateStands(st: State, ms: seq<Message>)
    requires AllInv(st) && Possible(st, ms) && NoSample(st, ms)
    ensures SameAggregate(st, After(st, ms)) && KeysGrow(st, After(st, ms))
    decreases |ms|
  {
    if ms != [] {
      StepKeepsAll(st, ms[0]);
      OnlySamplesMoveCredits(st, ms[0]);
      AggregateStands(Step(st, ms[0]), ms[1..]);
    }
  }

  /** Whatever the slots are worth later, none hides more than its credit, and one without a credit nothing. */
  lemma {:induction false} HiddenWithinCredits(credited: seq<string>, more: seq<string>, models: Models,
                                               covered: map<string, real>)
    requires forall k :: k in covered ==> covered[k] >= 0.0
    requires forall k :: k in more ==> k !in covered
    ensures CoveredGb(credited + more, models, covered, {}) <= CreditTotal(credited, covered)
    decreases |credited| + |more|
  {
    if credited != [] {
      assert (credited + more)[1..] == credited[1..] + more;
      HiddenWithinCredits(credited[1..], more, models, covered);
    } else if more != [] {
      assert credited + more == more && [] + more[1..] == more[1..];
      HiddenWithinCredits([], more[1..], models, covered);
    }
  }

  lemma AddedKeysAreNew(keys: seq<string>, more: seq<string>, k: string)
    requires AtMostOnce(keys + more) && k in more
    ensures k !in keys
  {
    assert multiset(keys + more)[k] == multiset(keys)[k] + multiset(more)[k];
    assert k in multiset(more);
  }

  lemma HiddenBetween(st: State, later: State)
    requires Enumerates(st.keys, st.models) && Enumerates(later.keys, later.models) && NumbersFit(st)
    requires SameAggregate(st, later) && KeysGrow(st, later)
    ensures CoveredGb(later.keys, later.models, later.covered, {}) <= CreditTotal(st.keys, st.covered)
  {
    OrderIsAnEnumeration(later, later.keys);
    OrderIsAnEnumeration(st, st.keys);
    var more := later.keys[|st.keys|..];
    assert later.keys == st.keys + more;
    forall k | k in more ensures k !in later.covered {
      AddedKeysAreNew(st.keys, more, k);
    }
    HiddenWithinCredits(st.keys, more, later.models, later.covered);
  }

  /**
   * Frozen credits: from any state, as long as no report carries a sample, the
   * aggregate and its credits stay as they are, and however loads and estimates
   * change the slots meanwhile, they hide no more of the sample than it credited.
   */
  lemma CreditsAreFrozen(st: State, ms: seq<Message>)
    requires AllInv(st) && Possible(st, ms) && NoSample(st, ms)
    ensures var later := After(st, ms);
            && SameAggregate(st, later)
            && CoveredGb(later.keys, later.models, later.covered, {}) <= CreditTotal(st.keys, st.covered)
            && EffectiveReservedGb(later, {}) >= st.reservedGb - CreditTotal(st.keys, st.covered)
  {
    AggregateStands(st, ms);
    RunKeepsAll(st, ms);
    HiddenBetween(st, After(st, ms));
  }
}
