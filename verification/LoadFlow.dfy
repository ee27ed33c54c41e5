/**
 * One load against an engine that may answer anything.
 *
 * The protocol is an automaton over the events of a flow: which engine call or
 * fence removal may come next, and what the flow must report at the end. The
 * methods of `LoadTasks` are the program's loops, proved to follow it whatever
 * the engine answers.
 */
module LoadFlow {
  import opened Wrappers
  import opened Backend
  import opened LoadPolicies
  import opened Eviction
  import opened LoadFences

  /** An adapter call returns a value, returns an error (a timeout is one), or panics. */
  datatype Answer<+T> = Ok(value: T) | Err(error: BackendError) | Panicked

  datatype Event =
    | Unloaded(id: string, done: Answer<()>)
    | Sampled(status: Answer<BackendStatus>)
    | LoadIssued(id: string, policy: LoadPolicy)
    | LoadAnswered(id: string, done: Answer<()>)
    | Probed(id: string, ready: Answer<bool>)
    | FenceCleared(io: ClearIo)

  datatype PreviousModel = PreviousModel(
    state: ModelState, policy: LoadPolicy, memoryGb: real, charge: nat, inherited: bool)

  datatype LoadFailure =
    | Settle(state: ModelState)
    | SettleReleased(status: BackendStatus)
    | RestorePrevious(previous: PreviousModel)
    | RetainPreviousOnError(previous: PreviousModel)
    | RetainUnconfirmedLoad(kept: Option<PreviousModel>)

  datatype VictimResult = VictimResult(id: string, result: Result<(), BackendError>)

  datatype LoadOutcome = LoadOutcome(
    result: Result<(), BackendError>, victimResults: seq<VictimResult>,
    aggregateStatus: Option<BackendStatus>, aggregateTargetCreditGb: real, failure: LoadFailure)

  datatype FlowContext = FlowContext(
    id: string, policy: LoadPolicy, victims: seq<string>, previous: Option<PreviousModel>, inherited: bool,
    targetAbsentGb: real, afterEvictionGb: real, releaseAttempts: nat, probeAttempts: nat)

  // ------------------------------------------------------------- evidence

  /** A sample that shows every target gone and the engine within its bound. */
  predicate ReleaseEvidence(status: BackendStatus, targets: seq<string>, maxUsedGb: real) {
    && 0.0 <= status.usedGb <= maxUsedGb + CAPACITY_EPSILON_GB
    && (status.usedGb > 0.0 || status.loaded == [])
    && forall id :: id in targets ==> id !in status.loaded
  }

  predicate IsRelease(e: Event, targets: seq<string>, maxUsedGb: real) {
    e.Sampled? && e.status.Ok? && ReleaseEvidence(e.status.value, targets, maxUsedGb)
  }

  predicate IdentityEvidence(ctx: FlowContext, status: BackendStatus) {
    0.0 < status.usedGb <= ctx.afterEvictionGb + CAPACITY_EPSILON_GB && ctx.id in status.loaded
  }

  /** Errors after which the engine may still be loading. */
  predicate LeavesLoadUnresolved(e: BackendError) {
    e.AdapterTimedOut? || e.LoadUnconfirmed?
  }

  // ------------------------------------------------------------ automaton

  /** Why a release is being confirmed. */
  datatype Confirmation =
    | OfEviction(failed: bool)
    | OfOomTarget
    | OfCleanup(error: BackendError, unresolved: bool)

  datatype Phase =
    | Evicting(failed: bool)
    | Confirming(what: Confirmation, left: nat)
    | InheritedStatus
    | InheritedProbe
    | ReadyToLoad
    | AwaitingLoad
    | Probing(left: nat)
    | CleaningUp(error: BackendError, unresolved: bool)
    | Clearing(result: Result<(), BackendError>, failure: LoadFailure)
    | Done(result: Result<(), BackendError>, failure: LoadFailure)
    | Dead
    | Rejected

  datatype FlowState = FlowState(
    phase: Phase, victimResults: seq<VictimResult>, aggregate: Option<BackendStatus>, retried: bool)

  /** Once a retry has begun the old instance is known to be gone. */
  function PreviousNow(ctx: FlowContext, s: FlowState): Option<PreviousModel> {
    if s.retried then None else ctx.previous
  }

  function RestoreOrStop(previous: Option<PreviousModel>): LoadFailure {
    if previous.Some? then RestorePrevious(previous.value) else Settle(Stopped)
  }

  function AfterRelease(previous: Option<PreviousModel>): LoadFailure {
    if previous.Some? then RetainPreviousOnError(previous.value) else Settle(Error)
  }

  function FailedVictims(results: seq<VictimResult>): seq<VictimResult> {
    seq(|results|, i requires 0 <= i < |results| => VictimResult(results[i].id, Failure(EvictionFailed)))
  }

  function Targets(ctx: FlowContext, what: Confirmation): seq<string> {
    if what.OfEviction? then ctx.victims else [ctx.id]
  }

  function Limit(ctx: FlowContext, what: Confirmation): real {
    if what.OfEviction? then ctx.afterEvictionGb else ctx.targetAbsentGb
  }

  function ProceedToLoad(ctx: FlowContext, s: FlowState): FlowState {
    s.(phase := if ctx.inherited then InheritedStatus else ReadyToLoad)
  }

  function EvictionFails(ctx: FlowContext, s: FlowState): FlowState {
    s.(phase := Clearing(Failure(EvictionFailed), RestoreOrStop(ctx.previous)))
  }

  function NotVerified(ctx: FlowContext, s: FlowState): FlowState {
    s.(phase := Clearing(Failure(ModelUnavailable), RestoreOrStop(ctx.previous)))
  }

  /** Cleanup after an accepted or unresolved load frees nothing: the engine may allocate later. */
  function AfterCleanup(ctx: FlowContext, s: FlowState, e: BackendError, unresolved: bool,
                        sample: Option<BackendStatus>): FlowState
  {
    if unresolved then s.(phase := Done(Failure(e), RetainUnconfirmedLoad(PreviousNow(ctx, s))))
    else
      s.(phase := Clearing(Failure(e),
                           if sample.Some? then SettleReleased(sample.value) else AfterRelease(PreviousNow(ctx, s))))
  }

  function Confirmed(ctx: FlowContext, s: FlowState, what: Confirmation, status: BackendStatus): FlowState {
    match what
    case OfEviction(failed) =>
      var s := s.(aggregate := Some(status));
      if failed then EvictionFails(ctx, s) else ProceedToLoad(ctx, s)
    case OfOomTarget =>
      if ctx.inherited then s.(phase := Clearing(Failure(Oom), SettleReleased(status)))
      else s.(phase := ReadyToLoad, aggregate := Some(status), retried := true)
    case OfCleanup(e, unresolved) => AfterCleanup(ctx, s, e, unresolved, Some(status))
  }

  function Unconfirmed(ctx: FlowContext, s: FlowState, what: Confirmation): FlowState {
    match what
    case OfEviction(_) => EvictionFails(ctx, s.(victimResults := FailedVictims(s.victimResults)))
    case OfOomTarget => s.(phase := CleaningUp(Oom, false))
    case OfCleanup(e, unresolved) => AfterCleanup(ctx, s, e, unresolved, None)
  }

  /** Polling with `left` samples to go. */
  function Confirm(ctx: FlowContext, s: FlowState, what: Confirmation, left: nat): FlowState {
    if left == 0 then Unconfirmed(ctx, s, what) else s.(phase := Confirming(what, left))
  }

  function Probe(s: FlowState, left: nat): FlowState {
    s.(phase := if left == 0 then CleaningUp(ProbeTimedOut, true) else Probing(left))
  }

  function AfterVictims(ctx: FlowContext, s: FlowState, failed: bool): FlowState {
    if |s.victimResults| < |ctx.victims| then s.(phase := Evicting(failed))
    else if ctx.victims != [] then Confirm(ctx, s, OfEviction(failed), ctx.releaseAttempts)
    else ProceedToLoad(ctx, s)
  }

  function LoadRefused(ctx: FlowContext, s: FlowState, e: BackendError): FlowState {
    if e.Oom? && !s.retried then Confirm(ctx, s, OfOomTarget, ctx.releaseAttempts)
    else if e.LoadPostconditionFailed? then s.(phase := CleaningUp(e, false))
    else if LeavesLoadUnresolved(e) then s.(phase := CleaningUp(e, true))
    else s.(phase := Clearing(Failure(e), RestoreOrStop(PreviousNow(ctx, s))))
  }

  function Start(ctx: FlowContext): FlowState {
    AfterVictims(ctx, FlowState(Evicting(false), [], None, false), false)
  }

  function ToResult(a: Answer<()>): Result<(), BackendError> {
    match a
    case Ok(_) => Success(())
    case Err(e) => Failure(e)
    case Panicked => Failure(AdapterPanicked)
  }

  function Panics(e: Event): bool {
    match e
    case Unloaded(_, a) => a.Panicked?
    case Sampled(a) => a.Panicked?
    case LoadAnswered(_, a) => a.Panicked?
    case Probed(_, a) => a.Panicked?
    case _ => false
  }

  /** What each phase makes of the one event it allows. */
  function Advance(ctx: FlowContext, s: FlowState, e: Event): FlowState {
    match (s.phase, e)
    case (Evicting(failed), Unloaded(id, a)) =>
      if |s.victimResults| < |ctx.victims| && id == ctx.victims[|s.victimResults|] then
        AfterVictims(ctx, s.(victimResults := s.victimResults + [VictimResult(id, ToResult(a))]), failed || !a.Ok?)
      else s.(phase := Rejected)
    case (Confirming(what, left), Sampled(a)) =>
      if left == 0 then s.(phase := Rejected)
      else if a.Ok? && ReleaseEvidence(a.value, Targets(ctx, what), Limit(ctx, what)) then
        Confirmed(ctx, s, what, a.value)
      else Confirm(ctx, s, what, left - 1)
    case (InheritedStatus, Sampled(a)) =>
      if a.Ok? && IdentityEvidence(ctx, a.value) then s.(phase := InheritedProbe) else NotVerified(ctx, s)
    case (InheritedProbe, Probed(id, a)) =>
      if id != ctx.id then s.(phase := Rejected)
      else if a == Ok(true) then s.(phase := ReadyToLoad)
      else NotVerified(ctx, s)
    case (ReadyToLoad, LoadIssued(id, policy)) =>
      s.(phase := if id == ctx.id && policy == ctx.policy then AwaitingLoad else Rejected)
    case (AwaitingLoad, LoadAnswered(id, a)) =>
      if id != ctx.id || a.Panicked? then s.(phase := Rejected)
      else if a.Ok? then Probe(s, ctx.probeAttempts)
      else LoadRefused(ctx, s, a.error)
    case (Probing(left), Probed(id, a)) =>
      if id != ctx.id || left == 0 || a.Panicked? then s.(phase := Rejected)
      else if a == Ok(true) then s.(phase := Clearing(Success(()), Settle(Error)))
      else if a.Ok? then Probe(s, left - 1)
      else s.(phase := CleaningUp(a.error, true))
    case (CleaningUp(e, unresolved), Unloaded(id, a)) =>
      if id != ctx.id then s.(phase := Rejected)
      else if a.Ok? then Confirm(ctx, s, OfCleanup(e, unresolved), ctx.releaseAttempts)
      else AfterCleanup(ctx, s, e, unresolved, None)
    case (Clearing(result, failure), FenceCleared(io)) =>
      if io.Clears? then s.(phase := Done(result, failure))
      else
        s.(phase := Done(if result.Success? then Failure(Internal) else result,
                         RetainUnconfirmedLoad(PreviousNow(ctx, s))))
    case _ => s.(phase := Rejected)
  }

  /** A panic in the expected call kills the flow where it stands. */
  function StepFlow(ctx: FlowContext, s: FlowState, e: Event): FlowState {
    if Panics(e) && MayCall(ctx, s, e) then s.(phase := Dead) else Advance(ctx, s, e)
  }

  predicate MayCall(ctx: FlowContext, s: FlowState, e: Event) {
    match (s.phase, e)
    case (Evicting(_), Unloaded(id, _)) => |s.victimResults| < |ctx.victims| && id == ctx.victims[|s.victimResults|]
    case (Confirming(_, left), Sampled(_)) => left > 0
    case (InheritedStatus, Sampled(_)) => true
    case (InheritedProbe, Probed(id, _)) => id == ctx.id
    case (AwaitingLoad, LoadAnswered(id, _)) => id == ctx.id
    case (Probing(left), Probed(id, _)) => id == ctx.id && left > 0
    case (CleaningUp(_, _), Unloaded(id, _)) => id == ctx.id
    case _ => false
  }

  function RunFlow(ctx: FlowContext, trace: seq<Event>): FlowState
    decreases |trace|
  {
    if trace == [] then Start(ctx)
    else StepFlow(ctx, RunFlow(ctx, trace[..|trace| - 1]), trace[|trace| - 1])
  }

  // -------------------------------------------------------------- verdict

  function CreditGb(ctx: FlowContext, s: FlowState): real {
    if s.retried || ctx.previous.None? then 0.0 else ctx.previous.value.memoryGb
  }

  function PanickedVictims(victims: seq<string>): seq<VictimResult> {
    seq(|victims|, i requires 0 <= i < |victims| => VictimResult(victims[i], Failure(AdapterPanicked)))
  }

  predicate Finished(s: FlowState) { s.phase.Done? || s.phase.Dead? }

  /** What the task reports to the actor; a dead flow is reported by the wrapper that watched it. */
  function Report(ctx: FlowContext, s: FlowState): LoadOutcome
    requires Finished(s)
  {
    if s.phase.Dead? then
      LoadOutcome(Failure(AdapterPanicked), PanickedVictims(ctx.victims), None, 0.0,
                  RetainUnconfirmedLoad(ctx.previous))
    else
      LoadOutcome(s.phase.result, s.victimResults, s.aggregate, CreditGb(ctx, s), s.phase.failure)
  }
}
