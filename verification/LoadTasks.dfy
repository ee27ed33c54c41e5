/**
 * The background tasks of the supervisor, written as the program writes them and
 * run against an arbitrary engine: `script(n)` is what the n-th event of the task
 * finds. Every task keeps the trace of what it did.
 */
module LoadTasks {
  import opened Wrappers
  import opened Backend
  import opened Eviction
  import opened LoadFences
  import opened LoadFlow

  /** One reply for whichever call is made; a load fence removal has an I/O outcome. */
  datatype EngineReply = EngineReply(done: Answer<()>, status: Answer<BackendStatus>, ready: Answer<bool>,
                                     clear: ClearIo)
  type Script = nat -> EngineReply

  lemma RunFlowAppend(ctx: FlowContext, t: seq<Event>, e: Event)
    ensures RunFlow(ctx, t + [e]) == StepFlow(ctx, RunFlow(ctx, t), e)
  {
    assert (t + [e])[..|t|] == t;
  }

  // ----------------------------------------------------------------- polling

  /** Samples until the first evidence of release, the first panic, or the last attempt. */
  predicate IsPoll(polls: seq<Event>, targets: seq<string>, maxUsedGb: real, attempts: nat, r: Answer<BackendStatus>) {
    && |polls| <= attempts
    && (forall i :: 0 <= i < |polls| ==> polls[i].Sampled?)
    && (forall i :: 0 <= i < |polls| - 1 ==> !IsRelease(polls[i], targets, maxUsedGb) && !Panics(polls[i]))
    && match r
       case Ok(status) =>
         polls != [] && polls[|polls| - 1] == Sampled(Ok(status)) && ReleaseEvidence(status, targets, maxUsedGb)
       case Panicked => polls != [] && Panics(polls[|polls| - 1])
       case Err(e) =>
         && e.Internal? && |polls| == attempts
         && (polls != [] ==> !IsRelease(polls[|polls| - 1], targets, maxUsedGb) && !Panics(polls[|polls| - 1]))
  }

  method ConfirmMemoryReleased(script: Script, before: seq<Event>, targets: seq<string>, maxUsedGb: real, attempts: nat)
    returns (r: Answer<BackendStatus>, trace: seq<Event>, polls: seq<Event>)
    ensures trace == before + polls
    ensures IsPoll(polls, targets, maxUsedGb, attempts, r)
    ensures r.Ok? ==>
              && (forall id :: id in targets ==> id !in r.value.loaded)
              && 0.0 <= r.value.usedGb <= maxUsedGb + 0.000001
              && (r.value.usedGb == 0.0 ==> r.value.loaded == [])
    ensures r.Err? ==>
              && |polls| == attempts
              && forall i :: 0 <= i < attempts && polls[i].status.Ok? ==>
                   var seen := polls[i].status.value;
                   || (exists id :: id in targets && id in seen.loaded)
                   || seen.usedGb < 0.0 || seen.usedGb > maxUsedGb + 0.000001
                   || (seen.usedGb == 0.0 && seen.loaded != [])
  {
    trace, polls := before, [];
    for n := 0 to attempts
      invariant trace == before + polls
      invariant |polls| == n
      invariant forall i :: 0 <= i < |polls| ==> polls[i].Sampled?
      invariant forall i :: 0 <= i < |polls| ==> !IsRelease(polls[i], targets, maxUsedGb) && !Panics(polls[i])
    {
      var sample := script(|trace|).status;
      trace, polls := trace + [Sampled(sample)], polls + [Sampled(sample)];
      if sample.Panicked? {
        return Panicked, trace, polls;
      }
      if sample.Ok? && ReleaseEvidence(sample.value, targets, maxUsedGb) {
        return sample, trace, polls;
      }
    }
    return Err(Internal), trace, polls;
  }

  lemma SampleAdvances(ctx: FlowContext, before: seq<Event>, s: FlowState, what: Confirmation, left: nat, e: Event)
    requires left > 0 && RunFlow(ctx, before) == Confirm(ctx, s, what, left) && e.Sampled?
    ensures var after := RunFlow(ctx, before + [e]);
            if Panics(e) then after.phase.Dead?
            else if IsRelease(e, Targets(ctx, what), Limit(ctx, what)) then
              after == Confirmed(ctx, s, what, e.status.value)
            else after == Confirm(ctx, s, what, left - 1)
  {
    RunFlowAppend(ctx, before, e);
  }

  /** In the automaton a poll has the one effect its result calls for. */
  lemma {:induction false} PollAdvances(ctx: FlowContext, before: seq<Event>, s: FlowState, what: Confirmation,
                                        polls: seq<Event>, attempts: nat, r: Answer<BackendStatus>)
    requires RunFlow(ctx, before) == Confirm(ctx, s, what, attempts)
    requires IsPoll(polls, Targets(ctx, what), Limit(ctx, what), attempts, r)
    ensures match r
            case Ok(status) => RunFlow(ctx, before + polls) == Confirmed(ctx, s, what, status)
            case Err(_) => RunFlow(ctx, before + polls) == Unconfirmed(ctx, s, what)
            case Panicked => RunFlow(ctx, before + polls).phase.Dead?
    decreases |polls|
  {
    if polls == [] {
      assert before + polls == before;
    } else {
      var first, rest := polls[0], polls[1..];
      assert polls == [first] + rest;
      assert before + polls == (before + [first]) + rest;
      SampleAdvances(ctx, before, s, what, attempts, first);
      if |polls| == 1 {
        assert (before + [first]) + rest == before + [first];
      } else {
        PollAdvances(ctx, before + [first], s, what, rest, attempts - 1, r);
      }
    }
  }

  // -------------------------------------------------------------- load flow

  lemma CleanupAdvances(ctx: FlowContext, before: seq<Event>, s: FlowState, done: Answer<()>)
    requires RunFlow(ctx, before) == s && s.phase.CleaningUp?
    ensures var after := RunFlow(ctx, before + [Unloaded(ctx.id, done)]);
            match done
            case Ok(_) =>
              after == Confirm(ctx, s, OfCleanup(s.phase.error, s.phase.unresolved), ctx.releaseAttempts)
            case Err(_) => after == AfterCleanup(ctx, s, s.phase.error, s.phase.unresolved, None)
            case Panicked => after.phase.Dead?
  {
    RunFlowAppend(ctx, before, Unloaded(ctx.id, done));
  }

  method BestEffortRelease(script: Script, ctx: FlowContext, before: seq<Event>)
    returns (r: Answer<Option<BackendStatus>>, trace: seq<Event>)
    requires RunFlow(ctx, before).phase.CleaningUp?
    ensures !r.Err?
    ensures r.Panicked? ==> RunFlow(ctx, trace).phase.Dead?
    ensures var s := RunFlow(ctx, before);
            r.Ok? ==> RunFlow(ctx, trace) == AfterCleanup(ctx, s, s.phase.error, s.phase.unresolved, r.value)
  {
    ghost var s := RunFlow(ctx, before);
    var done := script(|before|).done;
    CleanupAdvances(ctx, before, s, done);
    trace := before + [Unloaded(ctx.id, done)];
    if done.Panicked? {
      return Panicked, trace;
    }
    if done.Err? {
      return Ok(None), trace;
    }
    var sample, polls;
    ghost var unloaded := trace;
    sample, trace, polls := ConfirmMemoryReleased(script, trace, [ctx.id], ctx.targetAbsentGb, ctx.releaseAttempts);
    PollAdvances(ctx, unloaded, s, OfCleanup(s.phase.error, s.phase.unresolved), polls, ctx.releaseAttempts, sample);
    match sample
    case Ok(status) => r := Ok(Some(status));
    case Err(_) => r := Ok(None);
    case Panicked => r := Panicked;
  }

  /** Lifts the marker; when that fails the outcome is kept as unconfirmed instead. */
  method ClearAndReport(script: Script, ctx: FlowContext, before: seq<Event>, previous: Option<PreviousModel>,
                        planned: LoadOutcome) returns (trace: seq<Event>, outcome: LoadOutcome)
    requires RunFlow(ctx, before).phase == Clearing(planned.result, planned.failure)
    requires previous == PreviousNow(ctx, RunFlow(ctx, before))
    requires planned.victimResults == RunFlow(ctx, before).victimResults
    requires planned.aggregateStatus == RunFlow(ctx, before).aggregate
    requires planned.aggregateTargetCreditGb == CreditGb(ctx, RunFlow(ctx, before))
    ensures RunFlow(ctx, trace).phase.Done? && outcome == Report(ctx, RunFlow(ctx, trace))
  {
    var io := script(|before|).clear;
    RunFlowAppend(ctx, before, FenceCleared(io));
    trace := before + [FenceCleared(io)];
    if io.Clears? {
      outcome := planned;
    } else {
      var result := if planned.result.Success? then Failure(Internal) else planned.result;
      outcome := planned.(result := result, failure := RetainUnconfirmedLoad(previous));
    }
  }

  method VerifyInherited(script: Script, ctx: FlowContext, before: seq<Event>)
    returns (r: Answer<bool>, trace: seq<Event>)
    requires RunFlow(ctx, before).phase.InheritedStatus?
    ensures match r
            case Ok(verified) =>
              RunFlow(ctx, trace)
              == if verified then RunFlow(ctx, before).(phase := ReadyToLoad)
                 else NotVerified(ctx, RunFlow(ctx, before))
            case Err(_) => false
            case Panicked => RunFlow(ctx, trace).phase.Dead?
  {
    var sample := script(|before|).status;
    RunFlowAppend(ctx, before, Sampled(sample));
    trace := before + [Sampled(sample)];
    if sample.Panicked? {
      return Panicked, trace;
    }
    if sample.Err? || !IdentityEvidence(ctx, sample.value) {
      return Ok(false), trace;
    }
    var ready := script(|trace|).ready;
    RunFlowAppend(ctx, trace, Probed(ctx.id, ready));
    trace := trace + [Probed(ctx.id, ready)];
    return if ready.Panicked? then Panicked else Ok(ready == Ok(true)), trace;
  }

  method CallLoad(script: Script, ctx: FlowContext, before: seq<Event>) returns (done: Answer<()>, trace: seq<Event>)
    requires RunFlow(ctx, before).phase.ReadyToLoad?
    ensures match done
            case Ok(_) => RunFlow(ctx, trace) == Probe(RunFlow(ctx, before), ctx.probeAttempts)
            case Err(e) => RunFlow(ctx, trace) == LoadRefused(ctx, RunFlow(ctx, before), e)
            case Panicked => RunFlow(ctx, trace).phase.Dead?
  {
    RunFlowAppend(ctx, before, LoadIssued(ctx.id, ctx.policy));
    trace := before + [LoadIssued(ctx.id, ctx.policy)];
    done := script(|trace|).done;
    RunFlowAppend(ctx, trace, LoadAnswered(ctx.id, done));
    trace := trace + [LoadAnswered(ctx.id, done)];
  }

  datatype Readiness = BecameReady | NeverReady(error: BackendError) | ProbePanicked

  lemma ProbeAdvances(ctx: FlowContext, trace: seq<Event>, s: FlowState, left: nat, ready: Answer<bool>)
    requires left > 0 && RunFlow(ctx, trace) == Probe(s, left)
    ensures var after := RunFlow(ctx, trace + [Probed(ctx.id, ready)]);
            match ready
            case Panicked => after.phase.Dead?
            case Err(e) => after == s.(phase := CleaningUp(e, true))
            case Ok(up) => after == if up then s.(phase := Clearing(Success(()), Settle(Error))) else Probe(s, left - 1)
  {
    RunFlowAppend(ctx, trace, Probed(ctx.id, ready));
  }

  method ProbeUntilReady(script: Script, ctx: FlowContext, before: seq<Event>, ghost s: FlowState)
    returns (r: Readiness, trace: seq<Event>)
    requires RunFlow(ctx, before) == Probe(s, ctx.probeAttempts)
    ensures match r
            case BecameReady => RunFlow(ctx, trace) == s.(phase := Clearing(Success(()), Settle(Error)))
            case NeverReady(e) => RunFlow(ctx, trace) == s.(phase := CleaningUp(e, true))
            case ProbePanicked => RunFlow(ctx, trace).phase.Dead?
  {
    trace := before;
    ghost var left := ctx.probeAttempts;
    for n := 0 to ctx.probeAttempts
      invariant left == ctx.probeAttempts - n && RunFlow(ctx, trace) == Probe(s, left)
    {
      var ready := script(|trace|).ready;
      ProbeAdvances(ctx, trace, s, left, ready);
      trace := trace + [Probed(ctx.id, ready)];
      left := left - 1;
      match ready
      case Panicked => return ProbePanicked, trace;
      case Err(e) => return NeverReady(e), trace;
      case Ok(up) =>
        if up {
          return BecameReady, trace;
        }
    }
    return NeverReady(ProbeTimedOut), trace;
  }

  /** Ends a flow whose target was accepted, lost or left over: clean up, then report what that can prove. */
  method CleanUpAndReport(script: Script, ctx: FlowContext, before: seq<Event>, previous: Option<PreviousModel>,
                          planned: LoadOutcome) returns (trace: seq<Event>, outcome: Option<LoadOutcome>)
    requires var s := RunFlow(ctx, before);
             && s.phase.CleaningUp? && planned.result == Failure(s.phase.error)
             && previous == PreviousNow(ctx, s)
             && planned.victimResults == s.victimResults && planned.aggregateStatus == s.aggregate
             && planned.aggregateTargetCreditGb == CreditGb(ctx, s)
             && planned.failure == if s.phase.unresolved then RetainUnconfirmedLoad(previous)
                else AfterRelease(previous)
    ensures Finished(RunFlow(ctx, trace))
    ensures outcome == if RunFlow(ctx, trace).phase.Dead? then None else Some(Report(ctx, RunFlow(ctx, trace)))
  {
    var sample;
    sample, trace := BestEffortRelease(script, ctx, before);
    if sample.Panicked? {
      return trace, None;
    }
    if planned.failure.RetainUnconfirmedLoad? {
      return trace, Some(planned);
    }
    var settled := if sample.value.Some? then planned.(failure := SettleReleased(sample.value.value)) else planned;
    var reported;
    trace, reported := ClearAndReport(script, ctx, trace, previous, settled);
    outcome := Some(reported);
  }

  /** The load itself, from the first victim's unload to the report. */
  method RunLoadFlow(script: Script, ctx: FlowContext) returns (trace: seq<Event>, outcome: Option<LoadOutcome>)
    ensures Finished(RunFlow(ctx, trace))
    ensures outcome == if RunFlow(ctx, trace).phase.Dead? then None else Some(Report(ctx, RunFlow(ctx, trace)))
  {
    trace := [];
    var results: seq<VictimResult>, failed := [], false;
    for i := 0 to |ctx.victims|
      invariant |results| == i
      invariant failed ==> i > 0
      invariant RunFlow(ctx, trace) == AfterVictims(ctx, FlowState(Dead, results, None, false), failed)
    {
      var done := script(|trace|).done;
      RunFlowAppend(ctx, trace, Unloaded(ctx.victims[i], done));
      trace := trace + [Unloaded(ctx.victims[i], done)];
      if done.Panicked? {
        return trace, None;
      }
      results := results + [VictimResult(ctx.victims[i], ToResult(done))];
      failed := failed || !done.Ok?;
    }
    var aggregate: Option<BackendStatus> := None;
    if ctx.victims != [] {
      ghost var evicted := trace;
      ghost var s := FlowState(Dead, results, None, false);
      var sample, polls;
      sample, trace, polls := ConfirmMemoryReleased(script, trace, ctx.victims, ctx.afterEvictionGb,
                                                    ctx.releaseAttempts);
      PollAdvances(ctx, evicted, s, OfEviction(failed), polls, ctx.releaseAttempts, sample);
      match sample {
        case Panicked =>
          return trace, None;
        case Ok(status) =>
          aggregate := Some(status);
        case Err(_) =>
          results := FailedVictims(results);
          failed := true;
      }
    }
    var outcome' := LoadOutcome(Failure(EvictionFailed), results, aggregate,
                                if ctx.previous.Some? then ctx.previous.value.memoryGb else 0.0,
                                RestoreOrStop(ctx.previous));
    if failed {
      trace, outcome' := ClearAndReport(script, ctx, trace, ctx.previous, outcome');
      return trace, Some(outcome');
    }
    if ctx.inherited {
      var verified;
      verified, trace := VerifyInherited(script, ctx, trace);
      if verified.Panicked? {
        return trace, None;
      }
      if !verified.value {
        trace, outcome' := ClearAndReport(script, ctx, trace, ctx.previous,
                                          outcome'.(result := Failure(ModelUnavailable)));
        return trace, Some(outcome');
      }
    }
    trace, outcome := LoadAndProbe(script, ctx, trace, results, aggregate);
  }

  /** From the first `load` on: at most one retry, and only after an OOM whose target is proved gone. */
  method LoadAndProbe(script: Script, ctx: FlowContext, before: seq<Event>, results: seq<VictimResult>,
                      evicted: Option<BackendStatus>) returns (trace: seq<Event>, outcome: Option<LoadOutcome>)
    requires RunFlow(ctx, before) == FlowState(ReadyToLoad, results, evicted, false)
    ensures Finished(RunFlow(ctx, trace))
    ensures outcome == if RunFlow(ctx, trace).phase.Dead? then None else Some(Report(ctx, RunFlow(ctx, trace)))
  {
    var previous, aggregate := ctx.previous, evicted;
    var creditGb := if ctx.previous.Some? then ctx.previous.value.memoryGb else 0.0;
    ghost var s := RunFlow(ctx, before);
    var attempt, reported;
    attempt, trace := CallLoad(script, ctx, before);
    if attempt == Err(Oom) {
      ghost var refused := trace;
      var release, polls;
      release, trace, polls := ConfirmMemoryReleased(script, trace, [ctx.id], ctx.targetAbsentGb, ctx.releaseAttempts);
      PollAdvances(ctx, refused, s, OfOomTarget, polls, ctx.releaseAttempts, release);
      match release {
        case Panicked =>
          return trace, None;
        case Err(_) =>
          trace, outcome := CleanUpAndReport(script, ctx, trace, previous,
            LoadOutcome(Failure(Oom), results, aggregate, creditGb, AfterRelease(previous)));
          return;
        case Ok(status) =>
          if ctx.inherited {
            trace, reported := ClearAndReport(script, ctx, trace, previous,
              LoadOutcome(Failure(Oom), results, aggregate, creditGb, SettleReleased(status)));
            return trace, Some(reported);
          }
          aggregate, creditGb, previous := Some(status), 0.0, None;
          s := RunFlow(ctx, trace);
          attempt, trace := CallLoad(script, ctx, trace);
      }
    }
    match attempt
    case Panicked =>
      return trace, None;
    case Err(e) =>
      var planned := LoadOutcome(Failure(e), results, aggregate, creditGb, RestoreOrStop(previous));
      if e.LoadPostconditionFailed? {
        trace, outcome := CleanUpAndReport(script, ctx, trace, previous, planned.(failure := AfterRelease(previous)));
      } else if LeavesLoadUnresolved(e) {
        trace, outcome := CleanUpAndReport(script, ctx, trace, previous,
                                           planned.(failure := RetainUnconfirmedLoad(previous)));
      } else {
        trace, reported := ClearAndReport(script, ctx, trace, previous, planned);
        outcome := Some(reported);
      }
    case Ok(_) =>
      var ready;
      ready, trace := ProbeUntilReady(script, ctx, trace, s);
      match ready {
        case ProbePanicked =>
          outcome := None;
        case BecameReady =>
          trace, reported := ClearAndReport(script, ctx, trace, previous,
            LoadOutcome(Success(()), results, aggregate, creditGb, Settle(Error)));
          outcome := Some(reported);
        case NeverReady(e) =>
          trace, outcome := CleanUpAndReport(script, ctx, trace, previous,
            LoadOutcome(Failure(e), results, aggregate, creditGb, RetainUnconfirmedLoad(previous)));
      }
  }

  /** The watcher around a flow: a panic becomes a report that keeps everything charged. */
  method RunLoadTask(script: Script, ctx: FlowContext) returns (trace: seq<Event>, outcome: LoadOutcome)
    ensures Finished(RunFlow(ctx, trace)) && outcome == Report(ctx, RunFlow(ctx, trace))
  {
    var finished;
    trace, finished := RunLoadFlow(script, ctx);
    if finished.Some? {
      outcome := finished.value;
    } else {
      outcome := LoadOutcome(Failure(AdapterPanicked), PanickedVictims(ctx.victims), None, 0.0,
                             RetainUnconfirmedLoad(ctx.previous));
    }
  }

  // ------------------------------------------------------------ unload task

  datatype UnloadOutcome = UnloadOutcome(result: Result<(), BackendError>, status: Option<BackendStatus>)

  /** One unload, then a release that must be proved before any capacity is freed. */
  predicate IsUnloadRun(trace: seq<Event>, id: string, maxUsedGb: real, attempts: nat, o: UnloadOutcome) {
    && trace != [] && trace[0].Unloaded? && trace[0].id == id
    && match trace[0].done
       case Ok(_) =>
         var r := PollEnd(o);
         IsPoll(trace[1..], [id], maxUsedGb, attempts, r) && o == UnloadEnd(r)
       case Err(e) => |trace| == 1 && o == UnloadOutcome(Failure(e), None)
       case Panicked => |trace| == 1 && o == UnloadOutcome(Failure(AdapterPanicked), None)
  }

  function UnloadEnd(r: Answer<BackendStatus>): UnloadOutcome {
    match r
    case Ok(status) => UnloadOutcome(Success(()), Some(status))
    case Err(e) => UnloadOutcome(Failure(e), None)
    case Panicked => UnloadOutcome(Failure(AdapterPanicked), None)
  }

  /** The poll that ended so. */
  function PollEnd(o: UnloadOutcome): Answer<BackendStatus> {
    if o.status.Some? then Ok(o.status.value)
    else if o.result == Failure(AdapterPanicked) then Panicked
    else Err(Internal)
  }

  method RunUnloadTask(script: Script, id: string, maxUsedGb: real, attempts: nat)
    returns (trace: seq<Event>, outcome: UnloadOutcome)
    ensures IsUnloadRun(trace, id, maxUsedGb, attempts, outcome)
    ensures outcome.result.Success? <==> outcome.status.Some?
    ensures outcome.status.Some? ==> id !in outcome.status.value.loaded
  {
    var done := script(0).done;
    trace := [Unloaded(id, done)];
    match done
    case Panicked =>
      outcome := UnloadOutcome(Failure(AdapterPanicked), None);
    case Err(e) =>
      outcome := UnloadOutcome(Failure(e), None);
    case Ok(_) =>
      var sample, polls;
      sample, trace, polls := ConfirmMemoryReleased(script, trace, [id], maxUsedGb, attempts);
      assert trace[1..] == polls;
      match sample {
        case Ok(status) => outcome := UnloadOutcome(Success(()), Some(status));
        case Err(e) => outcome := UnloadOutcome(Failure(e), None);
        case Panicked => outcome := UnloadOutcome(Failure(AdapterPanicked), None);
      }
  }
}
