/**
 * What an answer means: whoever is told that a load or an unload succeeded is told
 * the truth about the actor's state at that moment.
 */
module ActorReplies {
  import opened Wrappers
  import opened Backend
  import opened LoadFences
  import opened LoadFlow
  import opened LoadFlowFacts
  import opened LoadVerdict
  import opened Actor
  import opened ActorInvariant
  import opened ActorRuns
  import opened ActorHistory

  /** What a caller reads into a success. */
  predicate IsDone(models: Models, request: Request) {
    match request
    case LoadRequest(id, _, policy, _) => id in models && models[id].state.Ready? && models[id].policy == policy
    case UnloadRequest(id) => id in models && models[id].state.Stopped?
  }

  /** Every success among `b`'s replies since `a` is true of `b`. */
  ghost predicate NewSuccessesAreTrue(a: State, b: State) {
    && a.replies <= b.replies
    && forall r :: r in b.replies[|a.replies|..] && r.result.Success? ==>
         r.req in b.asked && IsDone(b.models, b.asked[r.req])
  }

  lemma OneAnswer(a: State, b: State, req: nat, result: Result<(), BackendError>)
    requires b.replies == a.replies + [Reply(req, result)]
    requires result.Success? ==> req in b.asked && IsDone(b.models, b.asked[req])
    ensures NewSuccessesAreTrue(a, b)
  {
    assert b.replies[|a.replies|..] == [Reply(req, result)];
  }

  lemma NoAnswer(a: State, b: State)
    requires b.replies == a.replies
    ensures NewSuccessesAreTrue(a, b)
  {
  }

  lemma AdmitAnswersOnlyFailures(st: State, a: State, m: Message, plan: LoadPlan)
    requires m.Load? && st.replies == a.replies
    ensures NewSuccessesAreTrue(a, AdmitLoad(st, m.req, m.id, m.gb, m.policy, m.allow, plan, m.beginIo, m.clearIo))
  {
    var after := AdmitLoad(st, m.req, m.id, m.gb, m.policy, m.allow, plan, m.beginIo, m.clearIo);
    var fenced := st.(marker := BeginStep(st.marker, m.beginIo).marker);
    ClaimTouchesOnlyLedger(fenced, plan.plannedGb, plan.plannedCharge, m.allow);
    if after.replies == st.replies {
      NoAnswer(a, after);
    } else {
      OneAnswer(a, after, m.req, after.replies[|after.replies| - 1].result);
    }
  }

  lemma LoadAnswersTruly(st: State, m: Message)
    requires Enabled(st, m) && m.Load?
    ensures NewSuccessesAreTrue(st, Step(st, m))
  {
    var asked := st.(asked := st.asked[m.req := LoadRequest(m.id, m.gb, m.policy, m.allow)]);
    var after := Step(st, m);
    if Refusal(st).Some? {
      OneAnswer(st, after, m.req, Failure(Refusal(st).value));
    } else {
      match LoadGate(asked, m.id, m.gb, m.policy, m.allow)
      case Answered(result) => OneAnswer(st, after, m.req, result);
      case Joins => NoAnswer(st, after);
      case Proceeds =>
        var planned := PlanLoad(asked, m.id, m.gb, m.order);
        match planned {
          case Failure(e) => OneAnswer(st, after, m.req, Failure(e));
          case Success(plan) => AdmitAnswersOnlyFailures(asked, st, m, plan);
        }
    }
  }

  lemma UnloadAnswersTruly(st: State, m: Message)
    requires Enabled(st, m) && m.Unload?
    ensures NewSuccessesAreTrue(st, Step(st, m))
  {
    var asked := st.(asked := st.asked[m.req := UnloadRequest(m.id)]);
    var after := Step(st, m);
    if Refusal(st).Some? {
      OneAnswer(st, after, m.req, Failure(Refusal(st).value));
    } else {
      match UnloadGate(asked, m.id)
      case Answered(result) => OneAnswer(st, after, m.req, result);
      case Joins => NoAnswer(st, after);
      case Proceeds => NoAnswer(st, after);
    }
  }

  /** The waiters of an operation that ends are told what their common request came to. */
  lemma WaitersHearTheTruth(a: State, b: State, result: Result<(), BackendError>)
    requires RepliesFit(a) && b.asked == a.asked && b.replies == a.replies + RepliesTo(Waiters(a), result)
    requires result.Success? && a.active.Some? ==> IsDone(b.models, RequestOf(a.active.value))
    ensures NewSuccessesAreTrue(a, b)
  {
    assert b.replies[|a.replies|..] == RepliesTo(Waiters(a), result);
    forall r | r in RepliesTo(Waiters(a), result) && r.result.Success?
      ensures r.req in b.asked && IsDone(b.models, b.asked[r.req])
    {
      var i :| 0 <= i < |Waiters(a)| && RepliesTo(Waiters(a), result)[i] == r;
      assert Waiters(a)[i] in Waiters(a);
    }
  }

  lemma LoadReportAnswersTruly(st: State, m: Message)
    requires Inv(st) && RepliesFit(st) && Enabled(st, m) && m.LoadReported?
    ensures NewSuccessesAreTrue(st, Step(st, m))
  {
    var ctx := st.task.value.ctx;
    var o := Report(ctx, RunFlow(ctx, m.trace));
    var ended := st.(marker := MarkerAfter(st.marker, m.trace), task := None);
    var applied := ApplyLoadOutcome(ended, ctx.id, o);
    ReportFitsContext(ctx, m.trace);
    ReportedAreKnown(st, ctx, o);
    AppliedRecords(ended, ctx.id, o);
    ReportedTarget(st, m.trace);
    assert SlotFits(st, ctx.id, st.models[ctx.id]);
    ConcludeAnswersAlike(applied, o.result);
    var answer := if SettleCapacity(applied).1.Failure? then Failure(InvariantViolation) else o.result;
    WaitersHearTheTruth(st, Step(st, m), answer);
  }

  lemma UnloadReportAnswersTruly(st: State, m: Message)
    requires Inv(st) && RepliesFit(st) && Enabled(st, m) && m.UnloadReported?
    ensures NewSuccessesAreTrue(st, Step(st, m))
  {
    var id := st.task.value.id;
    var applied := ApplyUnloadOutcome(st.(task := None), id, m.outcome);
    ConcludeAnswersAlike(applied, m.outcome.result);
    ConcludeKeepsModels(applied, m.outcome.result);
    var answer := if SettleCapacity(applied).1.Failure? then Failure(InvariantViolation) else m.outcome.result;
    WaitersHearTheTruth(st, Step(st, m), answer);
  }

  /** A success is only ever reported of a model that then is Ready under the policy asked for, or Stopped. */
  lemma SuccessMeansDone(st: State, m: Message)
    requires AllInv(st) && Enabled(st, m)
    ensures NewSuccessesAreTrue(st, Step(st, m))
  {
    match m
    case Load(_, _, _, _, _, _, _, _) => LoadAnswersTruly(st, m);
    case Unload(_, _) => UnloadAnswersTruly(st, m);
    case LoadReported(_) => LoadReportAnswersTruly(st, m);
    case UnloadReported(_, _) => UnloadReportAnswersTruly(st, m);
    case ChatDone(id) => ChatDoneRecords(st, id);
    case _ => NoAnswer(st, Step(st, m));
  }

  /** The result every waiter of a finished operation is told, read off its trace. */
  function ResultOf(st: State, m: Message): Result<(), BackendError>
    requires Enabled(st, m) && (m.LoadReported? || m.UnloadReported?)
  {
    match m
    case LoadReported(trace) => Judged(st.task.value.ctx, Read(st.task.value.ctx, trace)).result
    case UnloadReported(_, outcome) => outcome.result
  }

  lemma ConcludeIsHeard(st: State, result: Result<(), BackendError>)
    requires st.active.Some? && st.poisoned.None?
    ensures var after := Conclude(st, result);
            after.replies
            == st.replies + RepliesTo(Waiters(st), if after.poisoned.Some? then Failure(InvariantViolation) else result)
  {
    ConcludeAnswersAlike(st, result);
    SettleTouchesOnlyLedger(st);
  }

  lemma LoadReportIsHeard(st: State, m: Message)
    requires Inv(st) && Enabled(st, m) && m.LoadReported?
    ensures var after := Step(st, m);
            var result := Report(st.task.value.ctx, RunFlow(st.task.value.ctx, m.trace)).result;
            after.replies
            == st.replies + RepliesTo(Waiters(st), if after.poisoned.Some? then Failure(InvariantViolation) else result)
  {
    var ctx := st.task.value.ctx;
    var o := Report(ctx, RunFlow(ctx, m.trace));
    var ended := st.(marker := MarkerAfter(st.marker, m.trace), task := None);
    ReportFitsContext(ctx, m.trace);
    ReportedAreKnown(st, ctx, o);
    AppliedRecords(ended, ctx.id, o);
    AppliedSlots(ended, ctx.id, o, ctx.id);
    ConcludeIsHeard(ApplyLoadOutcome(ended, ctx.id, o), o.result);
  }

  /** All who waited hear that one result, unless the operation's end could not be accounted for. */
  lemma ReportIsHeard(st: State, m: Message)
    requires Inv(st) && Enabled(st, m) && (m.LoadReported? || m.UnloadReported?)
    ensures var after := Step(st, m);
            after.replies
            == st.replies + RepliesTo(Waiters(st), if after.poisoned.Some? then Failure(InvariantViolation)
                                                   else ResultOf(st, m))
  {
    if m.LoadReported? {
      assert WellFormed(st.task.value.ctx);
      ReportIsJudged(st.task.value.ctx, m.trace);
      LoadReportIsHeard(st, m);
    } else {
      ConcludeIsHeard(ApplyUnloadOutcome(st.(task := None), st.task.value.id, m.outcome), m.outcome.result);
    }
  }
}
