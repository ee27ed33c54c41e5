/**
 * Whole runs of the actor, from any startup and in any order of messages:
 * lifecycle, chats, waiters, order of use, and loads that stay unconfirmed.
 */
module ActorRuns {
  import opened Wrappers
  import opened Backend
  import opened CapacityUnits
  import opened LoadPolicies
  import opened LoadFences
  import opened LoadFlow
  import opened LoadFlowFacts
  import opened Actor
  import opened ActorInvariant

  // -------------------------------------------------------------- lifecycle

  /** The transient states belong to the operation in progress, and to nothing else. */
  lemma LifecycleIsExact(st: State, k: string)
    requires Inv(st) && k in st.models
    ensures !st.models[k].state.Launching?
    ensures st.models[k].state.Loading? <==> IsLoadTarget(st, k)
    ensures st.models[k].state.Stopping? <==> IsUnloadTarget(st, k) || IsVictim(st, k)
    ensures st.active.None? ==> !st.models[k].state.Loading? && !st.models[k].state.Stopping?
  {
    if st.poisoned.None? { assert SlotFits(st, k, st.models[k]); }
  }

  /** The models the task now running may ask the engine to unload. */
  predicate MayBeUnloaded(st: State, k: string) {
    && st.task.Some?
    && match st.task.value
       case LoadTask(ctx) => k == ctx.id || k in ctx.victims
       case UnloadTask(id, _) => k == id
  }

  /** No chat is ever cut off: whatever may be unloaded has none in flight and takes none. */
  lemma UnloadsRunIdle(st: State, k: string, permit: bool)
    requires Inv(st) && MayBeUnloaded(st, k)
    ensures k in st.models && st.models[k].inflight == 0 && st.chats[k] == 0
    ensures HandleChat(st, k, permit) == st
  {
    assert st.poisoned.None? && SlotFits(st, k, st.models[k]);
  }

  /** `inflight` counts the chats in flight, and is positive only while Ready or while an unload drains. */
  lemma InflightCountsChats(st: State, k: string)
    requires Inv(st) && st.poisoned.None? && k in st.models
    ensures st.models[k].inflight == st.chats[k]
    ensures st.models[k].inflight > 0 ==> st.models[k].state.Ready? || Draining(st, k)
  {
    assert SlotFits(st, k, st.models[k]);
  }

  /** The decrement never saturates. */
  lemma ChatDoneCountsDown(st: State, id: string)
    requires Inv(st) && st.poisoned.None? && id in st.chats
    ensures id in st.models && st.models[id].inflight > 0
    ensures HandleChatDone(st, id).models[id].inflight == st.models[id].inflight - 1
  {
    assert SlotFits(st, id, st.models[id]);
  }

  /** While an operation is active, another request is answered or joins it, and touches nothing else. */
  lemma BusyActorOnlyAnswers(st: State, m: Message)
    requires Enabled(st, m) && st.active.Some? && (m.Load? || m.Unload?)
    ensures var after := Step(st, m);
            && after == st.(asked := after.asked, replies := after.replies, active := after.active)
            && after.active.Some? && after.active.value.id == st.active.value.id
            && (after.active == st.active || after.active == Join(st, m.req).active)
  {
    match m
    case Load(req, id, gb, policy, allow, order, beginIo, clearIo) =>
      var asked := st.(asked := st.asked[req := LoadRequest(id, gb, policy, allow)]);
      assert !LoadGate(asked, id, gb, policy, allow).Proceeds?;
    case Unload(req, id) =>
      var asked := st.(asked := st.asked[req := UnloadRequest(id)]);
      assert !UnloadGate(asked, id).Proceeds?;
  }

  /** Once an unload drains, each chat that ends brings it closer and nothing sets it back. */
  lemma DrainOnlyFalls(st: State, m: Message, k: string)
    requires Inv(st) && Enabled(st, m) && Draining(st, k)
    ensures var after := Step(st, m);
            && k in after.models && IsUnloadTarget(after, k)
            && after.models[k].inflight == st.models[k].inflight - (if m == ChatDone(k) then 1 else 0)
            && (after.models[k].inflight == 0 <==> !Draining(after, k))
  {
    assert SlotFits(st, k, st.models[k]);
    if m.Load? || m.Unload? {
      BusyActorOnlyAnswers(st, m);
    } else if m.ChatDone? {
      assert SlotFits(st, m.id, st.models[m.id]);
    }
  }

  // ---------------------------------------------------------------- waiters

  function ReqIds(replies: seq<Reply>): seq<nat> {
    seq(|replies|, i requires 0 <= i < |replies| => replies[i].req)
  }

  function RequestOf(op: ActiveOp): Request {
    match op.kind
    case ActiveLoad(policy, gb, allow, _) => LoadRequest(op.id, gb, policy, allow)
    case ActiveUnload(_, _) => UnloadRequest(op.id)
  }

  /** Every load or unload request is answered once or waits once, and waits only on the very operation it asked for. */
  ghost predicate RepliesFit(st: State) {
    && multiset(ReqIds(st.replies)) + multiset(Waiters(st)) == multiset(st.asked.Keys)
    && forall w :: w in Waiters(st) ==> w in st.asked && st.asked[w] == RequestOf(st.active.value)
  }

  /** `b` has one more request than `a`, answered. */
  lemma AnsweredFits(a: State, b: State, req: nat, request: Request, result: Result<(), BackendError>)
    requires RepliesFit(a) && req !in a.asked
    requires b.asked == a.asked[req := request] && b.active == a.active && b.replies == a.replies + [Reply(req, result)]
    ensures RepliesFit(b)
  {
    assert ReqIds(b.replies) == ReqIds(a.replies) + [req];
    assert b.asked.Keys == a.asked.Keys + {req};
    assert multiset(b.asked.Keys) == multiset(a.asked.Keys) + multiset{req};
  }

  /** `b` has one more request than `a`, waiting. */
  lemma WaitingFits(a: State, b: State, req: nat, request: Request)
    requires RepliesFit(a) && req !in a.asked
    requires b.asked == a.asked[req := request] && b.replies == a.replies
    requires b.active.Some? && RequestOf(b.active.value) == request && Waiters(b) == Waiters(a) + [req]
    requires a.active.Some? ==> RequestOf(a.active.value) == request
    ensures RepliesFit(b)
  {
    assert b.asked.Keys == a.asked.Keys + {req};
    assert multiset(b.asked.Keys) == multiset(a.asked.Keys) + multiset{req};
    assert multiset(Waiters(b)) == multiset(Waiters(a)) + multiset{req};
  }

  predicate SameRecords(a: State, b: State) {
    a.asked == b.asked && a.replies == b.replies && a.active == b.active
  }

  /** Capacity calls touch the ledger and this runtime's claim, nothing else. */
  predicate OnlyLedger(a: State, b: State) { b == a.(ledger := b.ledger, claim := b.claim) }

  lemma ClaimTouchesOnlyLedger(st: State, plannedGb: real, plannedCharge: Option<U128>, allow: bool)
    ensures OnlyLedger(st, ClaimCapacity(st, plannedGb, plannedCharge, allow).0)
  {
  }

  lemma SettleTouchesOnlyLedger(st: State)
    ensures OnlyLedger(st, SettleCapacity(st).0)
  {
    match st.claim
    case Untracked =>
    case Exact(current) => assert OnlyLedger(st, SettleExact(st, current).0);
    case Legacy(gb) => assert OnlyLedger(st, SettleLegacy(st, gb).0);
  }

  lemma AdmittedFits(st: State, req: nat, request: Request, id: string, gb: real, policy: LoadPolicy, allow: bool,
                     plan: LoadPlan, beginIo: BeginIo, clearIo: ClearIo)
    requires RepliesFit(st) && req !in st.asked && st.active.None? && request == LoadRequest(id, gb, policy, allow)
    ensures RepliesFit(AdmitLoad(st.(asked := st.asked[req := request]), req, id, gb, policy, allow, plan, beginIo,
                                 clearIo))
  {
    var asked := st.(asked := st.asked[req := request]);
    var begun := BeginStep(asked.marker, beginIo);
    var fenced := asked.(marker := begun.marker);
    var after := AdmitLoad(asked, req, id, gb, policy, allow, plan, beginIo, clearIo);
    if !begun.ok {
      AnsweredFits(st, after, req, request, Failure(Internal));
    } else {
      ClaimTouchesOnlyLedger(fenced, plan.plannedGb, plan.plannedCharge, allow);
      var (claimed, result) := ClaimCapacity(fenced, plan.plannedGb, plan.plannedCharge, allow);
      if result.Success? {
        WaitingFits(st, after, req, request);
      } else {
        var answer := if ClearStep(claimed.marker, clearIo).ok then result else Failure(Internal);
        AnsweredFits(st, after, req, request, answer);
      }
    }
  }

  lemma LoadFits(st: State, req: nat, id: string, gb: real, policy: LoadPolicy, allow: bool,
                 order: seq<string>, beginIo: BeginIo, clearIo: ClearIo)
    requires RepliesFit(st) && req !in st.asked
    ensures RepliesFit(HandleLoad(st.(asked := st.asked[req := LoadRequest(id, gb, policy, allow)]), req, id, gb,
                                  policy, allow, order, beginIo, clearIo))
  {
    var request := LoadRequest(id, gb, policy, allow);
    var asked := st.(asked := st.asked[req := request]);
    match LoadGate(asked, id, gb, policy, allow)
    case Answered(result) => AnsweredFits(st, AnswerTo(asked, req, result), req, request, result);
    case Joins => WaitingFits(st, Join(asked, req), req, request);
    case Proceeds =>
      GateProceeds(asked, id, gb, policy, allow);
      match PlanLoad(asked, id, gb, order) {
        case Failure(e) => AnsweredFits(st, AnswerTo(asked, req, Failure(e)), req, request, Failure(e));
        case Success(plan) => AdmittedFits(st, req, request, id, gb, policy, allow, plan, beginIo, clearIo);
      }
  }

  lemma UnloadFits(st: State, req: nat, id: string)
    requires RepliesFit(st) && req !in st.asked
    ensures RepliesFit(HandleUnload(st.(asked := st.asked[req := UnloadRequest(id)]), req, id))
  {
    var asked := st.(asked := st.asked[req := UnloadRequest(id)]);
    var after := HandleUnload(asked, req, id);
    match UnloadGate(asked, id)
    case Answered(result) => AnsweredFits(st, after, req, UnloadRequest(id), result);
    case Joins => WaitingFits(st, after, req, UnloadRequest(id));
    case Proceeds => WaitingFits(st, after, req, UnloadRequest(id));
  }

  lemma ReleasedFits(a: State, b: State, result: Result<(), BackendError>)
    requires RepliesFit(a) && b.asked == a.asked && b.active.None?
             && b.replies == a.replies + RepliesTo(Waiters(a), result)
    ensures RepliesFit(b)
  {
    assert ReqIds(b.replies) == ReqIds(a.replies) + Waiters(a);
  }

  /** How an operation ends: one result for all who waited, poison exactly when capacity could not be settled. */
  lemma ConcludeAnswersAlike(st: State, result: Result<(), BackendError>)
    requires st.active.Some?
    ensures var after := Conclude(st, result);
            var answer := if SettleCapacity(st).1.Failure? then Failure(InvariantViolation) else result;
            && after.active.None? && after.asked == st.asked
            && after.replies == st.replies + RepliesTo(Waiters(st), answer)
            && (after.poisoned
                == if SettleCapacity(st).1.Failure? then Some(CapacityMismatch) else SettleCapacity(st).0.poisoned)
  {
    SettleTouchesOnlyLedger(st);
  }

  lemma AppliedRecords(st: State, id: string, o: LoadOutcome)
    requires id in st.models
    ensures var after := ApplyLoadOutcome(st, id, o);
            SameRecords(st, after) && after.marker == st.marker
  {
  }

  lemma ReportsFit(st: State, m: Message)
    requires Inv(st) && RepliesFit(st) && Enabled(st, m) && (m.LoadReported? || m.UnloadReported?)
    ensures RepliesFit(Step(st, m))
    ensures Step(st, m).active.None?
  {
    if m.LoadReported? {
      var ctx := st.task.value.ctx;
      var o := Report(ctx, RunFlow(ctx, m.trace));
      var ended := st.(marker := MarkerAfter(st.marker, m.trace), task := None);
      ReportFitsContext(ctx, m.trace);
      ReportedAreKnown(st, ctx, o);
      AppliedRecords(ended, ctx.id, o);
      var applied := ApplyLoadOutcome(ended, ctx.id, o);
      ConcludeAnswersAlike(applied, o.result);
      var answer := if SettleCapacity(applied).1.Failure? then Failure(InvariantViolation) else o.result;
      ReleasedFits(st, Step(st, m), answer);
    } else {
      var id := st.task.value.id;
      var applied := ApplyUnloadOutcome(st.(task := None), id, m.outcome);
      ConcludeAnswersAlike(applied, m.outcome.result);
      var answer := if SettleCapacity(applied).1.Failure? then Failure(InvariantViolation) else m.outcome.result;
      ReleasedFits(st, Step(st, m), answer);
    }
  }

  lemma LoadMessageFits(st: State, m: Message)
    requires RepliesFit(st) && Enabled(st, m) && m.Load?
    ensures RepliesFit(Step(st, m))
  {
    if Refusal(st).Some? {
      AnsweredFits(st, Step(st, m), m.req, LoadRequest(m.id, m.gb, m.policy, m.allow), Failure(Refusal(st).value));
    } else {
      LoadFits(st, m.req, m.id, m.gb, m.policy, m.allow, m.order, m.beginIo, m.clearIo);
    }
  }

  lemma UnloadMessageFits(st: State, m: Message)
    requires RepliesFit(st) && Enabled(st, m) && m.Unload?
    ensures RepliesFit(Step(st, m))
  {
    if Refusal(st).Some? {
      AnsweredFits(st, Step(st, m), m.req, UnloadRequest(m.id), Failure(Refusal(st).value));
    } else {
      UnloadFits(st, m.req, m.id);
    }
  }

  lemma ChatDoneRecords(st: State, id: string)
    ensures var after := HandleChatDone(st, id);
            && after.asked == st.asked && after.replies == st.replies && Waiters(after) == Waiters(st)
            && (st.active.None? <==> after.active.None?)
            && (st.active.Some? ==> RequestOf(after.active.value) == RequestOf(st.active.value))
  {
  }

  lemma OtherMessageFits(st: State, m: Message)
    requires RepliesFit(st) && Enabled(st, m) && (m.Chat? || m.ChatDone? || m.OtherOwner?)
    ensures RepliesFit(Step(st, m))
  {
    if m.ChatDone? {
      ChatDoneRecords(st, m.id);
    } else {
      assert SameRecords(st, Step(st, m));
    }
  }

  lemma StepKeepsReplies(st: State, m: Message)
    requires Inv(st) && RepliesFit(st) && Enabled(st, m)
    ensures RepliesFit(Step(st, m))
  {
    match m
    case Load(_, _, _, _, _, _, _, _) => LoadMessageFits(st, m);
    case Unload(_, _) => UnloadMessageFits(st, m);
    case LoadReported(_) => ReportsFit(st, m);
    case UnloadReported(_, _) => ReportsFit(st, m);
    case _ => OtherMessageFits(st, m);
  }
}
