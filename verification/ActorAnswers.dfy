/**
 * Which request hears what: the answer to a load, an unload or a chat as a condition
 * on the state it finds, and that a request which is turned away changes nothing.
 */
module ActorAnswers {
  import opened Wrappers
  import opened Backend
  import opened LoadPolicies
  import opened Eviction
  import opened LoadFences
  import opened Actor
  import opened ActorInvariant
  import opened ActorRuns
  import opened ActorSums
  import opened ActorCapacity
  import opened ActorAdmission
  import L = CapacityLedger

  /** One reply was sent, to `req`. */
  predicate Hears(st: State, after: State, req: nat, result: Result<(), BackendError>) {
    after.replies == st.replies + [Reply(req, result)]
  }

  predicate Listed(st: State, id: string, state: ModelState) { id in st.models && st.models[id].state == state }

  predicate IsUnconfirmed(st: State, id: string) { id in st.models && st.models[id].loadUnconfirmed }

  predicate ReadyUnder(st: State, id: string, policy: LoadPolicy) {
    Listed(st, id, Ready) && st.models[id].policy == policy
  }

  // ------------------------------------------------------------------- load

  /** The operation in progress is the very load that is asked for. */
  predicate SameLoad(st: State, m: Message)
    requires m.Load?
  {
    st.active.Some? && st.active.value.id == m.id
    && match st.active.value.kind
       case ActiveLoad(policy, gb, allow, _) => policy == m.policy && gb == m.gb && allow == m.allow
       case ActiveUnload(_, _) => false
  }

  /** What a load may hear once no operation and no chat stands in its way. */
  predicate PlanningError(e: BackendError) {
    e in {EvictionImpossible, InvalidRequest, InvariantViolation, Internal, Oom, HeadroomConfirmationRequired}
  }

  lemma LedgerErrors(l: L.Ledger, op: L.Op)
    ensures var r := L.Apply(l, op).result;
            r.Failure? ==> r.error in {InvalidRequest, InvariantViolation, Oom, HeadroomConfirmationRequired}
  {
  }

  lemma ClaimErrors(st: State, plan: LoadPlan, allow: bool)
    ensures var r := ClaimCapacity(st, plan.plannedGb, plan.plannedCharge, allow).1;
            r.Failure? ==> r.error in {InvalidRequest, InvariantViolation, Oom, HeadroomConfirmationRequired}
  {
    match st.claim
    case Untracked =>
    case Exact(current) =>
      if plan.plannedCharge.Some? {
        LedgerErrors(st.ledger, L.ClaimCharge(st.settings.ledgerKey, current, plan.plannedCharge.value, allow));
      }
    case Legacy(gb) =>
      LedgerErrors(st.ledger, L.Resize(st.settings.ledgerKey, Some(gb), Some(MaxReal(gb, plan.plannedGb))));
  }

  lemma PlanErrors(st: State, id: string, gb: real, order: seq<string>)
    ensures var r := PlanLoad(st, id, gb, order);
            r.Failure? ==> r.error in {EvictionImpossible, InvalidRequest, InvariantViolation}
  {
    CreditIsSum(st.keys, st.models, st.covered);
  }

  /** Past the gate a load starts, or hears why it could not be planned, marked or claimed. */
  lemma ProceedingHears(st: State, m: Message)
    requires m.Load? && st.active.None?
    ensures var after := ProceedLoad(st, m.req, m.id, m.gb, m.policy, m.allow, PlanLoad(st, m.id, m.gb, m.order),
                                     m.beginIo, m.clearIo);
            || (after.active.Some? && after.replies == st.replies)
            || (after.active.None? && exists e :: PlanningError(e) && Hears(st, after, m.req, Failure(e)))
  {
    var planned := PlanLoad(st, m.id, m.gb, m.order);
    PlanErrors(st, m.id, m.gb, m.order);
    if planned.Success? {
      AdmittingHears(st, m, planned.value);
    } else {
      assert PlanningError(planned.error);
    }
  }

  lemma AdmittingHears(st: State, m: Message, plan: LoadPlan)
    requires m.Load? && st.active.None?
    ensures var after := AdmitLoad(st, m.req, m.id, m.gb, m.policy, m.allow, plan, m.beginIo, m.clearIo);
            || (after.active.Some? && after.replies == st.replies)
            || (after.active.None? && exists e :: PlanningError(e) && Hears(st, after, m.req, Failure(e)))
  {
    var fenced := st.(marker := BeginStep(st.marker, m.beginIo).marker);
    ClaimErrors(fenced, plan, m.allow);
    ClaimTouchesOnlyLedger(fenced, plan.plannedGb, plan.plannedCharge, m.allow);
    assert PlanningError(Internal);
  }

  lemma OneAnswer(st: State, after: State, req: nat, a: Result<(), BackendError>, b: Result<(), BackendError>)
    requires Hears(st, after, req, a)
    ensures Hears(st, after, req, b) <==> a == b
  {
    assert after.replies[|st.replies|] == Reply(req, a);
    if Hears(st, after, req, b) {
      assert (st.replies + [Reply(req, b)])[|st.replies|] == Reply(req, b);
    }
  }

  /** What the gate makes of a load, in terms of the state. */
  predicate GateHears(st: State, after: State, m: Message)
    requires m.Load?
  {
    var unavailable := m.gb >= 0.0 && IsUnconfirmed(st, m.id);
    var ready := m.gb >= 0.0 && ReadyUnder(st, m.id, m.policy);
    var busy := m.gb >= 0.0 && !unavailable && !ready && (st.chats[m.id] > 0 || (st.active.Some? && !SameLoad(st, m)));
    && (Hears(st, after, m.req, Success(())) <==> ready)
    && (Hears(st, after, m.req, Failure(ModelUnavailable)) <==> unavailable)
    && (Hears(st, after, m.req, Failure(Busy)) <==> busy)
    && (m.gb < 0.0 ==> Hears(st, after, m.req, Failure(InvalidRequest)))
    && (m.gb >= 0.0 && SameLoad(st, m) ==> after.replies == st.replies && JoinedBy(st, after, m.req))
  }

  predicate JoinedBy(st: State, after: State, req: nat) {
    && st.active.Some? && after.active.Some? && after.active.value.id == st.active.value.id
    && after.active.value.kind.waiters == st.active.value.kind.waiters + [req]
    && after.active.value.kind == match st.active.value.kind
                                  case ActiveLoad(policy, gb, allow, waiters) =>
                                    ActiveLoad(policy, gb, allow, waiters + [req])
                                  case ActiveUnload(waiters, started) => ActiveUnload(waiters + [req], started)
  }

  lemma AnswerIsHeard(st: State, req: nat, result: Result<(), BackendError>)
    ensures forall other :: Hears(st, AnswerTo(st, req, result), req, other) <==> other == result
  {
    forall other ensures Hears(st, AnswerTo(st, req, result), req, other) <==> other == result {
      OneAnswer(st, AnswerTo(st, req, result), req, result, other);
    }
  }

  lemma SilenceIsHeard(st: State, after: State, req: nat)
    requires after.replies == st.replies
    ensures forall result :: !Hears(st, after, req, result)
  {
    forall result ensures !Hears(st, after, req, result) {
      assert |st.replies + [Reply(req, result)]| == |st.replies| + 1;
    }
  }

  lemma HandledHears(st: State, m: Message)
    requires Inv(st) && st.poisoned.None? && m.Load?
    ensures GateHears(st, HandleLoad(st, m.req, m.id, m.gb, m.policy, m.allow, m.order, m.beginIo, m.clearIo), m)
  {
    var after := HandleLoad(st, m.req, m.id, m.gb, m.policy, m.allow, m.order, m.beginIo, m.clearIo);
    if m.id in st.models { assert SlotFits(st, m.id, st.models[m.id]); }
    match LoadGate(st, m.id, m.gb, m.policy, m.allow)
    case Answered(result) => AnswerIsHeard(st, m.req, result);
    case Joins => SilenceIsHeard(st, after, m.req);
    case Proceeds =>
      ProceedingHears(st, m);
      if after.replies == st.replies {
        SilenceIsHeard(st, after, m.req);
      } else {
        var e :| PlanningError(e) && Hears(st, after, m.req, Failure(e));
        OneAnswer(st, after, m.req, Failure(e), Success(()));
        OneAnswer(st, after, m.req, Failure(e), Failure(ModelUnavailable));
        OneAnswer(st, after, m.req, Failure(e), Failure(Busy));
      }
  }

  /**
   * A load hears at once: success exactly if its model is Ready under that very policy;
   * unavailable exactly if an earlier load of it is unconfirmed; busy exactly if chats
   * or another operation stand in the way. A repetition of the running load joins it.
   */
  lemma LoadHearsExactly(st: State, m: Message)
    requires Inv(st) && Enabled(st, m) && m.Load?
    ensures if Refusal(st).Some? then Hears(st, Step(st, m), m.req, Failure(Refusal(st).value))
            else GateHears(st, Step(st, m), m)
    ensures Refusal(st) == if st.poisoned.Some? then Some(InvariantViolation) else st.startupError
  {
    var asked := Asked(st, m);
    if Refusal(st).None? {
      SurroundingsKeepInv(st, asked);
      HandledHears(asked, m);
      HearsAlike(st, asked, Step(st, m), m);
    }
  }

  lemma HearsAlike(st: State, asked: State, after: State, m: Message)
    requires m.Load? && asked == st.(asked := asked.asked)
    ensures GateHears(asked, after, m) <==> GateHears(st, after, m)
  {
  }

  /** All a load touches when it does not start or join. */
  predicate Untouched(st: State, after: State) {
    after == st.(asked := after.asked, replies := after.replies, marker := after.marker)
  }

  lemma RefusedAdmission(st: State, m: Message, plan: LoadPlan)
    requires EntryFits(st) && m.Load? && st.active.None?
    ensures var after := AdmitLoad(st, m.req, m.id, m.gb, m.policy, m.allow, plan, m.beginIo, m.clearIo);
            var fenced := st.(marker := Marker(true, true));
            var claim := ClaimCapacity(fenced, plan.plannedGb, plan.plannedCharge, m.allow).1;
            if st.marker.visible || !m.beginIo.Begins? then
              && Untouched(st, after) && Hears(st, after, m.req, Failure(Internal))
              && (st.marker.visible || m.beginIo.FailsBeforeCreate? ==> after.marker == st.marker)
            else if claim.Failure? then
              && Untouched(st, after)
              && Hears(st, after, m.req, if m.clearIo.Clears? then claim else Failure(Internal))
              && (m.clearIo.Clears? ==> !after.marker.visible && !after.marker.durable)
            else after.active.Some?
  {
    var fenced := st.(marker := BeginStep(st.marker, m.beginIo).marker);
    ClaimKeepsEntry(fenced, plan.plannedGb, plan.plannedCharge, m.allow);
  }

  lemma ClaimsAlike(a: State, b: State, plan: LoadPlan, allow: bool)
    requires a.claim == b.claim && a.ledger == b.ledger && a.settings == b.settings
    ensures ClaimCapacity(a, plan.plannedGb, plan.plannedCharge, allow).1
            == ClaimCapacity(b, plan.plannedGb, plan.plannedCharge, allow).1
  {
  }

  /** What a load that did not start hears, in terms of the state that was asked. */
  ghost predicate RefusedHears(st: State, after: State, m: Message)
    requires m.Load?
  {
    LoadGate(st, m.id, m.gb, m.policy, m.allow).Proceeds? ==>
      match PlanLoad(st, m.id, m.gb, m.order)
      case Failure(e) => Hears(st, after, m.req, Failure(e))
      case Success(plan) =>
        if st.marker.visible || !m.beginIo.Begins? then Hears(st, after, m.req, Failure(Internal))
        else
          var claim := ClaimCapacity(st, plan.plannedGb, plan.plannedCharge, m.allow).1;
          Hears(st, after, m.req, if m.clearIo.Clears? then claim else Failure(Internal))
  }

  lemma HandledRefusal(st: State, m: Message)
    requires EntryFits(st) && m.Load? && st.active.None?
    requires HandleLoad(st, m.req, m.id, m.gb, m.policy, m.allow, m.order, m.beginIo, m.clearIo).active.None?
    ensures var after := HandleLoad(st, m.req, m.id, m.gb, m.policy, m.allow, m.order, m.beginIo, m.clearIo);
            Untouched(st, after) && RefusedHears(st, after, m)
  {
    var planned := PlanLoad(st, m.id, m.gb, m.order);
    if LoadGate(st, m.id, m.gb, m.policy, m.allow).Proceeds? && planned.Success? {
      RefusedAdmission(st, m, planned.value);
      ClaimsAlike(st, st.(marker := Marker(true, true)), planned.value, m.allow);
    }
  }

  lemma RefusedHearsAlike(st: State, after: State, m: Message)
    requires m.Load? && RefusedHears(Asked(st, m), after, m)
    ensures RefusedHears(st, after, m)
  {
    AskedReadsAlike(st, m);
    var planned := PlanLoad(st, m.id, m.gb, m.order);
    if planned.Success? {
      ClaimsAlike(st, Asked(st, m), planned.value, m.allow);
    }
  }

  /**
   * A load that does not start leaves models, capacity and operation as they were. If
   * it got as far as the marker it hears of that; if the ledger refused it, it hears
   * the ledger's own answer and the marker is lifted again.
   */
  lemma RefusedLoadChangesNothing(st: State, m: Message)
    requires Inv(st) && EntryFits(st) && Enabled(st, m) && m.Load? && st.active.None? && Step(st, m).active.None?
    ensures Untouched(st, Step(st, m))
    ensures Refusal(st).None? ==> RefusedHears(st, Step(st, m), m)
  {
    if Refusal(st).None? {
      HandledRefusal(Asked(st, m), m);
      RefusedHearsAlike(st, Step(st, m), m);
    }
  }

  // ----------------------------------------------------------------- unload

  predicate SameUnload(st: State, id: string) {
    st.active.Some? && st.active.value.id == id && st.active.value.kind.ActiveUnload?
  }

  /** The unload of `id` has begun, at once if no chat is left and otherwise to wait for the last. */
  predicate UnloadBegun(st: State, after: State, req: nat, id: string) {
    && id in st.models && after.models == st.models[id := st.models[id].(state := Stopping)]
    && after.active == Some(ActiveOp(id, ActiveUnload([req], st.models[id].inflight == 0)))
    && (after.task.Some? <==> st.models[id].inflight == 0)
  }

  predicate UnloadHears(st: State, after: State, req: nat, id: string) {
    var unavailable := IsUnconfirmed(st, id);
    var busy := id in st.models && !Listed(st, id, Stopped) && !unavailable && st.active.Some? && !SameUnload(st, id);
    && (Hears(st, after, req, Success(())) <==> Listed(st, id, Stopped))
    && (Hears(st, after, req, Failure(ModelNotFound)) <==> id !in st.models)
    && (Hears(st, after, req, Failure(ModelUnavailable)) <==> unavailable)
    && (Hears(st, after, req, Failure(Busy)) <==> busy)
    && (SameUnload(st, id) ==> after.replies == st.replies && JoinedBy(st, after, req))
    && (id in st.models && !Listed(st, id, Stopped) && !unavailable && st.active.None?
        ==> after.replies == st.replies && UnloadBegun(st, after, req, id))
  }

  lemma HandledUnloadHears(st: State, req: nat, id: string)
    requires Inv(st) && st.poisoned.None?
    ensures UnloadHears(st, HandleUnload(st, req, id), req, id)
  {
    if id in st.models { assert SlotFits(st, id, st.models[id]); }
    match UnloadGate(st, id)
    case Answered(result) => AnswerIsHeard(st, req, result);
    case Joins => SilenceIsHeard(st, HandleUnload(st, req, id), req);
    case Proceeds => SilenceIsHeard(st, HandleUnload(st, req, id), req);
  }

  /**
   * An unload hears success at once exactly of a Stopped model, not found exactly of an
   * unknown one, unavailable exactly of an unconfirmed one, busy exactly while another
   * operation runs; a repetition joins; anything else begins to unload.
   */
  lemma UnloadHearsExactly(st: State, m: Message)
    requires Inv(st) && Enabled(st, m) && m.Unload?
    ensures if Refusal(st).Some? then Hears(st, Step(st, m), m.req, Failure(Refusal(st).value))
            else UnloadHears(st, Step(st, m), m.req, m.id)
  {
    var asked := st.(asked := st.asked[m.req := UnloadRequest(m.id)]);
    if Refusal(st).None? {
      SurroundingsKeepInv(st, asked);
      HandledUnloadHears(asked, m.req, m.id);
      UnloadHearsAlike(st, asked, Step(st, m), m.req, m.id);
    }
  }

  lemma UnloadHearsAlike(st: State, asked: State, after: State, req: nat, id: string)
    requires asked == st.(asked := asked.asked)
    ensures UnloadHears(asked, after, req, id) <==> UnloadHears(st, after, req, id)
  {
  }

  // ------------------------------------------------------------------- chat

  /** A chat goes out exactly to a Ready model of an actor that takes commands, while there is a permit. */
  lemma ChatIsDispatchedExactly(st: State, id: string, permit: bool)
    ensures var after := Step(st, Chat(id, permit));
            if Refusal(st).None? && Listed(st, id, Ready) && permit then
              && after.chats == st.chats + multiset{id}
              && after.models == st.models[id := st.models[id].(inflight := st.models[id].inflight + 1,
                                                                lastUsedSeq := after.nextSeq)]
            else after == st
  {
  }
}
