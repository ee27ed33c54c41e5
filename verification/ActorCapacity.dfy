/**
 * Capacity accounting of the actor: what it accounts for, what it holds in the
 * shared ledger, and that the two stay together in every reachable state.
 */
module ActorCapacity {
  import opened Wrappers
  import opened Backend
  import opened CapacityUnits
  import opened LoadPolicies
  import opened Eviction
  import opened LoadFences
  import opened LoadFlow
  import opened LoadFlowFacts
  import opened Actor
  import opened ActorInvariant
  import opened ActorSums
  import L = CapacityLedger

  // ----------------------------------------------------------------- bounds

  lemma {:induction false} CoveredWithinOccupied(keys: seq<string>, models: Models, covered: map<string, real>)
    requires forall k :: k in models ==> models[k].memoryGb >= 0.0
    requires forall k :: k in covered ==> covered[k] >= 0.0
    ensures 0.0 <= CoveredGb(keys, models, covered, {}) <= OccupiedGb(keys, models, {})
  {
    if keys != [] { CoveredWithinOccupied(keys[1..], models, covered); }
  }

  lemma MemoryIsNonNegative(st: State)
    requires Inv(st)
    ensures forall k :: k in st.models ==> st.models[k].memoryGb >= 0.0
  {
    if st.poisoned.None? {
      forall k | k in st.models ensures st.models[k].memoryGb >= 0.0 { assert SlotFits(st, k, st.models[k]); }
    }
  }

  /** No aggregate residency is lost and nothing is counted beyond the aggregate and the slots together. */
  lemma AccountedIsBracketed(st: State)
    requires Inv(st)
    ensures AccountedGb(st) >= st.reservedGb
    ensures OccupiedGb(st.keys, st.models, {}) <= AccountedGb(st) <= OccupiedGb(st.keys, st.models, {}) + st.reservedGb
  {
    MemoryIsNonNegative(st);
    CoveredWithinOccupied(st.keys, st.models, st.covered);
  }

  lemma {:induction false} CoveredWithinCharged(keys: seq<string>, models: Models, covered: map<string, real>)
    ensures CoveredCharge(keys, models, covered).Success?
            ==> CoveredCharge(keys, models, covered).value <= OccupiedCharge(keys, models, {})
  {
    if keys != [] { CoveredWithinCharged(keys[1..], models, covered); }
  }

  /** The same in bytes: the whole aggregate is charged, and no more than that and the slots together. */
  lemma ExactChargeIsBracketed(st: State)
    requires ExactCharge(st, {}).Success?
    ensures ExactCharge(st, {}).value as real >= st.reservedGb * 1_000_000_000.0
    ensures OccupiedCharge(st.keys, st.models, {}) <= ExactCharge(st, {}).value
    ensures (ExactCharge(st, {}).value - OccupiedCharge(st.keys, st.models, {})) as real
            < MaxReal(st.reservedGb, 0.0) * 1_000_000_000.0 + 1.0
  {
    CoveredWithinCharged(st.keys, st.models, st.covered);
  }

  // ------------------------------------------------------- sums that agree

  predicate SameCharge(a: ModelSlot, b: ModelSlot) {
    && a.memoryGb == b.memoryGb && a.charge == b.charge && a.loadUnconfirmed == b.loadUnconfirmed
    && (OccupiesBudget(a.state) <==> OccupiesBudget(b.state))
  }

  ghost predicate SameCharges(a: Models, b: Models) {
    a.Keys == b.Keys && forall k :: k in a ==> SameCharge(a[k], b[k])
  }

  lemma {:induction false} SumsAgree(keys: seq<string>, a: Models, b: Models, covered: map<string, real>,
                                     skip: set<string>)
    requires SameCharges(a, b)
    ensures OccupiedGb(keys, a, skip) == OccupiedGb(keys, b, skip)
    ensures CoveredGb(keys, a, covered, skip) == CoveredGb(keys, b, covered, skip)
    ensures OccupiedCharge(keys, a, skip) == OccupiedCharge(keys, b, skip)
    ensures CoveredCharge(keys, a, covered) == CoveredCharge(keys, b, covered)
  {
    if keys != [] { SumsAgree(keys[1..], a, b, covered, skip); }
  }

  predicate SameBooks(a: State, b: State) {
    && a.settings == b.settings && a.keys == b.keys && a.reservedGb == b.reservedGb && a.covered == b.covered
  }

  lemma BooksAgree(a: State, b: State)
    requires SameBooks(a, b) && SameCharges(a.models, b.models)
    ensures AccountedGb(a) == AccountedGb(b)
    ensures ExactCharge(a, {}) == ExactCharge(b, {})
    ensures AnyUnconfirmed(a) <==> AnyUnconfirmed(b)
  {
    SumsAgree(a.keys, a.models, b.models, a.covered, {});
    if AnyUnconfirmed(a) {
      var k :| k in a.models && a.models[k].loadUnconfirmed;
      assert k in b.models && SameCharge(a.models[k], b.models[k]);
    }
    if AnyUnconfirmed(b) {
      var k :| k in b.models && b.models[k].loadUnconfirmed;
      assert k in a.models && SameCharge(a.models[k], b.models[k]);
    }
  }

  // ------------------------------------------------------------ the invariant

  /** The ledger's entry is the amount the actor believes it holds. */
  ghost predicate EntryFits(st: State) {
    && L.Valid(st.ledger)
    && match st.claim
       case Untracked => true
       case Exact(units) =>
         && !L.IsBlank(st.settings.ledgerKey)
         && L.Matches(L.Lookup(st.ledger.allocations, st.settings.ledgerKey), L.Charge(Some(units)))
       case Legacy(gb) =>
         && !L.IsBlank(st.settings.ledgerKey)
         && L.Matches(L.Lookup(st.ledger.allocations, st.settings.ledgerKey), L.Estimate(Some(gb)))
  }

  predicate LoadActive(st: State) { st.active.Some? && st.active.value.kind.ActiveLoad? }

  /** ... and it covers what is accounted; exactly, unless some load may still allocate. */
  ghost predicate ClaimCovers(st: State) {
    match st.claim
    case Untracked => true
    case Exact(units) =>
      && ExactCharge(st, {}).Success?
      && ExactCharge(st, {}).value <= units
      && (!AnyUnconfirmed(st) ==> ExactCharge(st, {}).value == units)
    case Legacy(gb) =>
      && AccountedGb(st) <= gb + CAPACITY_EPSILON_GB
      && (!AnyUnconfirmed(st) ==> gb - CAPACITY_EPSILON_GB <= AccountedGb(st))
  }

  ghost predicate CapacityInv(st: State) {
    && EntryFits(st)
    && (st.poisoned.None? && st.startupError.None? && !LoadActive(st) ==> ClaimCovers(st))
  }

  lemma CoversTransfers(a: State, b: State)
    requires ClaimCovers(a) && a.claim == b.claim && SameBooks(a, b) && SameCharges(a.models, b.models)
    ensures ClaimCovers(b)
  {
    BooksAgree(a, b);
  }

  /** A ledger call under this runtime's key, when its compare-and-set can find what it expects. */
  lemma OwnCallFits(st: State, op: L.Op, claim: Claim)
    requires EntryFits(st) && op.key == st.settings.ledgerKey
    requires match claim
             case Untracked => false
             case Exact(units) =>
               (op.ClaimCharge? && units == L.Max(op.current, op.planned))
               || (op.UpdateCharge? && units == op.nextCharge)
             case Legacy(gb) =>
               (op.Resize? && op.next == Some(gb)) || (op.AdoptObserved? && op.observed == gb)
    ensures EntryFits(OnLedger(st, op, claim).0)
    ensures OnLedger(st, op, claim).1.Success? ==> OnLedger(st, op, claim).0.claim == claim
    ensures OnLedger(st, op, claim).1.Failure? ==> OnLedger(st, op, claim).0 == st
  {
    L.StepIsSafe(st.ledger, op);
    if L.Apply(st.ledger, op).result.Success? {
      if claim.Exact? {
        OwnChargeIsRecorded(st, op, claim.units);
      } else {
        OwnEstimateIsRecorded(st, op, claim.gb);
      }
    }
  }

  lemma OwnChargeIsRecorded(st: State, op: L.Op, units: U128)
    requires EntryFits(st) && op.key == st.settings.ledgerKey && L.Apply(st.ledger, op).result.Success?
    requires (op.ClaimCharge? && units == L.Max(op.current, op.planned)) || (op.UpdateCharge? && units == op.nextCharge)
    ensures !L.IsBlank(op.key)
    ensures L.Matches(L.Lookup(L.Apply(st.ledger, op).ledger.allocations, op.key), L.Charge(Some(units)))
  {
  }

  lemma OwnEstimateIsRecorded(st: State, op: L.Op, gb: real)
    requires EntryFits(st) && op.key == st.settings.ledgerKey && L.Apply(st.ledger, op).result.Success?
    requires (op.Resize? && op.next == Some(gb)) || (op.AdoptObserved? && op.observed == gb)
    ensures !L.IsBlank(op.key)
    ensures L.Matches(L.Lookup(L.Apply(st.ledger, op).ledger.allocations, op.key), L.Estimate(Some(gb)))
  {
  }

  lemma ClaimKeepsEntry(st: State, plannedGb: real, plannedCharge: Option<U128>, allow: bool)
    requires EntryFits(st)
    ensures EntryFits(ClaimCapacity(st, plannedGb, plannedCharge, allow).0)
    ensures ClaimCapacity(st, plannedGb, plannedCharge, allow).1.Failure?
            ==> ClaimCapacity(st, plannedGb, plannedCharge, allow).0 == st
  {
    match st.claim
    case Untracked =>
    case Exact(current) =>
      if plannedCharge.Some? {
        OwnCallFits(st, L.ClaimCharge(st.settings.ledgerKey, current, plannedCharge.value, allow),
                    Exact(L.Max(current, plannedCharge.value)));
      }
    case Legacy(gb) =>
      var next := MaxReal(gb, plannedGb);
      if next != gb {
        OwnCallFits(st, L.Resize(st.settings.ledgerKey, Some(gb), Some(next)), Legacy(next));
      }
  }

  lemma SettleExactFits(st: State, current: U128)
    requires EntryFits(st) && st.claim == Exact(current)
    ensures EntryFits(SettleExact(st, current).0)
    ensures SettleExact(st, current).1.Success? ==> ClaimCovers(SettleExact(st, current).0)
  {
    var accounted := ExactCharge(st, {});
    if accounted.Success? && !(accounted.value <= current && AnyUnconfirmed(st)) {
      var op := L.UpdateCharge(st.settings.ledgerKey, Some(current), accounted.value, accounted.value <= current);
      OwnCallFits(st, op, Exact(accounted.value));
      var after := OnLedger(st, op, Exact(accounted.value)).0;
      BooksAgree(st, after);
    }
  }

  lemma SettleLegacyFits(st: State, gb: real)
    requires EntryFits(st) && st.claim == Legacy(gb)
    ensures EntryFits(SettleLegacy(st, gb).0)
    ensures SettleLegacy(st, gb).1.Success? ==> ClaimCovers(SettleLegacy(st, gb).0)
  {
    var accounted := AccountedGb(st);
    var after := SettleLegacy(st, gb).0;
    BooksAgree(st, after);
    if accounted > gb {
      OwnCallFits(st, L.AdoptObserved(st.settings.ledgerKey, Some(gb), accounted), Legacy(accounted));
    } else {
      OwnCallFits(st, L.Resize(st.settings.ledgerKey, Some(gb), Some(accounted)), Legacy(accounted));
    }
  }

  lemma SettleFits(st: State)
    requires EntryFits(st)
    ensures EntryFits(SettleCapacity(st).0)
    ensures SettleCapacity(st).1.Success? ==> ClaimCovers(SettleCapacity(st).0)
  {
    match st.claim
    case Untracked =>
    case Exact(current) => SettleExactFits(st, current);
    case Legacy(gb) => SettleLegacyFits(st, gb);
  }

  lemma ConcludeFits(st: State, result: Result<(), BackendError>)
    requires EntryFits(st)
    ensures CapacityInv(Conclude(st, result))
  {
    SettleFits(st);
    var (settled, capacity) := SettleCapacity(st);
    var after := Conclude(st, result);
    if st.active.Some? && capacity.Success? {
      CoversTransfers(settled, after);
    }
  }

  // -------------------------------------------------------------- each step

  lemma RecordsKeepCapacity(a: State, b: State)
    requires CapacityInv(a) && SameBooks(a, b) && a.models == b.models
    requires a.ledger == b.ledger && a.claim == b.claim && a.poisoned == b.poisoned && a.startupError == b.startupError
    requires LoadActive(a) ==> LoadActive(b)
    ensures CapacityInv(b)
  {
    if b.poisoned.None? && b.startupError.None? && !LoadActive(b) {
      CoversTransfers(a, b);
    }
  }

  lemma LoadKeepsCapacity(st: State, req: nat, id: string, gb: real, policy: LoadPolicy, allow: bool,
                          planned: Result<LoadPlan, BackendError>, beginIo: BeginIo, clearIo: ClearIo)
    requires CapacityInv(st)
    ensures CapacityInv(ProceedLoad(st, req, id, gb, policy, allow, planned, beginIo, clearIo))
  {
    var after := ProceedLoad(st, req, id, gb, policy, allow, planned, beginIo, clearIo);
    match planned
    case Failure(e) => RecordsKeepCapacity(st, after);
    case Success(plan) =>
      var begun := BeginStep(st.marker, beginIo);
      var fenced := st.(marker := begun.marker);
      if !begun.ok {
        RecordsKeepCapacity(st, after);
      } else {
        ClaimKeepsEntry(fenced, plan.plannedGb, plan.plannedCharge, allow);
        var (claimed, result) := ClaimCapacity(fenced, plan.plannedGb, plan.plannedCharge, allow);
        if result.Success? {
          assert LoadActive(after) && EntryFits(claimed);
          assert after.ledger == claimed.ledger && after.claim == claimed.claim && after.settings == claimed.settings;
        } else {
          RecordsKeepCapacity(st, after);
        }
      }
  }

  lemma UnloadKeepsCapacity(st: State, req: nat, id: string)
    requires Inv(st) && st.poisoned.None? && CapacityInv(st)
    ensures CapacityInv(HandleUnload(st, req, id))
  {
    var after := HandleUnload(st, req, id);
    if UnloadGate(st, id).Proceeds? {
      assert SlotFits(st, id, st.models[id]);
      assert after.models.Keys == st.models.Keys;
      if st.startupError.None? { CoversTransfers(st, after); }
    } else {
      RecordsKeepCapacity(st, after);
    }
  }

  lemma ChatKeepsCapacity(st: State, id: string, permit: bool)
    requires CapacityInv(st)
    ensures CapacityInv(HandleChat(st, id, permit))
  {
    var after := HandleChat(st, id, permit);
    if after != st {
      assert after.models.Keys == st.models.Keys;
      if ClaimCovers(st) { CoversTransfers(st, after); }
    }
  }

  lemma ChatDoneKeepsCapacity(st: State, id: string)
    requires CapacityInv(st)
    ensures CapacityInv(HandleChatDone(st, id))
  {
    var after := HandleChatDone(st, id);
    if st.poisoned.None? && id in st.models {
      assert after.models.Keys == st.models.Keys;
    }
    if ClaimCovers(st) { CoversTransfers(st, after); }
  }

  lemma OtherOwnerKeepsCapacity(st: State, op: L.Op)
    requires CapacityInv(st) && op.key != st.settings.ledgerKey
    ensures CapacityInv(st.(ledger := L.Apply(st.ledger, op).ledger))
  {
    var after := st.(ledger := L.Apply(st.ledger, op).ledger);
    L.StepIsSafe(st.ledger, op);
    L.OthersLeaveEntryAlone(st.ledger, op, st.settings.ledgerKey);
    if ClaimCovers(st) { CoversTransfers(st, after); }
  }

  lemma SameLedger(st: State, id: string, o: LoadOutcome)
    requires id in st.models
    ensures var after := ApplyLoadOutcome(st, id, o);
            after.ledger == st.ledger && after.claim == st.claim && after.settings == st.settings
  {
  }

  lemma LoadMessageKeepsCapacity(st: State, m: Message)
    requires Inv(st) && CapacityInv(st) && Enabled(st, m) && m.Load?
    ensures CapacityInv(Step(st, m))
  {
    var asked := st.(asked := st.asked[m.req := LoadRequest(m.id, m.gb, m.policy, m.allow)]);
    RecordsKeepCapacity(st, asked);
    if Refusal(st).Some? {
      RecordsKeepCapacity(asked, Step(st, m));
    } else {
      GateKeepsCapacity(asked, m);
    }
  }

  lemma GateKeepsCapacity(st: State, m: Message)
    requires CapacityInv(st) && m.Load?
    ensures CapacityInv(HandleLoad(st, m.req, m.id, m.gb, m.policy, m.allow, m.order, m.beginIo, m.clearIo))
  {
    match LoadGate(st, m.id, m.gb, m.policy, m.allow)
    case Proceeds =>
      LoadKeepsCapacity(st, m.req, m.id, m.gb, m.policy, m.allow, PlanLoad(st, m.id, m.gb, m.order), m.beginIo,
                        m.clearIo);
    case Answered(result) => RecordsKeepCapacity(st, AnswerTo(st, m.req, result));
    case Joins => RecordsKeepCapacity(st, Join(st, m.req));
  }

  lemma UnloadMessageKeepsCapacity(st: State, m: Message)
    requires Inv(st) && CapacityInv(st) && Enabled(st, m) && m.Unload?
    ensures CapacityInv(Step(st, m))
  {
    var asked := st.(asked := st.asked[m.req := UnloadRequest(m.id)]);
    RecordsKeepCapacity(st, asked);
    SurroundingsKeepInv(st, asked);
    if Refusal(st).None? {
      UnloadKeepsCapacity(asked, m.req, m.id);
    } else {
      RecordsKeepCapacity(asked, Step(st, m));
    }
  }

  lemma UnloadReportKeepsCapacity(st: State, m: Message)
    requires Inv(st) && CapacityInv(st) && Enabled(st, m) && m.UnloadReported?
    ensures CapacityInv(Step(st, m))
  {
    ConcludeFits(ApplyUnloadOutcome(st.(task := None), st.task.value.id, m.outcome), m.outcome.result);
  }

  /** The entry always fits the claim, and whenever no load is in progress the claim covers what is accounted. */
  lemma StepKeepsCapacity(st: State, m: Message)
    requires Inv(st) && CapacityInv(st) && Enabled(st, m)
    ensures CapacityInv(Step(st, m))
  {
    match m
    case Load(_, _, _, _, _, _, _, _) => LoadMessageKeepsCapacity(st, m);
    case Unload(_, _) => UnloadMessageKeepsCapacity(st, m);
    case Chat(id, permit) => ChatKeepsCapacity(st, id, permit);
    case ChatDone(id) => ChatDoneKeepsCapacity(st, id);
    case LoadReported(trace) => LoadReportKeepsCapacity(st, trace);
    case UnloadReported(_, _) => UnloadReportKeepsCapacity(st, m);
    case OtherOwner(op) => OtherOwnerKeepsCapacity(st, op);
  }

  lemma LoadReportKeepsCapacity(st: State, trace: seq<Event>)
    requires Inv(st) && CapacityInv(st) && Enabled(st, LoadReported(trace))
    ensures CapacityInv(Step(st, LoadReported(trace)))
  {
    var ctx := st.task.value.ctx;
    var lifted := st.(marker := MarkerAfter(st.marker, trace));
    SurroundingsKeepInv(st, lifted);
    ReportFitsContext(ctx, trace);
    var o := Report(ctx, RunFlow(ctx, trace));
    ReportedAreKnown(lifted, ctx, o);
    SameLedger(lifted.(task := None), ctx.id, o);
    ConcludeFits(ApplyLoadOutcome(lifted.(task := None), ctx.id, o), o.result);
  }

  // ------------------------------------------------------- when settling fails

  /**
   * In byte mode a finished operation poisons the actor exactly when what it now
   * accounts for cannot be expressed, or has grown past the claim: without an
   * unconfirmed load that is a violation at once, with one only if the observed
   * growth does not fit a u128 beside the other owners.
   */
  lemma SettleFailsExactly(st: State, current: U128)
    requires EntryFits(st) && st.claim == Exact(current)
    ensures SettleCapacity(st).1.Failure?
            <==> || ExactCharge(st, {}).Failure?
                 || (ExactCharge(st, {}).value > current
                     && (!AnyUnconfirmed(st)
                         || L.Total(st.ledger.allocations) - current + ExactCharge(st, {}).value >= U128_LIMIT))
  {
    L.TotalWithout(st.ledger.allocations, st.settings.ledgerKey);
  }

  /** The same in GB: growth beyond the tolerance, unless it may belong to an unconfirmed load and fits a u128. */
  lemma SettleEstimateFailsExactly(st: State, gb: real)
    requires Inv(st) && EntryFits(st) && st.claim == Legacy(gb)
    ensures var others := L.Total(st.ledger.allocations) - L.ChargeOf(st.ledger.allocations, st.settings.ledgerKey);
            var units := Units(AccountedGb(st), Up);
            SettleCapacity(st).1.Failure?
            <==> && AccountedGb(st) > gb + 0.000001
                 && (!AnyUnconfirmed(st) || units.Failure? || others + units.value >= U128_LIMIT)
  {
    MemoryIsNonNegative(st);
    AccountedIsBracketed(st);
    L.AdoptionSucceedsExactly(st.ledger, st.settings.ledgerKey, Some(gb), AccountedGb(st));
    EstimateConverts(st, gb);
    if AccountedGb(st) < gb - 0.000001 {
      ShrinkingSucceeds(st.ledger, st.settings.ledgerKey, gb, AccountedGb(st));
    }
  }

  lemma EstimateConverts(st: State, gb: real)
    requires EntryFits(st) && st.claim == Legacy(gb)
    ensures gb >= 0.0 && Units(gb, Up).Success?
  {
    L.TotalWithout(st.ledger.allocations, st.settings.ledgerKey);
  }

  lemma ShrinkingSucceeds(l: L.Ledger, key: string, gb: real, next: real)
    requires L.Valid(l) && !L.IsBlank(key) && L.Matches(L.Lookup(l.allocations, key), L.Estimate(Some(gb)))
    requires 0.0 <= next <= gb && Units(gb, Up).Success?
    ensures L.Apply(l, L.Resize(key, Some(gb), Some(next))).result.Success?
  {
    L.TotalWithout(l.allocations, key);
    assert next * UNITS_PER_GB as real <= gb * UNITS_PER_GB as real;
  }

  /** The compare-and-set behind an admission is never refused for a stale expectation. */
  lemma ClaimIsRefusedOnlyForCapacity(st: State, plannedGb: real, planned: U128, allow: bool)
    requires EntryFits(st) && st.claim.Exact?
    ensures var r := ClaimCapacity(st, plannedGb, Some(planned), allow).1;
            r == Failure(InvariantViolation)
            <==> L.Total(st.ledger.allocations) - st.claim.units + L.Max(st.claim.units, planned) >= U128_LIMIT
  {
    L.TotalWithout(st.ledger.allocations, st.settings.ledgerKey);
  }

  // ----------------------------------------------------------------- admission

  lemma {:induction false} SnapshotOccupies(order: seq<string>, models: Models, exclude: string, gone: set<string>)
    ensures OccupiedWithout(Entries(order, models, exclude), gone) == OccupiedGb(order, models, {exclude} + gone)
  {
    if order != [] {
      var k, rest := order[0], order[1..];
      SnapshotOccupies(rest, models, exclude, gone);
      if k in models && k != exclude {
        var tail := Entries(rest, models, exclude);
        assert ([Entry(k, models[k])] + tail)[1..] == tail;
      }
    }
  }

  /** What an admitted load plans for fits the budget once its victims are gone. */
  lemma AdmissionFitsBudget(st: State, id: string, gb: real, order: seq<string>)
    requires Inv(st) && st.poisoned.None? && gb >= 0.0
    requires multiset(order) == multiset(st.keys)
    requires PlanLoad(st, id, gb, order).Success?
    ensures PlanLoad(st, id, gb, order).value.plannedGb <= st.settings.budgetGb + 0.000001
  {
    PlanLoadShape(st, id, gb, order);
    RequestIsPlannable(st, id, gb, order);
    var snapshot, need := RequestSnapshot(st, id, order), ModelReq(id, RequestGb(st, id, gb));
    var victims := PlannedVictims(st, id, gb, order);
    PlanIsSoundAndMinimal(snapshot, need);
    if victims != [] {
      var chosen := Chosen(snapshot, need);
      assert SetOf(victims) == IdSet(chosen) by { IdsAreIdSet(chosen); }
    } else {
      assert SetOf(victims) == {};
    }
    assert Suffices(snapshot, need, SetOf(victims));
    SnapshotOccupies(order, st.models, id, SetOf(victims));
    SumsInAnyOrder(order, st.keys, st.models, st.covered, {id} + SetOf(victims));
  }

  lemma IdsAreIdSet(ms: seq<ModelEntry>)
    ensures SetOf(IdsOf(ms)) == IdSet(ms)
  {
    forall m | m in ms ensures m.id in SetOf(IdsOf(ms)) {
      var i :| 0 <= i < |ms| && ms[i] == m;
      assert IdsOf(ms)[i] == m.id;
    }
  }
}
