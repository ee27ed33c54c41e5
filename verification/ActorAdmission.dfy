/**
 * When a load begins, and how far that depends on the walk over the slots: with
 * distinct stamps not at all; with ties the planner's refusal does not, but the
 * victims do, and through them what the shared ledger is asked for.
 */
module ActorAdmission {
  import opened Wrappers
  import opened Backend
  import opened CapacityUnits
  import opened Eviction
  import opened LoadFences
  import opened Actor
  import opened ActorInvariant
  import opened ActorCapacity
  import opened ActorOrder
  import L = CapacityLedger

  /**
   * What the ledger admits. In bytes: the others and the plan fit the budget, less
   * the headroom unless that was confirmed. In GB: the plan is already held, is not
   * charged more than what is held, or fits the ceiling beside the others.
   */
  ghost predicate LedgerAdmits(st: State, plannedGb: real, plannedCharge: Option<U128>, allow: bool) {
    var others := L.Total(st.ledger.allocations - {st.settings.ledgerKey});
    var c := st.ledger.config;
    match st.claim
    case Untracked => true
    case Exact(_) =>
      && plannedCharge.Some?
      && others + plannedCharge.value <= if allow then c.budgetUnits
         else L.SaturatingSub(c.budgetUnits, c.headroomUnits)
    case Legacy(gb) =>
      || plannedGb <= gb
      || (Units(plannedGb, Up).Success?
          && (|| Units(plannedGb, Up).value <= L.ChargeOf(st.ledger.allocations, st.settings.ledgerKey)
              || (c.budgetGb != 0.0 && others + Units(plannedGb, Up).value <= L.FullCeiling(c))))
  }

  /** A claim is granted exactly when the ledger admits it. */
  lemma ClaimSucceedsExactly(st: State, plannedGb: real, plannedCharge: Option<U128>, allow: bool)
    requires EntryFits(st)
    ensures ClaimCapacity(st, plannedGb, plannedCharge, allow).1.Success?
            <==> LedgerAdmits(st, plannedGb, plannedCharge, allow)
  {
    L.TotalWithout(st.ledger.allocations, st.settings.ledgerKey);
    match st.claim
    case Untracked =>
    case Exact(current) =>
      if plannedCharge.Some? {
        ChargeClaimSucceedsExactly(st.ledger, st.settings.ledgerKey, current, plannedCharge.value, allow);
      }
    case Legacy(gb) =>
      if plannedGb > gb {
        ResizeSucceedsExactly(st.ledger, st.settings.ledgerKey, gb, plannedGb);
      }
  }

  lemma ChargeClaimSucceedsExactly(l: L.Ledger, key: string, current: U128, planned: U128, allow: bool)
    requires L.Valid(l) && !L.IsBlank(key) && L.Matches(L.Lookup(l.allocations, key), L.Charge(Some(current)))
    ensures L.Apply(l, L.ClaimCharge(key, current, planned, allow)).result.Success?
            <==> L.Total(l.allocations - {key}) + planned
                 <= if allow then l.config.budgetUnits
                     else L.SaturatingSub(l.config.budgetUnits, l.config.headroomUnits)
  {
    L.TotalWithout(l.allocations, key);
  }

  lemma ResizeSucceedsExactly(l: L.Ledger, key: string, gb: real, next: real)
    requires L.Valid(l) && !L.IsBlank(key) && L.Matches(L.Lookup(l.allocations, key), L.Estimate(Some(gb)))
    ensures L.Apply(l, L.Resize(key, Some(gb), Some(next))).result.Success?
            <==> Units(next, Up).Success?
                 && (|| Units(next, Up).value <= L.ChargeOf(l.allocations, key)
                     || (l.config.budgetGb != 0.0
                         && L.Total(l.allocations - {key}) + Units(next, Up).value <= L.FullCeiling(l.config)))
  {
    L.TotalWithout(l.allocations, key);
    ChargeCoversEstimate(l, key, gb);
  }

  lemma ChargeCoversEstimate(l: L.Ledger, key: string, gb: real)
    requires L.Valid(l) && L.Matches(L.Lookup(l.allocations, key), L.Estimate(Some(gb)))
    ensures gb >= 0.0 && Units(gb, Up).Success?
  {
    assert key in l.allocations && l.allocations[key].requestedGb == gb;
    L.TotalWithout(l.allocations, key);
  }

  /** Asking for less never turns a grant into a refusal. */
  lemma SmallerPlanIsAdmitted(st: State, gb: real, charge: Option<U128>, lessGb: real, lessCharge: Option<U128>,
                              allow: bool)
    requires EntryFits(st) && LedgerAdmits(st, gb, charge, allow)
    requires lessGb <= gb && (charge.Some? ==> lessCharge.Some? && lessCharge.value <= charge.value)
    ensures LedgerAdmits(st, lessGb, lessCharge, allow)
  {
    if st.claim.Legacy? && lessGb > st.claim.gb {
      ChargeCoversEstimate(st.ledger, st.settings.ledgerKey, st.claim.gb);
      assert lessGb * UNITS_PER_GB as real <= gb * UNITS_PER_GB as real;
    }
  }

  /** A load request is on record before anything is decided about it. */
  function Asked(st: State, m: Message): State
    requires m.Load?
  {
    st.(asked := st.asked[m.req := LoadRequest(m.id, m.gb, m.policy, m.allow)])
  }

  /** Nothing refuses the load, its plan can be made, and the ledger admits the plan. */
  ghost predicate MayBegin(st: State, m: Message)
    requires m.Load?
  {
    && Refusal(st).None? && LoadGate(st, m.id, m.gb, m.policy, m.allow).Proceeds?
    && m.beginIo.Begins? && !st.marker.visible
    && var planned := PlanLoad(st, m.id, m.gb, m.order);
       planned.Success? && LedgerAdmits(st, planned.value.plannedGb, planned.value.plannedCharge, m.allow)
  }

  /** A load task appears on exactly these conditions. */
  lemma LoadStartsExactly(st: State, m: Message)
    requires Inv(st) && EntryFits(st) && Enabled(st, m) && m.Load?
    ensures Step(st, m).task != st.task <==> MayBegin(st, m)
  {
    if st.active.None? {
      NoTaskWhenIdle(st);
    }
    AskedReadsAlike(st, m);
    HandledExactly(Asked(st, m), m);
  }

  lemma HandledExactly(st: State, m: Message)
    requires EntryFits(st) && m.Load? && (st.active.None? ==> st.task.None?)
    ensures HandleLoad(st, m.req, m.id, m.gb, m.policy, m.allow, m.order, m.beginIo, m.clearIo).task != st.task
            <==> && LoadGate(st, m.id, m.gb, m.policy, m.allow).Proceeds?
                 && m.beginIo.Begins? && !st.marker.visible
                 && var planned := PlanLoad(st, m.id, m.gb, m.order);
                    planned.Success? && LedgerAdmits(st, planned.value.plannedGb, planned.value.plannedCharge, m.allow)
  {
    if LoadGate(st, m.id, m.gb, m.policy, m.allow).Proceeds? {
      ProceedsExactly(st, m, PlanLoad(st, m.id, m.gb, m.order));
    }
  }

  lemma NoTaskWhenIdle(st: State)
    requires Inv(st) && st.active.None?
    ensures st.task.None?
  {
  }

  lemma ProceedsExactly(st: State, m: Message, planned: Result<LoadPlan, BackendError>)
    requires EntryFits(st) && m.Load? && st.task.None?
    ensures ProceedLoad(st, m.req, m.id, m.gb, m.policy, m.allow, planned, m.beginIo, m.clearIo).task.Some?
            <==> m.beginIo.Begins? && !st.marker.visible && planned.Success?
                 && LedgerAdmits(st, planned.value.plannedGb, planned.value.plannedCharge, m.allow)
  {
    if planned.Success? {
      AdmittedExactly(st, m, planned.value);
    }
  }

  lemma AskedReadsAlike(st: State, m: Message)
    requires m.Load?
    ensures LoadGate(Asked(st, m), m.id, m.gb, m.policy, m.allow) == LoadGate(st, m.id, m.gb, m.policy, m.allow)
    ensures PlanLoad(Asked(st, m), m.id, m.gb, m.order) == PlanLoad(st, m.id, m.gb, m.order)
  {
    PlanReadsTheBooks(st, Asked(st, m), m.id, m.gb, m.order);
  }

  lemma PlanReadsTheBooks(st: State, other: State, id: string, gb: real, order: seq<string>)
    requires SameBooks(st, other) && st.models == other.models && st.claim == other.claim
    ensures PlanLoad(st, id, gb, order) == PlanLoad(other, id, gb, order)
  {
    assert EffectiveReservedGb(st, {}) == EffectiveReservedGb(other, {});
    assert RequestGb(st, id, gb) == RequestGb(other, id, gb);
    var plan := PlanEviction(RequestSnapshot(st, id, order), ModelReq(id, RequestGb(st, id, gb)));
    if plan.Success? {
      ChargesReadTheBooks(st, other, id, gb, if plan.value.Evict? then plan.value.victims else []);
    }
  }

  lemma ChargesReadTheBooks(st: State, other: State, id: string, gb: real, victims: seq<string>)
    requires SameBooks(st, other) && st.models == other.models && st.claim == other.claim
    ensures ChargePlan(st, id, gb, victims) == ChargePlan(other, id, gb, victims)
  {
    assert ExactReservedCharge(st) == ExactReservedCharge(other);
    assert ChargeOfRequest(st, id, gb) == ChargeOfRequest(other, id, gb);
    assert ExactCharge(st, {id} + SetOf(victims)) == ExactCharge(other, {id} + SetOf(victims));
  }

  lemma AdmittedExactly(st: State, m: Message, plan: LoadPlan)
    requires EntryFits(st) && m.Load? && st.task.None?
    ensures AdmitLoad(st, m.req, m.id, m.gb, m.policy, m.allow, plan, m.beginIo, m.clearIo).task.Some?
            <==> m.beginIo.Begins? && !st.marker.visible
                 && LedgerAdmits(st, plan.plannedGb, plan.plannedCharge, m.allow)
  {
    var fenced := st.(marker := BeginStep(st.marker, m.beginIo).marker);
    ClaimSucceedsExactly(fenced, plan.plannedGb, plan.plannedCharge, m.allow);
    ClaimLeavesTheTask(fenced, plan, m.allow);
  }

  lemma ClaimLeavesTheTask(st: State, plan: LoadPlan, allow: bool)
    ensures ClaimCapacity(st, plan.plannedGb, plan.plannedCharge, allow).0.task == st.task
  {
  }

  /** With distinct stamps the whole step is the same on every walk. */
  lemma StepInAnyOrder(st: State, m: Message, b: seq<string>)
    requires Inv(st) && Enabled(st, m) && m.Load? && multiset(b) == multiset(st.keys) && DistinctStamps(st, m.id)
    ensures Enabled(st, m.(order := b)) && Step(st, m.(order := b)) == Step(st, m)
  {
    var asked := Asked(st, m);
    SurroundingsKeepInv(st, asked);
    if Refusal(st).None? && LoadGate(asked, m.id, m.gb, m.policy, m.allow).Proceeds? {
      PlanInAnyOrder(asked, m.id, m.gb, m.order, b);
    }
  }

  /** Whatever the ties, whether a load can be planned is the same on every walk, unless bytes are counted. */
  lemma PlannedInAnyOrder(st: State, id: string, gb: real, a: seq<string>, b: seq<string>)
    requires Inv(st) && st.poisoned.None? && gb >= 0.0 && !st.claim.Exact?
    requires multiset(a) == multiset(st.keys) && multiset(b) == multiset(st.keys)
    ensures PlanLoad(st, id, gb, a).Success? <==> PlanLoad(st, id, gb, b).Success?
  {
    if EffectiveReservedGb(st, {}) <= st.settings.budgetGb {
      RefusalInAnyOrder(st, id, gb, a, b);
    }
  }

  /** So outside a shared ledger a load begins on one walk exactly when it does on every other. */
  lemma UntrackedLoadsInAnyOrder(st: State, m: Message, b: seq<string>)
    requires Inv(st) && EntryFits(st) && Enabled(st, m) && m.Load? && multiset(b) == multiset(st.keys)
    requires st.claim.Untracked?
    ensures Enabled(st, m.(order := b))
    ensures Step(st, m.(order := b)).task != st.task <==> Step(st, m).task != st.task
  {
    LoadStartsExactly(st, m);
    LoadStartsExactly(st, m.(order := b));
    if Refusal(st).None? && LoadGate(st, m.id, m.gb, m.policy, m.allow).Proceeds? {
      PlannedInAnyOrder(st, m.id, m.gb, m.order, b);
    }
  }
}
