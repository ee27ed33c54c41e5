/**
 * What the amounts in a plan mean: the planned total is what will be charged once
 * the victims are gone, a refusal means that nothing evictable would make room, and
 * the limits of the background tasks are what will then remain.
 */
module ActorPlans {
  import opened Wrappers
  import opened Backend
  import opened CapacityUnits
  import opened Eviction
  import opened Actor
  import opened ActorInvariant
  import opened ActorSums
  import opened ActorCapacity

  // ---------------------------------------------------------------- refusal

  /** A set of models that may go to make room for `id`. */
  ghost predicate MayGo(st: State, id: string, gone: set<string>) {
    forall k :: k in gone && k in st.models && k != id ==> Evictable(st.models[k])
  }

  /** With `gone` unloaded, `id` at its request fits the budget beside the rest and what is reserved. */
  predicate MakesRoom(st: State, id: string, gb: real, gone: set<string>) {
    OccupiedGb(st.keys, st.models, {id} + gone) + EffectiveReservedGb(st, {}) + RequestGb(st, id, gb)
    <= st.settings.budgetGb + 0.000001
  }

  lemma SetsAgree(st: State, id: string, gb: real, order: seq<string>, gone: set<string>)
    requires Inv(st) && multiset(order) == multiset(st.keys)
    ensures OnlyEligible(Entries(order, st.models, id), gone) <==> MayGo(st, id, gone)
    ensures Suffices(RequestSnapshot(st, id, order), ModelReq(id, RequestGb(st, id, gb)), gone)
            <==> MakesRoom(st, id, gb, gone)
  {
    OrderIsAnEnumeration(st, order);
    EntriesFacts(order, st.models, id);
    SnapshotOccupies(order, st.models, id, gone);
    SumsInAnyOrder(order, st.keys, st.models, st.covered, {id} + gone);
    if OnlyEligible(Entries(order, st.models, id), gone) {
      forall k | k in gone && k in st.models && k != id ensures Evictable(st.models[k]) {
        assert Entry(k, st.models[k]) in Entries(order, st.models, id);
      }
    }
  }

  lemma PlannerTurnsAwayExactly(st: State, id: string, gb: real, order: seq<string>)
    requires Inv(st) && st.poisoned.None? && gb >= 0.0 && multiset(order) == multiset(st.keys)
    requires EffectiveReservedGb(st, {}) <= st.settings.budgetGb
    ensures var plan := PlanEviction(RequestSnapshot(st, id, order), ModelReq(id, RequestGb(st, id, gb)));
            && (plan.Failure? <==> !exists gone :: MayGo(st, id, gone) && MakesRoom(st, id, gb, gone))
            && (plan.Failure? ==> plan.error.InsufficientCapacity?)
  {
    var snapshot, need := RequestSnapshot(st, id, order), ModelReq(id, RequestGb(st, id, gb));
    RequestIsPlannable(st, id, gb, order);
    PlanIsComplete(snapshot, need);
    if gone: set<string> :| MayGo(st, id, gone) && MakesRoom(st, id, gb, gone) {
      SetsAgree(st, id, gb, order, gone);
    }
    if PlanEviction(snapshot, need).Success? {
      var gone :| OnlyEligible(snapshot.models, gone) && Suffices(snapshot, need, gone);
      SetsAgree(st, id, gb, order, gone);
    }
  }

  /** A load is turned away for memory exactly when no set of evictable models would make room for it. */
  lemma TurnedAwayExactly(st: State, id: string, gb: real, order: seq<string>)
    requires Inv(st) && st.poisoned.None? && gb >= 0.0 && multiset(order) == multiset(st.keys)
    ensures PlanLoad(st, id, gb, order) == Failure(EvictionImpossible)
            <==> || EffectiveReservedGb(st, {}) > st.settings.budgetGb
                 || !exists gone :: MayGo(st, id, gone) && MakesRoom(st, id, gb, gone)
  {
    if EffectiveReservedGb(st, {}) <= st.settings.budgetGb {
      PlannerTurnsAwayExactly(st, id, gb, order);
    }
    ImpossibleComesFromThePlanner(st, id, gb, order);
  }

  lemma ImpossibleComesFromThePlanner(st: State, id: string, gb: real, order: seq<string>)
    ensures var plan := PlanEviction(RequestSnapshot(st, id, order), ModelReq(id, RequestGb(st, id, gb)));
            PlanLoad(st, id, gb, order) == Failure(EvictionImpossible)
            <==> EffectiveReservedGb(st, {}) > st.settings.budgetGb
                 || (plan.Failure? && plan.error.InsufficientCapacity?)
  {
    CreditIsSum(st.keys, st.models, st.covered);
  }

  // ---------------------------------------------------------------- amounts

  /** The same slots but for `id` and those in `skip`. */
  predicate SameBut(a: Models, b: Models, id: string, skip: set<string>, keys: seq<string>) {
    forall k :: k in keys && k != id && k !in skip ==> (k in a <==> k in b) && (k in a ==> a[k] == b[k])
  }

  lemma {:induction false} SumsMoveBy(keys: seq<string>, a: Models, b: Models, id: string, skip: set<string>)
    requires AtMostOnce(keys) && SameBut(a, b, id, skip, keys) && id !in skip && id in b && OccupiesBudget(b[id].state)
    ensures OccupiedGb(keys, b, skip)
            == OccupiedGb(keys, a, {id} + skip) + if id in keys then b[id].memoryGb else 0.0
    ensures OccupiedCharge(keys, b, skip)
            == OccupiedCharge(keys, a, {id} + skip) + if id in keys then b[id].charge else 0
  {
    if keys != [] {
      var k, rest := keys[0], keys[1..];
      assert keys == [k] + rest;
      forall x ensures multiset(rest)[x] <= 1 && (x == k ==> multiset(rest)[x] == 0) {
        assert multiset(keys)[x] == multiset{k}[x] + multiset(rest)[x] <= 1;
      }
      assert k !in rest by { assert k !in multiset(rest); }
      SumsMoveBy(rest, a, b, id, skip);
    }
  }

  lemma {:induction false} SkippedKeyAddsNothing(keys: seq<string>, models: Models, id: string, skip: set<string>)
    requires id in skip
    ensures OccupiedGb(keys + [id], models, skip) == OccupiedGb(keys, models, skip)
    ensures OccupiedCharge(keys + [id], models, skip) == OccupiedCharge(keys, models, skip)
  {
    if keys == [] {
      assert keys + [id] == [id] && [id][1..] == [];
    } else {
      assert (keys + [id])[1..] == keys[1..] + [id];
      SkippedKeyAddsNothing(keys[1..], models, id, skip);
    }
  }

  /** The planned total is what is reserved and what the slots will hold once the victims are gone. */
  lemma PlannedIsCharged(st: State, m: Message, plan: LoadPlan)
    requires Inv(st) && st.poisoned.None? && m.Load? && m.gb >= 0.0 && multiset(m.order) == multiset(st.keys)
    requires PlanLoad(st, m.id, m.gb, m.order) == Success(plan)
    ensures var after := Install(st, m.req, m.id, m.gb, m.policy, m.allow, plan);
            var gone := SetOf(plan.victims);
            && plan.plannedGb == EffectiveReservedGb(st, {}) + OccupiedGb(after.keys, after.models, gone)
            && (st.claim.Exact? ==>
                  && plan.plannedCharge.Some? && ExactReservedCharge(st).Success?
                  && plan.plannedCharge.value
                     == ExactReservedCharge(st).value + OccupiedCharge(after.keys, after.models, gone))
  {
    PlanNamesEvictable(st, m.id, m.gb, m.order);
    InstalledSums(st, m, plan);
  }

  /** In bytes: the slot covers the whole request, less what is reserved if its model was inherited, and no more. */
  lemma ChargeCoversRequest(st: State, id: string, gb: real, order: seq<string>)
    requires st.claim.Exact? && PlanLoad(st, id, gb, order).Success?
    ensures var charge := PlanLoad(st, id, gb, order).value.charge;
            && Units(gb, Up).Success? && ExactReservedCharge(st).Success?
            && var reserved := if Inherited(st, id) then ExactReservedCharge(st).value else 0;
               charge + reserved >= Units(gb, Up).value && (charge > 0 ==> charge + reserved == Units(gb, Up).value)
  {
  }

  lemma {:induction false} CreditsFailAlike(keys: seq<string>, models: Models, covered: map<string, real>)
    ensures var r := CoveredCharge(keys, models, covered); r.Failure? ==> r.error == InvalidRequest
  {
    if keys != [] { CreditsFailAlike(keys[1..], models, covered); }
  }

  /**
   * Charging can fail in two ways: an amount that cannot be expressed in bytes is an
   * invalid request, and charges that together do not fit a u128 are a violation.
   */
  lemma ChargingFailsExactly(st: State, id: string, gb: real, victims: seq<string>)
    requires st.claim.Exact?
    ensures var limit := 0x1_0000_0000_0000_0000_0000_0000_0000_0000;
            var r, credits := ChargePlan(st, id, gb, victims), CoveredCharge(st.keys, st.models, st.covered);
            var asked, used := Units(gb, Up), Units(st.reservedGb, Up);
            if asked.Failure? || credits.Failure? || (credits.value < limit && used.Failure?)
            then r == Failure(InvalidRequest)
            else
              var reserved := if credits.value >= limit || used.value <= credits.value then 0
                              else used.value - credits.value;
              var charge := if !Inherited(st, id) then asked.value
                            else if asked.value <= reserved then 0 else asked.value - reserved;
              var total := reserved + OccupiedCharge(st.keys, st.models, {id} + SetOf(victims)) + charge;
              if credits.value >= limit || total >= limit then r == Failure(InvariantViolation)
              else r == Success((Some(total), charge))
  {
    CreditsFailAlike(st.keys, st.models, st.covered);
  }

  lemma InstalledSums(st: State, m: Message, plan: LoadPlan)
    requires Inv(st) && m.Load? && VictimsFit(st, m.id, plan.victims)
    ensures var after := Install(st, m.req, m.id, m.gb, m.policy, m.allow, plan);
            var gone := SetOf(plan.victims);
            && OccupiedGb(after.keys, after.models, gone)
               == OccupiedGb(st.keys, st.models, {m.id} + gone) + plan.memoryGb
            && OccupiedCharge(after.keys, after.models, gone)
               == OccupiedCharge(st.keys, st.models, {m.id} + gone) + plan.charge
  {
    var after := Install(st, m.req, m.id, m.gb, m.policy, m.allow, plan);
    var gone := SetOf(plan.victims);
    InstalledKeys(st, m.req, m.id, m.gb, m.policy, m.allow, plan);
    OrderIsAnEnumeration(after, after.keys);
    SumsMoveBy(after.keys, st.models, after.models, m.id, gone);
    if m.id !in st.models {
      SkippedKeyAddsNothing(st.keys, st.models, m.id, {m.id} + gone);
    }
  }

  /**
   * The limits of a load's samples: with its victims gone no more may be used than the
   * slots left and the aggregate account for, and once its own old instance is gone
   * too, that much less.
   */
  lemma FlowLimitsAreTheRest(st: State, m: Message, plan: LoadPlan)
    requires Inv(st) && m.Load? && VictimsFit(st, m.id, plan.victims)
    ensures var after := Install(st, m.req, m.id, m.gb, m.policy, m.allow, plan);
            var ctx := after.task.value.ctx;
            var reserved := EffectiveReservedGb(after, {});
            && ctx.victims == plan.victims
            && ctx.afterEvictionGb == reserved + OccupiedGb(st.keys, st.models, SetOf(plan.victims))
            && ctx.targetAbsentGb == reserved + OccupiedGb(st.keys, st.models, {m.id} + SetOf(plan.victims))
            && ctx.releaseAttempts == st.settings.releaseAttempts && ctx.probeAttempts == st.settings.probeAttempts
  {
    var after := Install(st, m.req, m.id, m.gb, m.policy, m.allow, plan);
    var gone := SetOf(plan.victims);
    SumsStay(after.keys, st.models, after.models, m.id, gone);
    if m.id !in st.models {
      SkippedKeyAddsNothing(st.keys, st.models, m.id, {m.id} + gone);
    }
    LimitsAreSums(st, m.id, plan.victims);
  }

  lemma {:induction false} SumsStay(keys: seq<string>, a: Models, b: Models, id: string, skip: set<string>)
    requires SameBut(a, b, id, skip, keys)
    ensures OccupiedGb(keys, b, {id} + skip) == OccupiedGb(keys, a, {id} + skip)
  {
    if keys != [] { SumsStay(keys[1..], a, b, id, skip); }
  }

  lemma {:induction false} UnchargedAddsNothing(keys: seq<string>, models: Models, id: string, skip: set<string>)
    requires id in models ==> !OccupiesBudget(models[id].state)
    ensures OccupiedGb(keys, models, {id} + skip) == OccupiedGb(keys, models, skip)
  {
    if keys != [] { UnchargedAddsNothing(keys[1..], models, id, skip); }
  }

  lemma LimitsAreSums(st: State, id: string, victims: seq<string>)
    requires Inv(st) && VictimsFit(st, id, victims)
    ensures var gone := SetOf(victims);
            OccupiedGb(st.keys, st.models, gone)
            == OccupiedGb(st.keys, st.models, {id} + gone)
               + if PreviousOf(st, id).Some? then PreviousOf(st, id).value.memoryGb else 0.0
  {
    OrderIsAnEnumeration(st, st.keys);
    if PreviousOf(st, id).Some? {
      SumsMoveBy(st.keys, st.models, st.models, id, SetOf(victims));
    } else {
      UnchargedAddsNothing(st.keys, st.models, id, SetOf(victims));
    }
  }

  // ----------------------------------------------------------------- unload

  lemma {:induction false} StoppedIsSkipped(keys: seq<string>, models: Models, covered: map<string, real>, id: string)
    requires id in models
    ensures var stopped := models[id := models[id].(state := Stopped)];
            && OccupiedGb(keys, stopped, {}) == OccupiedGb(keys, models, {id})
            && CoveredGb(keys, stopped, covered, {}) == CoveredGb(keys, models, covered, {id})
  {
    if keys != [] { StoppedIsSkipped(keys[1..], models, covered, id); }
  }

  /** An unload is proved by a sample within what the actor would account for with the model gone. */
  lemma UnloadLimitIsTheRest(st: State, id: string)
    requires id in st.models
    ensures UnloadTaskOf(st, id)
            == UnloadTask(id, AccountedGb(st.(models := st.models[id := st.models[id].(state := Stopped)])))
  {
    StoppedIsSkipped(st.keys, st.models, st.covered, id);
  }
}
