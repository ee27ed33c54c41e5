/**
 * The ledger as the program keeps it: one map updated in place. Every method is
 * proved to perform exactly the step `CapacityLedger` reasons about.
 */
module GlobalCapacity {
  import opened Wrappers
  import opened Backend
  import opened CapacityUnits
  import opened CapacityLedger

  class GlobalCapacityLedger {
    const config: Config
    var allocations: Allocations

    function Contents(): Ledger
      reads this
    {
      Ledger(config, allocations)
    }

    constructor (config: Config)
      ensures Contents() == Ledger(config, map[])
    {
      this.config := config;
      allocations := map[];
    }

    /** Sums the charges in any order, giving up at the first overflow. */
    method CheckedTotal() returns (r: Option<nat>)
      ensures r == ExactTotalUnits(allocations)
    {
      var rest := allocations;
      var total: nat := 0;
      while rest != map[]
        invariant Total(allocations) == total + Total(rest)
        invariant total < U128_LIMIT
        decreases |rest|
      {
        var k :| k in rest;
        TotalSplit(rest, k);
        var sum := CheckedAdd(total, rest[k].chargedUnits);
        if sum.None? {
          return None;
        }
        total := sum.value;
        rest := rest - {k};
      }
      return Some(total);
    }

    method ReserveWithHeadroom(key: string, gb: real, allow: bool) returns (r: Result<(), BackendError>)
      modifies this
      ensures Apply(old(Contents()), Op.Reserve(key, gb, allow)) == Step(Contents(), r)
    {
      var charged := Units(gb, Up);
      if charged.Failure? || IsBlank(key) {
        return Failure(InvalidRequest);
      }
      if key in allocations {
        return if allocations[key].requestedGb == gb then Success(()) else Failure(InvariantViolation);
      }
      var reserved := CheckedTotal();
      if reserved.None? || CheckedAdd(reserved.value, charged.value).None? {
        return Failure(Oom);
      }
      if config.budgetGb == 0.0 && charged.value > 0 {
        return Failure(Oom);
      }
      r := CheckAdmission(config, reserved.value + charged.value, allow);
      if r.Success? {
        allocations := allocations[key := Allocation(gb, charged.value)];
      }
    }

    method Release(key: string) returns (removed: bool)
      modifies this
      ensures Contents() == Apply(old(Contents()), Op.Release(key)).ledger
      ensures removed <==> key in old(allocations)
    {
      removed := key in allocations;
      allocations := allocations - {key};
    }

    method ReplaceAllocation(key: string, expected: Expected, next: Option<Allocation>,
                             enforceGrowth: bool, planned: Option<U128>, allow: bool)
      returns (r: Result<(), BackendError>)
      modifies this
      ensures ReplaceStep(old(Contents()), key, expected, next, enforceGrowth, planned, allow) == Step(Contents(), r)
    {
      if IsBlank(key) {
        return Failure(InvalidRequest);
      }
      var current := Lookup(allocations, key);
      if !Matches(current, expected) {
        return Failure(InvariantViolation);
      }
      TotalWithout(allocations, key);
      var currentUnits := if current.Some? then current.value.chargedUnits else 0;
      var nextUnits := if next.Some? then next.value.chargedUnits else 0;
      var total := CheckedTotal();
      if total.None? {
        return Failure(InvariantViolation);
      }
      var other := total.value - currentUnits;
      if CheckedAdd(other, nextUnits).None? {
        return Failure(InvariantViolation);
      }
      if planned.Some? {
        var plan := CheckPlan(config, other + planned.value, allow);
        if plan.Failure? {
          return plan;
        }
      }
      if enforceGrowth && nextUnits > currentUnits {
        var growth := CheckGrowth(config, other + nextUnits, allow);
        if growth.Failure? {
          return growth;
        }
      }
      allocations := Replace(allocations, key, next);
      return Success(());
    }

    method CompareAndSet(key: string, expected: Option<real>, next: Option<real>, enforce: bool)
      returns (r: Result<(), BackendError>)
      modifies this
      ensures CompareAndSetStep(old(Contents()), key, expected, next, enforce) == Step(Contents(), r)
    {
      if expected.Some? && Units(expected.value, Up).Failure? {
        return Failure(InvalidRequest);
      }
      var allocation := None;
      if next.Some? {
        var units := Units(next.value, Up);
        if units.Failure? {
          return Failure(InvalidRequest);
        }
        allocation := Some(Allocation(next.value, units.value));
      }
      r := ReplaceAllocation(key, Estimate(expected), allocation, enforce, None, true);
    }

    method Resize(key: string, expected: Option<real>, next: Option<real>) returns (r: Result<(), BackendError>)
      modifies this
      ensures Apply(old(Contents()), Op.Resize(key, expected, next)) == Step(Contents(), r)
    {
      r := CompareAndSet(key, expected, next, true);
    }

    method AdoptObserved(key: string, expected: Option<real>, observed: real) returns (r: Result<(), BackendError>)
      modifies this
      ensures Apply(old(Contents()), Op.AdoptObserved(key, expected, observed)) == Step(Contents(), r)
    {
      r := CompareAndSet(key, expected, Some(observed), false);
    }

    method BlockGrowthForUnknownResidency(key: string, expected: Option<real>) returns (r: Result<real, BackendError>)
      modifies this
      ensures Contents() == Apply(old(Contents()), Op.BlockGrowth(key, expected)).ledger
      ensures match Apply(old(Contents()), Op.BlockGrowth(key, expected)).result
              case Success(_) => r == Success(config.budgetGb)
              case Failure(e) => r == Failure(e)
    {
      var done := CompareAndSet(key, expected, Some(config.budgetGb), false);
      match done
      case Success(_) => return Success(config.budgetGb);
      case Failure(e) => return Failure(e);
    }

    method UpdateCharge(key: string, expected: Option<U128>, next: U128, admitGrowth: bool)
      returns (r: Result<(), BackendError>)
      modifies this
      ensures Apply(old(Contents()), Op.UpdateCharge(key, expected, next, admitGrowth)) == Step(Contents(), r)
    {
      r := ReplaceAllocation(key, Charge(expected), Some(ChargeAllocation(next)), admitGrowth, None, true);
    }

    method ClaimCharge(key: string, current: U128, planned: U128, allow: bool) returns (r: Result<(), BackendError>)
      modifies this
      ensures Apply(old(Contents()), Op.ClaimCharge(key, current, planned, allow)) == Step(Contents(), r)
    {
      var held := ChargeAllocation(Max(current, planned));
      r := ReplaceAllocation(key, Charge(Some(current)), Some(held), true, Some(planned), allow);
    }
  }
}
