/**
 * The process-wide capacity ledger as a value: every operation maps a ledger to
 * the next ledger and a result. `GlobalCapacityLedger` updates such a value in
 * place; the bounds here hold over every interleaving of owners.
 */
module CapacityLedger {
  import opened Wrappers
  import opened Backend
  import opened CapacityUnits

  /** Legacy GB budgets admit 1e-6 GB of tolerance: exactly 1000 units. */
  const CAPACITY_EPSILON_UNITS: nat := 1_000

  datatype Allocation = Allocation(requestedGb: real, chargedUnits: nat)
  type Allocations = map<string, Allocation>

  datatype Config = Config(budgetGb: real, budgetUnits: nat, epsilonUnits: nat, headroomUnits: nat)
  datatype Ledger = Ledger(config: Config, allocations: Allocations)
  datatype Expected = Estimate(gb: Option<real>) | Charge(units: Option<nat>)
  datatype Step = Step(ledger: Ledger, result: Result<(), BackendError>)

  datatype Op =
    | Reserve(key: string, gb: real, allow: bool)
    | Release(key: string)
    | Resize(key: string, expected: Option<real>, next: Option<real>)
    | AdoptObserved(key: string, expected: Option<real>, observed: real)
    | BlockGrowth(key: string, expected: Option<real>)
    | UpdateCharge(key: string, expectedCharge: Option<U128>, nextCharge: U128, admitGrowth: bool)
    | ClaimCharge(key: string, current: U128, planned: U128, allow: bool)

  // ---------------------------------------------------------------- totals

  ghost function Total(a: Allocations): nat {
    if a == map[] then 0
    else
      var k :| k in a;
      a[k].chargedUnits + Total(a - {k})
  }

  lemma {:induction false} TotalSplit(a: Allocations, k: string)
    requires k in a
    ensures Total(a) == a[k].chargedUnits + Total(a - {k})
    decreases |a|
  {
    var j :| j in a && Total(a) == a[j].chargedUnits + Total(a - {j});
    if j != k {
      TotalSplit(a - {j}, k);
      TotalSplit(a - {k}, j);
      assert a - {j} - {k} == a - {k} - {j};
    }
  }

  lemma TotalInsert(a: Allocations, k: string, e: Allocation)
    ensures Total(a[k := e]) == e.chargedUnits + Total(a - {k})
  {
    TotalSplit(a[k := e], k);
    assert a[k := e] - {k} == a - {k};
  }

  /** What `key` is charged; nothing when it is absent. */
  function ChargeOf(a: Allocations, key: string): nat {
    if key in a then a[key].chargedUnits else 0
  }

  lemma TotalWithout(a: Allocations, k: string)
    ensures Total(a) == ChargeOf(a, k) + Total(a - {k})
  {
    if k in a { TotalSplit(a, k); } else { assert a - {k} == a; }
  }

  ghost function ExactTotalUnits(a: Allocations): Option<nat> {
    if Total(a) < U128_LIMIT then Some(Total(a)) else None
  }

  // ------------------------------------------------------------ admission

  function Min(a: nat, b: nat): nat { if a <= b then a else b }
  function Max(a: nat, b: nat): nat { if a <= b then b else a }
  function SaturatingAdd(a: nat, b: nat): nat { Min(a + b, U128_LIMIT - 1) }
  function SaturatingSub(a: nat, b: nat): nat { if a <= b then 0 else a - b }

  function UnitsToGb(units: nat): real { units as real / UNITS_PER_GB as real }

  function FullCeiling(c: Config): nat { SaturatingAdd(c.budgetUnits, c.epsilonUnits) }

  function ReducedCeiling(c: Config): nat {
    SaturatingAdd(SaturatingSub(c.budgetUnits, c.headroomUnits), c.epsilonUnits)
  }

  function NewConfig(budgetGb: real): Result<Config, BackendError> {
    match Units(budgetGb, Down)
    case Success(units) => Success(Config(budgetGb, units, CAPACITY_EPSILON_UNITS, 0))
    case Failure(_) => Failure(InvalidRequest)
  }

  function NewBytesConfig(budgetBytes: nat, headroomBytes: nat): Config {
    Config(UnitsToGb(budgetBytes), budgetBytes, 0, headroomBytes)
  }

  function CheckAdmission(c: Config, total: nat, allow: bool): Result<(), BackendError> {
    if total > FullCeiling(c) then Failure(Oom)
    else if !allow && total > ReducedCeiling(c) then Failure(HeadroomConfirmationRequired)
    else Success(())
  }

  /** Rust's `str::trim` removes Unicode White_Space. */
  predicate IsWhitespace(c: char) {
    var u := c as int;
    || 9 <= u <= 13 || u == 0x20 || u == 0x85 || u == 0xA0 || u == 0x1680
    || 0x2000 <= u <= 0x200A || u == 0x2028 || u == 0x2029 || u == 0x202F || u == 0x205F || u == 0x3000
  }

  predicate IsBlank(key: string) { forall i :: 0 <= i < |key| ==> IsWhitespace(key[i]) }

  function Refuse(l: Ledger, e: BackendError): Step { Step(l, Failure(e)) }

  ghost function ReserveStep(l: Ledger, key: string, gb: real, allow: bool): Step {
    match Units(gb, Up)
    case Failure(_) => Refuse(l, InvalidRequest)
    case Success(charged) =>
      if IsBlank(key) then Refuse(l, InvalidRequest)
      else if key in l.allocations then
        if l.allocations[key].requestedGb == gb then Step(l, Success(())) else Refuse(l, InvariantViolation)
      else if ExactTotalUnits(l.allocations).None? || Total(l.allocations) + charged >= U128_LIMIT then
        Refuse(l, Oom)
      else if l.config.budgetGb == 0.0 && charged > 0 then Refuse(l, Oom)
      else
        match CheckAdmission(l.config, Total(l.allocations) + charged, allow)
        case Failure(e) => Refuse(l, e)
        case Success(_) =>
          Step(l.(allocations := l.allocations[key := Allocation(gb, charged)]), Success(()))
  }

  predicate Matches(current: Option<Allocation>, expected: Expected) {
    match expected
    case Estimate(gb) => current.None? == gb.None? && (current.Some? ==> current.value.requestedGb == gb.value)
    case Charge(units) => current.None? == units.None? && (current.Some? ==> current.value.chargedUnits == units.value)
  }

  function Lookup(a: Allocations, key: string): Option<Allocation> {
    if key in a then Some(a[key]) else None
  }

  function Replace(a: Allocations, key: string, next: Option<Allocation>): Allocations {
    match next
    case Some(e) => a[key := e]
    case None => a - {key}
  }

  /** The plan of a claim is judged against the bare budget, without tolerance. */
  function CheckPlan(c: Config, total: nat, allow: bool): Result<(), BackendError> {
    if total >= U128_LIMIT || total > c.budgetUnits then Failure(Oom)
    else if !allow && total > SaturatingSub(c.budgetUnits, c.headroomUnits) then Failure(HeadroomConfirmationRequired)
    else Success(())
  }

  function CheckGrowth(c: Config, total: nat, allow: bool): Result<(), BackendError> {
    if c.budgetGb == 0.0 then Failure(Oom) else CheckAdmission(c, total, allow)
  }

  /** The one compare-and-set under every same-owner update. */
  ghost function ReplaceStep(l: Ledger, key: string, expected: Expected, next: Option<Allocation>,
                             enforceGrowth: bool, planned: Option<U128>, allow: bool): Step
  {
    var current := Lookup(l.allocations, key);
    var currentUnits := ChargeOf(l.allocations, key);
    var nextUnits := if next.Some? then next.value.chargedUnits else 0;
    if IsBlank(key) then Refuse(l, InvalidRequest)
    else if !Matches(current, expected) then Refuse(l, InvariantViolation)
    else if ExactTotalUnits(l.allocations).None? || Total(l.allocations) - currentUnits + nextUnits >= U128_LIMIT then
      Refuse(l, InvariantViolation)
    else
      TotalWithout(l.allocations, key);
      var other := Total(l.allocations) - currentUnits;
      var plan := if planned.Some? then CheckPlan(l.config, other + planned.value, allow) else Success(());
      var growth :=
        if enforceGrowth && nextUnits > currentUnits then CheckGrowth(l.config, other + nextUnits, allow)
        else Success(());
      if plan.Failure? then Refuse(l, plan.error)
      else if growth.Failure? then Refuse(l, growth.error)
      else Step(l.(allocations := Replace(l.allocations, key, next)), Success(()))
  }

  ghost function CompareAndSetStep(l: Ledger, key: string, expected: Option<real>, next: Option<real>,
                                   enforce: bool): Step {
    if expected.Some? && Units(expected.value, Up).Failure? then Refuse(l, InvalidRequest)
    else
      match next
      case None => ReplaceStep(l, key, Estimate(expected), None, enforce, None, true)
      case Some(gb) =>
        match Units(gb, Up)
        case Failure(_) => Refuse(l, InvalidRequest)
        case Success(units) =>
          ReplaceStep(l, key, Estimate(expected), Some(Allocation(gb, units)), enforce, None, true)
  }

  function ChargeAllocation(units: nat): Allocation { Allocation(UnitsToGb(units), units) }

  ghost function Apply(l: Ledger, op: Op): Step {
    match op
    case Reserve(key, gb, allow) => ReserveStep(l, key, gb, allow)
    case Release(key) => Step(l.(allocations := l.allocations - {key}), Success(()))
    case Resize(key, expected, next) => CompareAndSetStep(l, key, expected, next, true)
    case AdoptObserved(key, expected, observed) => CompareAndSetStep(l, key, expected, Some(observed), false)
    case BlockGrowth(key, expected) => CompareAndSetStep(l, key, expected, Some(l.config.budgetGb), false)
    case UpdateCharge(key, expected, next, admitGrowth) =>
      ReplaceStep(l, key, Charge(expected), Some(ChargeAllocation(next)), admitGrowth, None, true)
    case ClaimCharge(key, current, planned, allow) =>
      ReplaceStep(l, key, Charge(Some(current)), Some(ChargeAllocation(Max(current, planned))), true, Some(planned),
                  allow)
  }

  ghost function Run(l: Ledger, ops: seq<Op>): Ledger
    decreases |ops|
  {
    if ops == [] then l else Apply(Run(l, ops[..|ops| - 1]), ops[|ops| - 1]).ledger
  }

  // ------------------------------------------------------------ invariant

  ghost predicate ValidConfig(c: Config) {
    && c.budgetGb >= 0.0
    && c.budgetUnits < U128_LIMIT
    && c.budgetUnits as real <= c.budgetGb * UNITS_PER_GB as real
    && c.epsilonUnits <= CAPACITY_EPSILON_UNITS
  }

  /** Every charge covers its estimate, and the charges together fit a u128. */
  ghost predicate Valid(l: Ledger) {
    && ValidConfig(l.config)
    && Total(l.allocations) < U128_LIMIT
    && forall k :: k in l.allocations ==>
         0.0 <= l.allocations[k].requestedGb * UNITS_PER_GB as real <= l.allocations[k].chargedUnits as real
  }

  lemma ConstructorsAreValid(gb: real, bytes: nat, headroom: nat)
    requires bytes < U128_LIMIT
    ensures NewConfig(gb).Failure? <==> gb < 0.0 || gb * UNITS_PER_GB as real >= U128_LIMIT as real
    ensures NewConfig(gb).Success? ==>
              var c := NewConfig(gb).value;
              && IsNew(Ledger(c, map[]))
              && FullCeiling(c) == ReducedCeiling(c) == SaturatingAdd(Units(gb, Down).value, CAPACITY_EPSILON_UNITS)
    ensures var c := NewBytesConfig(bytes, headroom);
            IsNew(Ledger(c, map[])) && FullCeiling(c) == bytes && ReducedCeiling(c) == SaturatingSub(bytes, headroom)
  {
  }

  /** Nothing is reserved, and whatever comes next is judged against a whole budget. */
  ghost predicate IsNew(l: Ledger) { Valid(l) && Total(l.allocations) == 0 }

  /** Recording observed residency is the one way past the ceiling. */
  predicate Adopts(op: Op) {
    op.AdoptObserved? || op.BlockGrowth? || (op.UpdateCharge? && !op.admitGrowth)
  }

  lemma ReplaceTotal(l: Ledger, key: string, next: Option<Allocation>)
    ensures Total(Replace(l.allocations, key, next))
            == Total(l.allocations) - ChargeOf(l.allocations, key) + (if next.Some? then next.value.chargedUnits else 0)
  {
    TotalWithout(l.allocations, key);
    if next.Some? { TotalInsert(l.allocations, key, next.value); }
  }

  lemma ReplaceKeepsTotal(l: Ledger, key: string, expected: Expected, next: Option<Allocation>,
                          enforce: bool, planned: Option<U128>, allow: bool)
    requires Valid(l)
    ensures var s := ReplaceStep(l, key, expected, next, enforce, planned, allow);
            && s.ledger.config == l.config
            && (s.result.Failure? ==> s.ledger == l)
            && Total(s.ledger.allocations) < U128_LIMIT
            && (enforce ==> Total(s.ledger.allocations) <= Max(Total(l.allocations), FullCeiling(l.config)))
            && (enforce && !allow
                ==> Total(s.ledger.allocations) <= Max(Total(l.allocations), ReducedCeiling(l.config)))
  {
    ReplaceTotal(l, key, next);
    TotalWithout(l.allocations, key);
  }

  /**
   * One step of any owner: charges keep covering estimates and keep fitting a
   * u128, a refused call changes nothing, and a step that does not adopt an
   * observation never takes the total past the ceiling, nor raises it once it is past.
   */
  lemma StepIsSafe(l: Ledger, op: Op)
    requires Valid(l)
    ensures var s := Apply(l, op);
            && Valid(s.ledger) && s.ledger.config == l.config
            && (s.result.Failure? ==> s.ledger == l)
            && (!Adopts(op) ==> Total(s.ledger.allocations) <= Max(Total(l.allocations), FullCeiling(l.config)))
  {
    var s := Apply(l, op);
    match op
    case Reserve(_, _, _) =>
      ReserveIsSafe(l, op);
    case Release(_) =>
      ReleaseIsSafe(l, op);
    case Resize(key, expected, next) =>
      CompareAndSetIsSafe(l, key, expected, next, true);
    case AdoptObserved(key, expected, observed) =>
      CompareAndSetIsSafe(l, key, expected, Some(observed), false);
    case BlockGrowth(key, expected) =>
      CompareAndSetIsSafe(l, key, expected, Some(l.config.budgetGb), false);
    case UpdateCharge(key, expected, next, admitGrowth) =>
      ReplaceKeepsTotal(l, key, Charge(expected), Some(ChargeAllocation(next)), admitGrowth, None, true);
    case ClaimCharge(key, current, planned, allow) =>
      ReplaceKeepsTotal(l, key, Charge(Some(current)), Some(ChargeAllocation(Max(current, planned))), true,
                        Some(planned), allow);
  }

  lemma ReserveIsSafe(l: Ledger, op: Op)
    requires Valid(l) && op.Reserve?
    ensures var s := Apply(l, op);
            && Valid(s.ledger) && s.ledger.config == l.config
            && (s.result.Failure? ==> s.ledger == l)
            && Total(s.ledger.allocations) <= Max(Total(l.allocations), FullCeiling(l.config))
  {
    var s := Apply(l, op);
    if s.ledger != l {
      TotalInsert(l.allocations, op.key, s.ledger.allocations[op.key]);
      TotalWithout(l.allocations, op.key);
    }
  }

  lemma ReleaseIsSafe(l: Ledger, op: Op)
    requires Valid(l) && op.Release?
    ensures var s := Apply(l, op);
            && Valid(s.ledger) && s.ledger.config == l.config && s.result.Success?
            && Total(s.ledger.allocations) <= Total(l.allocations)
  {
    TotalWithout(l.allocations, op.key);
  }

  lemma CompareAndSetIsSafe(l: Ledger, key: string, expected: Option<real>, next: Option<real>, enforce: bool)
    requires Valid(l)
    ensures var s := CompareAndSetStep(l, key, expected, next, enforce);
            && Valid(s.ledger) && s.ledger.config == l.config
            && (s.result.Failure? ==> s.ledger == l)
            && (enforce ==> Total(s.ledger.allocations) <= Max(Total(l.allocations), FullCeiling(l.config)))
  {
    var alloc := match next
      case None => None
      case Some(gb) => if Units(gb, Up).Success? then Some(Allocation(gb, Units(gb, Up).value)) else None;
    ReplaceKeepsTotal(l, key, Estimate(expected), alloc, enforce, None, true);
  }

  // ------------------------------------------------------------- all runs

  lemma {:induction false} RunKeepsValid(l: Ledger, ops: seq<Op>)
    requires Valid(l)
    ensures Valid(Run(l, ops)) && Run(l, ops).config == l.config
    decreases |ops|
  {
    if ops != [] {
      RunKeepsValid(l, ops[..|ops| - 1]);
      StepIsSafe(Run(l, ops[..|ops| - 1]), ops[|ops| - 1]);
    }
  }

  /** Without adoption the total stays under the ceiling whatever the owners do, in any order. */
  lemma {:induction false} RunStaysUnderCeiling(l: Ledger, ops: seq<Op>)
    requires Valid(l) && Total(l.allocations) <= FullCeiling(l.config)
    requires forall i :: 0 <= i < |ops| ==> !Adopts(ops[i])
    ensures Total(Run(l, ops).allocations) <= FullCeiling(l.config)
    decreases |ops|
  {
    if ops != [] {
      var before := ops[..|ops| - 1];
      RunStaysUnderCeiling(l, before);
      RunKeepsValid(l, before);
      StepIsSafe(Run(l, before), ops[|ops| - 1]);
    }
  }

  ghost function ReservedGb(a: Allocations): real {
    if a == map[] then 0.0
    else
      var k :| k in a;
      a[k].requestedGb + ReservedGb(a - {k})
  }

  lemma {:induction false} ReservedWithinTotal(a: Allocations)
    requires forall k :: k in a ==> a[k].requestedGb * UNITS_PER_GB as real <= a[k].chargedUnits as real
    ensures ReservedGb(a) * UNITS_PER_GB as real <= Total(a) as real
    decreases |a|
  {
    if a != map[] {
      var k :| k in a && ReservedGb(a) == a[k].requestedGb + ReservedGb(a - {k});
      ReservedWithinTotal(a - {k});
      TotalSplit(a, k);
    }
  }

  /** The promise in GB: what is reserved never passes the budget by more than 1e-6 GB, and never in byte mode. */
  lemma ReservedStaysWithinBudget(l: Ledger, ops: seq<Op>)
    requires Valid(l) && l.allocations == map[]
    requires forall i :: 0 <= i < |ops| ==> !Adopts(ops[i])
    ensures ReservedGb(Run(l, ops).allocations)
            <= l.config.budgetGb + l.config.epsilonUnits as real / UNITS_PER_GB as real
            <= l.config.budgetGb + 0.000001
    ensures l.config.epsilonUnits == 0 ==> Total(Run(l, ops).allocations) <= l.config.budgetUnits
  {
    RunStaysUnderCeiling(l, ops);
    RunKeepsValid(l, ops);
    ReservedWithinTotal(Run(l, ops).allocations);
  }

  // ------------------------------------------------------------- headroom

  /** Calls that carry no confirmation and do not grow by another door. */
  predicate Unconfirmed(op: Op) {
    match op
    case Reserve(_, _, allow) => !allow
    case ClaimCharge(_, _, _, allow) => !allow
    case Release(_) => true
    case Resize(_, expected, next) =>
      next.None? || (expected.Some? && next.value <= expected.value)
    case UpdateCharge(_, expected, next, _) => expected.Some? && next <= expected.value
    case AdoptObserved(_, _, _) => false
    case BlockGrowth(_, _) => false
  }

  /** A GB estimate in a ledger fed only by GB calls is charged at exactly its ceiling. */
  ghost predicate ChargedAtCeiling(l: Ledger) {
    forall k :: k in l.allocations ==>
      Units(l.allocations[k].requestedGb, Up) == Success(l.allocations[k].chargedUnits)
  }

  lemma UnitsMonotone(a: real, b: real)
    requires a <= b && Units(a, Up).Success? && Units(b, Up).Success?
    ensures Units(a, Up).value <= Units(b, Up).value
  {
    assert a * UNITS_PER_GB as real <= b * UNITS_PER_GB as real;
  }

  lemma ChargeIsItsOwnCeiling(units: U128)
    ensures Units(UnitsToGb(units), Up) == Success(units)
  {
    var gb := UnitsToGb(units);
    assert gb * UNITS_PER_GB as real == units as real;
    WholeIsItsOwnCeiling(units);
  }

  lemma WholeIsItsOwnCeiling(n: int)
    ensures Ceiling(n as real) == n
  {
  }

  lemma StepKeepsChargedAtCeiling(l: Ledger, op: Op)
    requires ChargedAtCeiling(l)
    ensures ChargedAtCeiling(Apply(l, op).ledger)
  {
    match op
    case UpdateCharge(_, _, next, _) => ChargeIsItsOwnCeiling(next);
    case ClaimCharge(_, current, planned, _) => ChargeIsItsOwnCeiling(Max(current, planned));
    case _ =>
  }

  lemma UnconfirmedStepKeepsHeadroom(l: Ledger, op: Op)
    requires Valid(l) && ChargedAtCeiling(l) && Unconfirmed(op)
    ensures Total(Apply(l, op).ledger.allocations) <= Max(Total(l.allocations), ReducedCeiling(l.config))
  {
    var s := Apply(l, op);
    match op
    case Reserve(key, gb, allow) =>
      if s.ledger != l {
        TotalInsert(l.allocations, key, s.ledger.allocations[key]);
        TotalWithout(l.allocations, key);
      }
    case Release(key) =>
      TotalWithout(l.allocations, key);
    case ClaimCharge(key, current, planned, allow) =>
      ReplaceKeepsTotal(l, key, Charge(Some(current)), Some(ChargeAllocation(Max(current, planned))), true,
                        Some(planned), allow);
    case UpdateCharge(key, expected, next, admitGrowth) =>
      ReplaceTotal(l, key, Some(ChargeAllocation(next)));
    case Resize(key, expected, next) =>
      if s.ledger != l {
        var alloc := if next.None? then None else Some(Allocation(next.value, Units(next.value, Up).value));
        ReplaceTotal(l, key, alloc);
        if next.Some? { UnitsMonotone(next.value, expected.value); }
      }
  }

  /** Headroom survives any interleaving of calls that do not confirm a breach. */
  lemma {:induction false} UnconfirmedRunKeepsHeadroom(l: Ledger, ops: seq<Op>)
    requires Valid(l) && ChargedAtCeiling(l) && Total(l.allocations) <= ReducedCeiling(l.config)
    requires forall i :: 0 <= i < |ops| ==> Unconfirmed(ops[i])
    ensures Total(Run(l, ops).allocations) <= ReducedCeiling(l.config)
    ensures ChargedAtCeiling(Run(l, ops))
    decreases |ops|
  {
    if ops != [] {
      var before, last := ops[..|ops| - 1], ops[|ops| - 1];
      UnconfirmedRunKeepsHeadroom(l, before);
      RunKeepsValid(l, before);
      UnconfirmedStepKeepsHeadroom(Run(l, before), last);
      StepKeepsChargedAtCeiling(Run(l, before), last);
    }
  }

  function Confirmed(op: Op): Op
    requires op.Reserve? || op.ClaimCharge?
  {
    match op
    case Reserve(key, gb, _) => Reserve(key, gb, true)
    case ClaimCharge(key, current, planned, _) => ClaimCharge(key, current, planned, true)
  }

  /**
   * The two refusals tell the caller the truth: "confirm" is answered exactly
   * when the same call with confirmation is admitted in this state, and "out of
   * memory" exactly when confirmation would be refused the same way.
   */
  lemma RefusalsAreHonest(l: Ledger, op: Op)
    requires Valid(l) && (op.Reserve? || op.ClaimCharge?) && !op.allow
    ensures Apply(l, op).result == Failure(HeadroomConfirmationRequired)
            <==> Apply(l, op).result.Failure? && Apply(l, Confirmed(op)).result.Success?
    ensures Apply(l, op).result == Failure(Oom) <==> Apply(l, Confirmed(op)).result == Failure(Oom)
  {
    TotalWithout(l.allocations, op.key);
  }

  // --------------------------------------------------------- effect of a call

  /** What a call that succeeds leaves under its key. */
  predicate Records(l: Ledger, op: Op, now: Option<Allocation>) {
    match op
    case Release(_) => now.None?
    case Reserve(_, gb, _) => HoldsEstimate(now, gb)
    case Resize(_, _, next) => if next.None? then now.None? else HoldsEstimate(now, next.value)
    case AdoptObserved(_, _, observed) => HoldsEstimate(now, observed)
    case BlockGrowth(_, _) => HoldsEstimate(now, l.config.budgetGb)
    case UpdateCharge(_, _, next, _) => HoldsCharge(now, next)
    case ClaimCharge(_, current, planned, _) => HoldsCharge(now, if current < planned then planned else current)
  }

  /** The estimate in GB, charged at its ceiling in units. */
  predicate HoldsEstimate(now: Option<Allocation>, gb: real) {
    && now.Some? && now.value.requestedGb == gb
    && gb * 1_000_000_000.0 <= now.value.chargedUnits as real < gb * 1_000_000_000.0 + 1.0
  }

  predicate HoldsCharge(now: Option<Allocation>, units: nat) {
    now.Some? && now.value.chargedUnits == units && now.value.requestedGb == units as real / 1_000_000_000.0
  }

  lemma EstimateIsHeld(gb: real)
    requires Units(gb, Up).Success?
    ensures HoldsEstimate(Some(Allocation(gb, Units(gb, Up).value)), gb)
  {
  }

  /** `s` leaves `now` under `key` if it succeeds and changes nothing else. */
  ghost predicate Leaves(l: Ledger, s: Step, key: string, now: Option<Allocation>) {
    && s.ledger.config == l.config
    && (forall k :: k != key ==> Lookup(s.ledger.allocations, k) == Lookup(l.allocations, k))
    && if s.result.Failure? then s.ledger == l else Lookup(s.ledger.allocations, key) == now
  }

  lemma ReplaceLeaves(l: Ledger, key: string, expected: Expected, next: Option<Allocation>, enforceGrowth: bool,
                      planned: Option<U128>, allow: bool)
    ensures Leaves(l, ReplaceStep(l, key, expected, next, enforceGrowth, planned, allow), key, next)
  {
  }

  lemma CompareAndSetLeaves(l: Ledger, key: string, expected: Option<real>, next: Option<real>, enforce: bool)
    ensures var s := CompareAndSetStep(l, key, expected, next, enforce);
            && (next.None? ==> Leaves(l, s, key, None))
            && (next.Some? ==> if Units(next.value, Up).Success? then
                                 Leaves(l, s, key, Some(Allocation(next.value, Units(next.value, Up).value)))
                               else s.result.Failure? && s.ledger == l)
  {
    match next
    case None => ReplaceLeaves(l, key, Estimate(expected), None, enforce, None, true);
    case Some(gb) =>
      if Units(gb, Up).Success? {
        ReplaceLeaves(l, key, Estimate(expected), Some(Allocation(gb, Units(gb, Up).value)), enforce, None, true);
      }
  }

  /** A call that succeeds records what it says under its key and nothing else; one that fails records nothing. */
  ghost predicate Recorded(l: Ledger, op: Op) {
    var s := Apply(l, op);
    && (s.result.Failure? ==> s.ledger == l)
    && (s.result.Success? ==> Records(l, op, Lookup(s.ledger.allocations, op.key)))
    && (forall k :: k != op.key ==> Lookup(s.ledger.allocations, k) == Lookup(l.allocations, k))
    && s.ledger.config == l.config
  }

  lemma EstimateCallRecords(l: Ledger, op: Op)
    requires op.Resize? || op.AdoptObserved? || op.BlockGrowth?
    ensures Recorded(l, op)
  {
    match op
    case Resize(key, expected, next) => CompareAndSetLeaves(l, key, expected, next, true);
    case AdoptObserved(key, expected, observed) => CompareAndSetLeaves(l, key, expected, Some(observed), false);
    case BlockGrowth(key, expected) => CompareAndSetLeaves(l, key, expected, Some(l.config.budgetGb), false);
    case _ =>
  }

  lemma ChargeCallRecords(l: Ledger, op: Op)
    requires op.UpdateCharge? || op.ClaimCharge?
    ensures Recorded(l, op)
  {
    match op
    case UpdateCharge(key, expected, next, admitGrowth) =>
      ReplaceLeaves(l, key, Charge(expected), Some(ChargeAllocation(next)), admitGrowth, None, true);
    case ClaimCharge(key, current, planned, allow) =>
      ReplaceLeaves(l, key, Charge(Some(current)), Some(ChargeAllocation(Max(current, planned))), true, Some(planned),
                    allow);
    case _ =>
  }

  lemma CallRecords(l: Ledger, op: Op)
    requires ChargedAtCeiling(l)
    ensures Recorded(l, op)
  {
    match op
    case Reserve(key, gb, _) => if Units(gb, Up).Success? { EstimateIsHeld(gb); }
    case Release(_) =>
    case Resize(_, _, _) => EstimateCallRecords(l, op);
    case AdoptObserved(_, _, _) => EstimateCallRecords(l, op);
    case BlockGrowth(_, _) => EstimateCallRecords(l, op);
    case UpdateCharge(_, _, _, _) => ChargeCallRecords(l, op);
    case ClaimCharge(_, _, _, _) => ChargeCallRecords(l, op);
  }

  /** A release always succeeds and gives back exactly what its key was charged. */
  lemma ReleaseGivesBack(l: Ledger, key: string)
    ensures Apply(l, Op.Release(key)).result.Success?
    ensures key !in Apply(l, Op.Release(key)).ledger.allocations
    ensures Total(Apply(l, Op.Release(key)).ledger.allocations) == Total(l.allocations) - ChargeOf(l.allocations, key)
  {
    TotalWithout(l.allocations, key);
  }

  /** A first reservation succeeds exactly if it fits its ceiling; a repeated one exactly if it says the same. */
  lemma ReserveSucceedsExactly(l: Ledger, key: string, gb: real, allow: bool)
    requires Valid(l)
    ensures Apply(l, Reserve(key, gb, allow)).result.Success?
            <==> && Units(gb, Up).Success? && !IsBlank(key)
                 && if key in l.allocations then l.allocations[key].requestedGb == gb
                    else
                      && (l.config.budgetGb == 0.0 ==> Units(gb, Up).value == 0)
                      && Total(l.allocations) + Units(gb, Up).value
                         <= if allow then FullCeiling(l.config) else ReducedCeiling(l.config)
  {
  }

  /** An adoption is never refused for capacity: only for a bad amount, a blank key, a stale expectation or overflow. */
  lemma AdoptionSucceedsExactly(l: Ledger, key: string, expected: Option<real>, observed: real)
    requires Valid(l)
    ensures Apply(l, AdoptObserved(key, expected, observed)).result.Success?
            <==> && (expected.Some? ==> Units(expected.value, Up).Success?) && Units(observed, Up).Success?
                 && !IsBlank(key) && Matches(Lookup(l.allocations, key), Estimate(expected))
                 && Total(l.allocations) - ChargeOf(l.allocations, key) + Units(observed, Up).value < U128_LIMIT
  {
    TotalWithout(l.allocations, key);
  }

  /** The characters of Unicode's White_Space property. */
  const WHITE_SPACE := "\t\n\U{B}\U{C}\r \U{85}\U{A0}\U{1680}\U{2000}\U{2001}\U{2002}\U{2003}\U{2004}\U{2005}"
    + "\U{2006}\U{2007}\U{2008}\U{2009}\U{200A}\U{2028}\U{2029}\U{202F}\U{205F}\U{3000}"

  /** A key is blank exactly if it is made of those. */
  lemma BlankKeys(key: string)
    ensures IsBlank(key) <==> forall c :: c in key ==> c in WHITE_SPACE
  {
    forall c: char ensures IsWhitespace(c) <==> c in WHITE_SPACE {
      SpaceIsListed(c);
    }
    if forall c :: c in key ==> c in WHITE_SPACE {
      forall i | 0 <= i < |key| ensures IsWhitespace(key[i]) {
        assert key[i] in key;
      }
    }
  }

  lemma SpaceIsListed(c: char)
    ensures IsWhitespace(c) <==> c in WHITE_SPACE
  {
  }

  // ----------------------------------------------------------- ownership

  /** Owners never disturb each other: a step on another key leaves this entry alone. */
  lemma OthersLeaveEntryAlone(l: Ledger, op: Op, key: string)
    requires op.key != key
    ensures Lookup(Apply(l, op).ledger.allocations, key) == Lookup(l.allocations, key)
  {
  }

  /** So a single owner's compare-and-set finds the value it last wrote, whatever the others did since. */
  lemma {:induction false} SoleOwnerEntryIsStable(l: Ledger, ops: seq<Op>, key: string)
    requires forall i :: 0 <= i < |ops| ==> ops[i].key != key
    ensures Lookup(Run(l, ops).allocations, key) == Lookup(l.allocations, key)
    decreases |ops|
  {
    if ops != [] {
      SoleOwnerEntryIsStable(l, ops[..|ops| - 1], key);
      OthersLeaveEntryAlone(Run(l, ops[..|ops| - 1]), ops[|ops| - 1], key);
    }
  }
}
