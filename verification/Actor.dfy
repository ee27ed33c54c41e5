/**
 * The supervisor actor as a value: what one message makes of its state.
 *
 * The state holds the program's own variables and, beside them, what the actor
 * shares with the world: the capacity ledger, the marker on disk, the one
 * background operation, the chats in flight, and a record of requests and replies.
 */
module Actor {
  import opened Wrappers
  import opened Backend
  import opened LoadPolicies
  import opened CapacityUnits
  import opened Eviction
  import opened LoadFences
  import opened LoadFlow
  import opened LoadTasks
  import L = CapacityLedger

  datatype ModelSlot = ModelSlot(
    memoryGb: real, charge: nat, state: ModelState, lastUsedSeq: nat, policy: LoadPolicy,
    inflight: nat, loadUnconfirmed: bool, inherited: bool)
  type Models = map<string, ModelSlot>

  datatype ActiveKind =
    | ActiveLoad(policy: LoadPolicy, memoryGb: real, allow: bool, waiters: seq<nat>)
    | ActiveUnload(waiters: seq<nat>, started: bool)
  datatype ActiveOp = ActiveOp(id: string, kind: ActiveKind)

  /** How this runtime's share of the ledger is tracked, and the last amount it settled on. */
  datatype Claim = Untracked | Exact(units: U128) | Legacy(gb: real)

  datatype Task = LoadTask(ctx: FlowContext) | UnloadTask(id: string, maxUsedGb: real)
  datatype Poison = LostEntry | NoActiveOp | CapacityMismatch
  datatype Settings = Settings(budgetGb: real, releaseAttempts: nat, probeAttempts: nat, ledgerKey: string)

  datatype Request =
    | LoadRequest(id: string, memoryGb: real, policy: LoadPolicy, allow: bool)
    | UnloadRequest(id: string)
  datatype Reply = Reply(req: nat, result: Result<(), BackendError>)

  datatype State = State(
    settings: Settings,
    keys: seq<string>, models: Models, active: Option<ActiveOp>, nextSeq: nat, poisoned: Option<Poison>,
    reservedGb: real, covered: map<string, real>, claim: Claim, startupError: Option<BackendError>,
    ledger: L.Ledger, marker: Marker, task: Option<Task>, chats: multiset<string>,
    asked: map<nat, Request>, replies: seq<Reply>)

  // ------------------------------------------------------------- accounting

  function OccupiedGb(keys: seq<string>, models: Models, skip: set<string>): real {
    if keys == [] then 0.0
    else
      var k := keys[0];
      (if k in models && k !in skip && OccupiesBudget(models[k].state) then models[k].memoryGb else 0.0)
      + OccupiedGb(keys[1..], models, skip)
  }

  /** A slot whose memory the last aggregate sample also counted. */
  predicate Credited(models: Models, covered: map<string, real>, k: string) {
    k in models && k in covered && OccupiesBudget(models[k].state) && !models[k].loadUnconfirmed
  }

  function MinReal(a: real, b: real): real { if a <= b then a else b }
  function MaxReal(a: real, b: real): real { if a <= b then b else a }

  function CoveredGb(keys: seq<string>, models: Models, covered: map<string, real>, skip: set<string>): real {
    if keys == [] then 0.0
    else
      var k := keys[0];
      (if k !in skip && Credited(models, covered, k) then MinReal(models[k].memoryGb, covered[k]) else 0.0)
      + CoveredGb(keys[1..], models, covered, skip)
  }

  function EffectiveReservedGb(st: State, skip: set<string>): real {
    MaxReal(st.reservedGb - CoveredGb(st.keys, st.models, st.covered, skip), 0.0)
  }

  function AccountedGb(st: State): real {
    OccupiedGb(st.keys, st.models, {}) + EffectiveReservedGb(st, {})
  }

  function OccupiedCharge(keys: seq<string>, models: Models, skip: set<string>): nat {
    if keys == [] then 0
    else
      var k := keys[0];
      (if k in models && k !in skip && OccupiesBudget(models[k].state) then models[k].charge else 0)
      + OccupiedCharge(keys[1..], models, skip)
  }

  function CoveredCharge(keys: seq<string>, models: Models, covered: map<string, real>): Result<nat, BackendError> {
    if keys == [] then Success(0)
    else
      var k := keys[0];
      match CoveredCharge(keys[1..], models, covered)
      case Failure(e) => Failure(e)
      case Success(rest) =>
        if !Credited(models, covered, k) then Success(rest)
        else
          match Units(covered[k], Up)
          case Failure(_) => Failure(InvalidRequest)
          case Success(credit) => Success(L.Min(models[k].charge, credit) + rest)
  }

  function Fits(units: nat): Result<U128, BackendError> {
    if units < U128_LIMIT then Success(units) else Failure(InvariantViolation)
  }

  function ExactReservedCharge(st: State): Result<nat, BackendError> {
    match CoveredCharge(st.keys, st.models, st.covered)
    case Failure(e) => Failure(e)
    case Success(covered) =>
      if covered >= U128_LIMIT then Failure(InvariantViolation)
      else
        match Units(st.reservedGb, Up)
        case Failure(_) => Failure(InvalidRequest)
        case Success(reserved) => Success(L.SaturatingSub(reserved, covered))
  }

  function ExactCharge(st: State, skip: set<string>): Result<U128, BackendError> {
    match ExactReservedCharge(st)
    case Failure(e) => Failure(e)
    case Success(reserved) => Fits(reserved + OccupiedCharge(st.keys, st.models, skip))
  }

  predicate AnyUnconfirmed(st: State) {
    exists k :: k in st.models && st.models[k].loadUnconfirmed
  }

  ghost function OnLedger(st: State, op: L.Op, claim: Claim): (State, Result<(), BackendError>) {
    var step := L.Apply(st.ledger, op);
    (if step.result.Success? then st.(ledger := step.ledger, claim := claim)
     else st.(ledger := step.ledger), step.result)
  }

  /** Before a load: hold the larger of what is held and what is planned. */
  ghost function ClaimCapacity(st: State, plannedGb: real, plannedCharge: Option<U128>, allow: bool)
    : (State, Result<(), BackendError>)
  {
    match st.claim
    case Untracked => (st, Success(()))
    case Exact(current) =>
      if plannedCharge.None? then (st, Failure(InvariantViolation))
      else
        OnLedger(st, L.ClaimCharge(st.settings.ledgerKey, current, plannedCharge.value, allow),
                 Exact(L.Max(current, plannedCharge.value)))
    case Legacy(gb) =>
      var next := MaxReal(gb, plannedGb);
      if next == gb then (st, Success(()))
      else OnLedger(st, L.Resize(st.settings.ledgerKey, Some(gb), Some(next)), Legacy(next))
  }

  /** After an operation: the ledger follows what is now accounted; growth nobody admitted is a violation. */
  ghost function SettleCapacity(st: State): (State, Result<(), BackendError>) {
    match st.claim
    case Untracked => (st, Success(()))
    case Exact(current) => SettleExact(st, current)
    case Legacy(gb) => SettleLegacy(st, gb)
  }

  ghost function SettleExact(st: State, current: U128): (State, Result<(), BackendError>) {
    match ExactCharge(st, {})
    case Failure(e) => (st, Failure(e))
    case Success(accounted) =>
      if accounted <= current && AnyUnconfirmed(st) then (st, Success(()))
      else
        var (after, result) :=
          OnLedger(st, L.UpdateCharge(st.settings.ledgerKey, Some(current), accounted, accounted <= current),
                   Exact(accounted));
        if result.Failure? then (after, result)
        else if accounted > current && !AnyUnconfirmed(st) then (after, Failure(InvariantViolation))
        else (after, Success(()))
  }

  ghost function SettleLegacy(st: State, gb: real): (State, Result<(), BackendError>) {
    var accounted := AccountedGb(st);
    if -CAPACITY_EPSILON_GB <= accounted - gb <= CAPACITY_EPSILON_GB then (st, Success(()))
    else if accounted > gb then
      var (after, result) := OnLedger(st, L.AdoptObserved(st.settings.ledgerKey, Some(gb), accounted),
                                      Legacy(accounted));
      if result.Failure? then (after, result)
      else (after, if AnyUnconfirmed(st) then Success(()) else Failure(InvariantViolation))
    else if AnyUnconfirmed(st) then (st, Success(()))
    else OnLedger(st, L.Resize(st.settings.ledgerKey, Some(gb), Some(accounted)), Legacy(accounted))
  }

  /** The credits of a sample are frozen at what each slot was worth when it was taken. */
  function RefreshedCredits(models: Models, status: BackendStatus, excluded: Option<string>, creditGb: real)
    : map<string, real>
  {
    var credits := map k | k in status.loaded && Some(k) != excluded && k in models
                          && OccupiesBudget(models[k].state) && !models[k].loadUnconfirmed :: models[k].memoryGb;
    if excluded.Some? && creditGb > 0.0 && excluded.value in status.loaded then
      credits[excluded.value := creditGb]
    else credits
  }

  function RefreshAggregate(st: State, status: BackendStatus, excluded: Option<string>, creditGb: real): State {
    st.(reservedGb := status.usedGb, covered := RefreshedCredits(st.models, status, excluded, creditGb))
  }

  // ------------------------------------------------------------------- load

  function AnswerTo(st: State, req: nat, result: Result<(), BackendError>): State {
    st.(replies := st.replies + [Reply(req, result)])
  }

  function RepliesTo(waiters: seq<nat>, result: Result<(), BackendError>): seq<Reply> {
    seq(|waiters|, i requires 0 <= i < |waiters| => Reply(waiters[i], result))
  }

  datatype Gate = Answered(result: Result<(), BackendError>) | Joins | Proceeds

  function LoadGate(st: State, id: string, gb: real, policy: LoadPolicy, allow: bool): Gate {
    if gb < 0.0 then Answered(Failure(InvalidRequest))
    else if st.active.Some? && st.active.value.id == id then
      var kind := st.active.value.kind;
      if kind.ActiveLoad? && kind.policy == policy && kind.memoryGb == gb && kind.allow == allow then Joins
      else Answered(Failure(Busy))
    else if id in st.models && st.models[id].loadUnconfirmed then Answered(Failure(ModelUnavailable))
    else if id in st.models && st.models[id].state.Ready? && st.models[id].policy == policy then Answered(Success(()))
    else if id in st.models && st.models[id].inflight != 0 then Answered(Failure(Busy))
    else if st.active.Some? then Answered(Failure(Busy))
    else Proceeds
  }

  function Join(st: State, req: nat): State
    requires st.active.Some?
  {
    var kind :=
      match st.active.value.kind
      case ActiveLoad(policy, gb, allow, waiters) => ActiveLoad(policy, gb, allow, waiters + [req])
      case ActiveUnload(waiters, started) => ActiveUnload(waiters + [req], started);
    st.(active := Some(st.active.value.(kind := kind)))
  }

  function Entry(id: string, slot: ModelSlot): ModelEntry {
    ModelEntry(id, slot.memoryGb, slot.state,
               slot.loadUnconfirmed || slot.inherited || slot.policy.keepalive == Pinned(true),
               slot.lastUsedSeq, slot.inflight)
  }

  function Entries(order: seq<string>, models: Models, exclude: string): seq<ModelEntry> {
    if order == [] then []
    else if order[0] in models && order[0] != exclude then
      [Entry(order[0], models[order[0]])] + Entries(order[1..], models, exclude)
    else Entries(order[1..], models, exclude)
  }

  datatype LoadPlan = LoadPlan(
    victims: seq<string>, memoryGb: real, charge: nat, plannedGb: real, plannedCharge: Option<U128>)

  predicate Inherited(st: State, id: string) { id in st.models && st.models[id].inherited }

  /** What an inherited model still needs beyond the residency it was found with. */
  function RequestGb(st: State, id: string, gb: real): real {
    if Inherited(st, id) then MaxReal(gb, EffectiveReservedGb(st, {})) - EffectiveReservedGb(st, {}) else gb
  }

  function RequestSnapshot(st: State, id: string, order: seq<string>): Snapshot {
    Snapshot(st.settings.budgetGb - EffectiveReservedGb(st, {}), Entries(order, st.models, id))
  }

  function MapPlanError(e: PlanError): BackendError {
    match e
    case InsufficientCapacity(_, _, _, _) => EvictionImpossible
    case InvalidCapacity => InvalidRequest
    case SnapshotContainsRequestedModel(_) => InvariantViolation
  }

  function SetOf(ids: seq<string>): set<string> { set i | 0 <= i < |ids| :: ids[i] }

  function ChargeOfRequest(st: State, id: string, gb: real): Result<nat, BackendError> {
    match Units(gb, Up)
    case Failure(_) => Failure(InvalidRequest)
    case Success(target) =>
      if !Inherited(st, id) then Success(target)
      else
        match ExactReservedCharge(st)
        case Failure(e) => Failure(e)
        case Success(reserved) => Success(L.SaturatingSub(target, reserved))
  }

  function ChargePlan(st: State, id: string, gb: real, victims: seq<string>)
    : Result<(Option<U128>, nat), BackendError>
  {
    if !st.claim.Exact? then Success((None, 0))
    else
      match ChargeOfRequest(st, id, gb)
      case Failure(e) => Failure(e)
      case Success(charge) =>
        match ExactCharge(st, {id} + SetOf(victims))
        case Failure(e) => Failure(e)
        case Success(rest) =>
          match Fits(rest + charge)
          case Failure(e) => Failure(e)
          case Success(planned) => Success((Some(planned), charge))
  }

  function PlanLoad(st: State, id: string, gb: real, order: seq<string>): Result<LoadPlan, BackendError> {
    var reservation := EffectiveReservedGb(st, {});
    var request := RequestGb(st, id, gb);
    if reservation > st.settings.budgetGb then Failure(EvictionImpossible)
    else
      match PlanEviction(RequestSnapshot(st, id, order), ModelReq(id, request))
      case Failure(e) => Failure(MapPlanError(e))
      case Success(plan) =>
        var victims := if plan.Evict? then plan.victims else [];
        match ChargePlan(st, id, gb, victims)
        case Failure(e) => Failure(e)
        case Success(charges) =>
          Success(LoadPlan(victims, request, charges.1,
                           reservation + request + OccupiedGb(st.keys, st.models, {id} + SetOf(victims)), charges.0))
  }

  function StopVictims(models: Models, victims: seq<string>): Models {
    map k | k in models :: if k in victims then models[k].(state := Stopping) else models[k]
  }

  function PreviousOf(st: State, id: string): Option<PreviousModel> {
    if id in st.models && OccupiesBudget(st.models[id].state) then
      var s := st.models[id];
      Some(PreviousModel(s.state, s.policy, s.memoryGb, s.charge, s.inherited))
    else None
  }

  function NewSlot(st: State, id: string, policy: LoadPolicy, plan: LoadPlan): ModelSlot {
    ModelSlot(plan.memoryGb, plan.charge, Loading, if id in st.models then st.models[id].lastUsedSeq else 0,
              policy, 0, false, Inherited(st, id))
  }

  function FlowOf(st: State, id: string, policy: LoadPolicy, victims: seq<string>, previous: Option<PreviousModel>)
    : FlowContext
  {
    var remaining := OccupiedGb(st.keys, st.models, {id} + SetOf(victims)) + EffectiveReservedGb(st, {});
    FlowContext(id, policy, victims, previous, previous.Some? && previous.value.inherited,
                remaining, remaining + (if previous.Some? then previous.value.memoryGb else 0.0),
                st.settings.releaseAttempts, st.settings.probeAttempts)
  }

  /** Everything a load changes at once: victims stop, the slot is Loading, the operation is active, the task runs. */
  function Install(st: State, req: nat, id: string, gb: real, policy: LoadPolicy, allow: bool, plan: LoadPlan): State {
    var installed := st.(
      keys := if id in st.models then st.keys else st.keys + [id],
      models := StopVictims(st.models, plan.victims)[id := NewSlot(st, id, policy, plan)],
      active := Some(ActiveOp(id, ActiveLoad(policy, gb, allow, [req]))));
    installed.(task := Some(LoadTask(FlowOf(installed, id, policy, plan.victims, PreviousOf(st, id)))))
  }

  /** The marker goes up first, then the claim; either refusal leaves everything else untouched. */
  ghost function AdmitLoad(st: State, req: nat, id: string, gb: real, policy: LoadPolicy, allow: bool, plan: LoadPlan,
                           beginIo: BeginIo, clearIo: ClearIo): State
  {
    var begun := BeginStep(st.marker, beginIo);
    var fenced := st.(marker := begun.marker);
    if !begun.ok then AnswerTo(fenced, req, Failure(Internal))
    else
      var (claimed, result) := ClaimCapacity(fenced, plan.plannedGb, plan.plannedCharge, allow);
      if result.Success? then Install(claimed, req, id, gb, policy, allow, plan)
      else
        var cleared := ClearStep(claimed.marker, clearIo);
        AnswerTo(claimed.(marker := cleared.marker), req, if cleared.ok then result else Failure(Internal))
  }

  ghost function ProceedLoad(st: State, req: nat, id: string, gb: real, policy: LoadPolicy, allow: bool,
                             planned: Result<LoadPlan, BackendError>, beginIo: BeginIo, clearIo: ClearIo): State
  {
    match planned
    case Failure(e) => AnswerTo(st, req, Failure(e))
    case Success(plan) => AdmitLoad(st, req, id, gb, policy, allow, plan, beginIo, clearIo)
  }

  ghost function HandleLoad(st: State, req: nat, id: string, gb: real, policy: LoadPolicy, allow: bool,
                            order: seq<string>, beginIo: BeginIo, clearIo: ClearIo): State
  {
    match LoadGate(st, id, gb, policy, allow)
    case Answered(result) => AnswerTo(st, req, result)
    case Joins => Join(st, req)
    case Proceeds => ProceedLoad(st, req, id, gb, policy, allow, PlanLoad(st, id, gb, order), beginIo, clearIo)
  }

  // ----------------------------------------------------------------- unload

  function UnloadGate(st: State, id: string): Gate {
    if st.active.Some? && st.active.value.id == id then
      if st.active.value.kind.ActiveUnload? then Joins else Answered(Failure(Busy))
    else if id !in st.models then Answered(Failure(ModelNotFound))
    else if st.models[id].state.Stopped? && !st.models[id].inherited then Answered(Success(()))
    else if st.models[id].loadUnconfirmed then Answered(Failure(ModelUnavailable))
    else if st.active.Some? then Answered(Failure(Busy))
    else Proceeds
  }

  function SetState(st: State, id: string, state: ModelState): State
    requires id in st.models
  {
    st.(models := st.models[id := st.models[id].(state := state)])
  }

  function UnloadTaskOf(st: State, id: string): Task {
    UnloadTask(id, OccupiedGb(st.keys, st.models, {id}) + EffectiveReservedGb(st, {id}))
  }

  function StartUnload(st: State, req: nat, id: string): State
    requires id in st.models
  {
    var stopping := SetState(st, id, Stopping);
    var idle := st.models[id].inflight == 0;
    stopping.(active := Some(ActiveOp(id, ActiveUnload([req], idle))),
              task := if idle then Some(UnloadTaskOf(stopping, id)) else st.task)
  }

  function HandleUnload(st: State, req: nat, id: string): State {
    match UnloadGate(st, id)
    case Answered(result) => AnswerTo(st, req, result)
    case Joins => Join(st, req)
    case Proceeds => StartUnload(st, req, id)
  }

  // ------------------------------------------------------------------ chats

  function HandleChat(st: State, id: string, permit: bool): State {
    if id !in st.models || !st.models[id].state.Ready? || !permit then st
    else
      var slot := st.models[id];
      st.(nextSeq := st.nextSeq + 1,
          models := st.models[id := slot.(lastUsedSeq := st.nextSeq + 1, inflight := slot.inflight + 1)],
          chats := st.chats + multiset{id})
  }

  predicate WaitsToUnload(st: State, id: string) {
    st.active.Some? && st.active.value.id == id
    && st.active.value.kind.ActiveUnload? && !st.active.value.kind.started
  }

  function CountedDown(st: State, id: string): State
    requires id in st.models
  {
    var slot := st.models[id];
    st.(chats := st.chats - multiset{id},
        models := st.models[id := slot.(inflight := L.SaturatingSub(slot.inflight, 1))])
  }

  function StartDrained(st: State, id: string): State
    requires WaitsToUnload(st, id)
  {
    st.(active := Some(st.active.value.(kind := st.active.value.kind.(started := true))),
        task := Some(UnloadTaskOf(st, id)))
  }

  function HandleChatDone(st: State, id: string): State {
    var ended := st.(chats := st.chats - multiset{id});
    if st.poisoned.Some? then ended
    else if id !in st.models then ended.(poisoned := Some(LostEntry))
    else
      var counted := CountedDown(st, id);
      if counted.models[id].inflight == 0 && WaitsToUnload(counted, id) then StartDrained(counted, id) else counted
  }

  // ----------------------------------------------------------------- OpDone

  function Settled(slot: ModelSlot, state: ModelState): ModelSlot {
    slot.(state := state, inherited := slot.inherited && !state.Stopped?)
  }

  predicate AllKnown(models: Models, results: seq<VictimResult>) {
    forall r :: r in results ==> r.id in models
  }

  predicate Reported(results: seq<VictimResult>, id: string) { exists r :: r in results && r.id == id }
  predicate ReportedGone(results: seq<VictimResult>, id: string) {
    exists r :: r in results && r.id == id && r.result.Success?
  }

  /** A victim whose unload succeeded is Stopped; any other is Error. */
  function SettleVictims(models: Models, results: seq<VictimResult>): Models {
    map k | k in models ::
      if Reported(results, k) then
        Settled(models[k], if ReportedGone(results, k) then Stopped else Error)
      else models[k]
  }

  /** What a failed load leaves in the target's slot. */
  function FailedSlot(slot: ModelSlot, failure: LoadFailure): ModelSlot {
    match failure
    case Settle(state) => Settled(slot, state)
    case SettleReleased(_) => Settled(slot, Stopped)
    case RestorePrevious(p) =>
      slot.(state := p.state, policy := p.policy, memoryGb := p.memoryGb, charge := p.charge, inherited := p.inherited)
    case RetainPreviousOnError(p) =>
      slot.(state := Error, policy := p.policy, memoryGb := MaxReal(slot.memoryGb, p.memoryGb),
            charge := L.Max(slot.charge, p.charge), inherited := p.inherited)
    case RetainUnconfirmedLoad(kept) =>
      match kept
      case None => slot.(state := Error, loadUnconfirmed := true)
      case Some(p) =>
        slot.(state := Error, loadUnconfirmed := true, policy := p.policy,
              memoryGb := MaxReal(slot.memoryGb, p.memoryGb), charge := L.Max(slot.charge, p.charge))
  }

  /** Victims first, then the sample that proved them gone. */
  function ApplyEviction(st: State, id: string, o: LoadOutcome): State {
    var evicted := st.(models := SettleVictims(st.models, o.victimResults));
    if o.aggregateStatus.Some? then
      RefreshAggregate(evicted, o.aggregateStatus.value, Some(id), o.aggregateTargetCreditGb)
    else evicted
  }

  function ApplySuccess(st: State, id: string): State
    requires id in st.models
  {
    st.(nextSeq := st.nextSeq + 1,
        models := st.models[id := st.models[id].(state := Ready, lastUsedSeq := st.nextSeq + 1)])
  }

  function ApplyFailure(st: State, id: string, failure: LoadFailure): State
    requires id in st.models
  {
    var failed := st.(models := st.models[id := FailedSlot(st.models[id], failure)]);
    if failure.SettleReleased? then RefreshAggregate(failed, failure.status, None, 0.0) else failed
  }

  /** The ledger of models after a load reported, before capacity is settled. */
  function ApplyLoadOutcome(st: State, id: string, o: LoadOutcome): State
    requires id in st.models
  {
    var evicted := ApplyEviction(st, id, o);
    if o.result.Success? then ApplySuccess(evicted, id) else ApplyFailure(evicted, id, o.failure)
  }

  function ApplyUnloadOutcome(st: State, id: string, o: UnloadOutcome): State
    requires id in st.models
  {
    var slot := st.models[id];
    var done :=
      if o.result.Success? then
        st.(nextSeq := st.nextSeq + 1, models := st.models[id := Settled(slot, Stopped)])
      else st.(models := st.models[id := Settled(slot, Error)]);
    if o.status.Some? then RefreshAggregate(done, o.status.value, None, 0.0) else done
  }

  function Waiters(st: State): seq<nat> {
    if st.active.Some? then st.active.value.kind.waiters else []
  }

  function Release(st: State, result: Result<(), BackendError>): State {
    st.(active := None, replies := st.replies + RepliesTo(Waiters(st), result))
  }

  function Poisons(st: State, cause: Poison): State {
    Release(st, Failure(InvariantViolation)).(poisoned := Some(cause))
  }

  /** Every way an operation ends: capacity follows, then all its waiters get the one result. */
  ghost function Conclude(st: State, result: Result<(), BackendError>): State {
    if st.active.None? then Poisons(st, NoActiveOp)
    else
      var (settled, capacity) := SettleCapacity(st);
      if capacity.Failure? then Poisons(settled, CapacityMismatch) else Release(settled, result)
  }

  ghost function LoadDone(st: State, id: string, o: LoadOutcome): State {
    var ended := st.(task := None);
    if st.poisoned.Some? then Release(ended, Failure(InvariantViolation))
    else if id !in st.models || !AllKnown(st.models, o.victimResults) then Poisons(ended, LostEntry)
    else Conclude(ApplyLoadOutcome(ended, id, o), o.result)
  }

  ghost function UnloadDone(st: State, id: string, o: UnloadOutcome): State {
    var ended := st.(task := None);
    if st.poisoned.Some? then Release(ended, Failure(InvariantViolation))
    else if id !in st.models then Poisons(ended, LostEntry)
    else Conclude(ApplyUnloadOutcome(ended, id, o), o.result)
  }

  // ------------------------------------------------------------------- step

  datatype Message =
    | Load(req: nat, id: string, gb: real, policy: LoadPolicy, allow: bool, order: seq<string>, beginIo: BeginIo,
           clearIo: ClearIo)
    | Unload(req: nat, id: string)
    | Chat(id: string, permit: bool)
    | ChatDone(id: string)
    | LoadReported(trace: seq<Event>)
    | UnloadReported(trace: seq<Event>, outcome: UnloadOutcome)
    | OtherOwner(op: L.Op)

  /** What may arrive next: a fresh request, the end of something running, or another runtime's ledger call. */
  predicate Enabled(st: State, m: Message) {
    match m
    case Load(req, _, _, _, _, order, _, _) => req !in st.asked && multiset(order) == multiset(st.keys)
    case Unload(req, _) => req !in st.asked
    case Chat(_, _) => true
    case ChatDone(id) => id in st.chats
    case LoadReported(trace) =>
      && st.task.Some? && st.task.value.LoadTask?
      && Finished(RunFlow(st.task.value.ctx, trace))
    case UnloadReported(trace, outcome) =>
      && st.task.Some? && st.task.value.UnloadTask?
      && IsUnloadRun(trace, st.task.value.id, st.task.value.maxUsedGb, st.settings.releaseAttempts, outcome)
    case OtherOwner(op) => op.key != st.settings.ledgerKey
  }

  /** The marker as the flow left it. */
  function MarkerAfter(m: Marker, trace: seq<Event>): Marker {
    if trace != [] && trace[|trace| - 1].FenceCleared? then ClearStep(m, trace[|trace| - 1].io).marker else m
  }

  function Refusal(st: State): Option<BackendError> {
    if st.poisoned.Some? then Some(InvariantViolation) else st.startupError
  }

  ghost function Step(st: State, m: Message): State
    requires Enabled(st, m)
  {
    match m
    case Load(req, id, gb, policy, allow, order, beginIo, clearIo) =>
      var asked := st.(asked := st.asked[req := LoadRequest(id, gb, policy, allow)]);
      if Refusal(st).Some? then AnswerTo(asked, req, Failure(Refusal(st).value))
      else HandleLoad(asked, req, id, gb, policy, allow, order, beginIo, clearIo)
    case Unload(req, id) =>
      var asked := st.(asked := st.asked[req := UnloadRequest(id)]);
      if Refusal(st).Some? then AnswerTo(asked, req, Failure(Refusal(st).value))
      else HandleUnload(asked, req, id)
    case Chat(id, permit) => if Refusal(st).Some? then st else HandleChat(st, id, permit)
    case ChatDone(id) => HandleChatDone(st, id)
    case LoadReported(trace) =>
      var ctx := st.task.value.ctx;
      LoadDone(st.(marker := MarkerAfter(st.marker, trace)), ctx.id, Report(ctx, RunFlow(ctx, trace)))
    case UnloadReported(trace, outcome) => UnloadDone(st, st.task.value.id, outcome)
    case OtherOwner(op) => st.(ledger := L.Apply(st.ledger, op).ledger)
  }

  // ---------------------------------------------------------------- startup

  predicate ValidSample(status: BackendStatus) {
    status.usedGb >= 0.0 && (status.usedGb > 0.0 || status.loaded == [])
  }

  function Distinct(ids: seq<string>): seq<string> {
    if ids == [] then []
    else
      var rest := Distinct(ids[..|ids| - 1]);
      if ids[|ids| - 1] in rest then rest else rest + [ids[|ids| - 1]]
  }

  const INHERITED_SLOT := ModelSlot(0.0, 0, Error, 0, LoadPolicy(OnDemand, Pinned(true), Coexist), 0, false, true)

  datatype Tracking = NoLedger | ByEstimate | ByExactBytes

  /** The sample's memory enters the ledger as one aggregate, admitted or not. */
  ghost function StartupClaim(st: State, tracking: Tracking, gb: real): (State, Option<BackendError>) {
    if tracking.NoLedger? then (st, None)
    else
      var step := L.Apply(st.ledger, L.AdoptObserved(st.settings.ledgerKey, None, gb));
      if step.result.Failure? then (st.(ledger := step.ledger), Some(step.result.error))
      else if tracking.ByEstimate? then (st.(ledger := step.ledger, claim := Legacy(gb)), None)
      else
        match Units(gb, Up)
        case Failure(_) => (st.(ledger := step.ledger), Some(InvalidRequest))
        case Success(units) => (st.(ledger := step.ledger, claim := Exact(units)), None)
  }

  function Blank(settings: Settings, ledger: L.Ledger, marker: Marker): State {
    State(settings, [], map[], None, 0, None, 0.0, map[], Untracked, None, ledger, marker, None, multiset{}, map[], [])
  }

  /** One residency sample before the first command; without a good one every command is refused. */
  ghost function Startup(settings: Settings, ledger: L.Ledger, marker: Marker, tracking: Tracking,
                         fenceError: Option<BackendError>, sample: Result<BackendStatus, BackendError>): State
  {
    var blank := Blank(settings, ledger, marker);
    match sample
    case Success(status) =>
      if ValidSample(status) then
        var (claimed, claimError) := StartupClaim(blank, tracking, status.usedGb);
        claimed.(reservedGb := status.usedGb,
                 keys := Distinct(status.loaded),
                 models := map k | k in status.loaded :: INHERITED_SLOT,
                 startupError := if fenceError.Some? then fenceError else claimError)
      else StartupUnknown(blank, tracking, fenceError, Internal)
    case Failure(e) => StartupUnknown(blank, tracking, fenceError, e)
  }

  /** Unknown residency is charged as the whole budget, so nothing grows beside it. */
  ghost function StartupUnknown(blank: State, tracking: Tracking, fenceError: Option<BackendError>, e: BackendError)
    : State
  {
    var (claimed, claimError) := StartupClaim(blank, tracking, blank.ledger.config.budgetGb);
    claimed.(startupError := if fenceError.Some? then fenceError else if claimError.Some? then claimError else Some(e))
  }
}
