/**
 * A run after which two models that never became ready share a stamp, and the walk
 * over the slots decides whether the shared ledger lets the next load begin.
 */
module TieRuns {
  import opened Wrappers
  import opened Backend
  import opened CapacityUnits
  import opened LoadPolicies
  import opened Eviction
  import opened LoadFences
  import opened LoadFlow
  import opened Actor
  import opened ActorInvariant
  import opened ActorCapacity
  import opened ActorOrder
  import opened ActorHistory
  import opened ActorAdmission
  import opened ExampleRuns
  import L = CapacityLedger

  /** The runtime may use 10 GB, all runtimes together 8. */
  const TIE_SETTINGS := Settings(10.0, 1, 1, "k")
  const SHARED := L.Config(8.0, 8_000_000_000, L.CAPACITY_EPSILON_UNITS, 0)
  const UNPINNED := LoadPolicy(OnDemand, Pinned(false), Coexist)

  function SoleOwner(gb: real, units: nat): L.Ledger { L.Ledger(SHARED, map["k" := L.Allocation(gb, units)]) }

  function NewModel(req: nat, id: string, gb: real, order: seq<string>): Message {
    Load(req, id, gb, UNPINNED, true, order, Begins, Clears)
  }

  /** The engine takes the load and then refuses it, and the cleanup fails. */
  function BadTrace(id: string): seq<Event> {
    [LoadIssued(id, UNPINNED), LoadAnswered(id, Err(LoadPostconditionFailed)),
     Unloaded(id, Err(LoadPostconditionFailed)), FenceCleared(Clears)]
  }

  function BadSlot(gb: real): ModelSlot { ModelSlot(gb, 0, Error, 0, UNPINNED, 0, false, false) }

  ghost function TieStart(): State {
    Startup(TIE_SETTINGS, L.Ledger(SHARED, map[]), Marker(false, false), ByEstimate, None, Success(EMPTY))
  }

  /** An actor that holds the whole of the ledger's entries and has nothing in progress. */
  ghost predicate AtRestWith(st: State, keys: seq<string>, models: Models, gb: real, units: nat) {
    && st.settings == TIE_SETTINGS && st.keys == keys && st.models == models
    && st.reservedGb == 0.0 && st.covered == map[] && st.claim == Legacy(gb) && st.ledger == SoleOwner(gb, units)
    && st.marker == Marker(false, false) && st.active.None? && st.task.None?
    && st.poisoned.None? && st.startupError.None?
  }

  ghost predicate LoadingWith(st: State, id: string, keys: seq<string>, models: Models, gb: real, units: nat) {
    && st.settings == TIE_SETTINGS && st.keys == keys && st.models == models
    && st.reservedGb == 0.0 && st.covered == map[] && st.claim == Legacy(gb) && st.ledger == SoleOwner(gb, units)
    && st.marker == Marker(true, true) && st.active.Some? && st.task.Some? && st.task.value.LoadTask?
    && st.poisoned.None? && st.startupError.None?
    && var ctx := st.task.value.ctx;
       ctx.id == id && ctx.policy == UNPINNED && ctx.victims == [] && ctx.previous.None? && !ctx.inherited
  }

  lemma TieStartIsBlank()
    ensures AtRestWith(TieStart(), [], map[], 0.0, 0) && TieStart().asked == map[]
  {
    assert Distinct([]) == [];
    var none: seq<string> := [];
    assert (map k | k in none :: INHERITED_SLOT) == map[];
    FirstEntry();
  }

  lemma FirstEntry()
    ensures L.Apply(L.Ledger(SHARED, map[]), L.AdoptObserved("k", None, 0.0))
            == L.Step(SoleOwner(0.0, 0), Success(()))
  {
    assert !L.IsBlank("k") by { assert "k"[0] == 'k'; }
    assert L.Total(map[]) == 0;
  }

  lemma SoleOwnerGrows(gb: real, units: U128, next: real, nextUnits: U128)
    requires Units(gb, Up) == Success(units) && Units(next, Up) == Success(nextUnits)
    requires nextUnits <= 8_000_001_000
    ensures L.Apply(SoleOwner(gb, units), L.Resize("k", Some(gb), Some(next)))
            == L.Step(SoleOwner(next, nextUnits), Success(()))
  {
    assert !L.IsBlank("k") by { assert "k"[0] == 'k'; }
    var held := SoleOwner(gb, units).allocations;
    L.TotalWithout(held, "k");
    assert held - {"k"} == map[];
    assert held["k" := L.Allocation(next, nextUnits)] == SoleOwner(next, nextUnits).allocations;
  }

  lemma WholeGigabytes()
    ensures Units(0.0, Up) == Success(0) && Units(2.0, Up) == Success(2_000_000_000)
    ensures Units(8.0, Up) == Success(8_000_000_000) && Units(9.0, Up) == Success(9_000_000_000)
  {
  }

  lemma BadTraceRuns(c: FlowContext)
    requires c.policy == UNPINNED && c.victims == [] && c.previous.None? && !c.inherited
    ensures RunFlow(c, BadTrace(c.id))
            == FlowState(Done(Failure(LoadPostconditionFailed), Settle(Error)), [], None, false)
  {
    var t := BadTrace(c.id);
    assert t[..0] == [];
    RunFlowPrefix(c, t, 0);
    RunFlowPrefix(c, t, 1);
    assert RunFlow(c, t[..2]) == FlowState(CleaningUp(LoadPostconditionFailed, false), [], None, false);
    RunFlowPrefix(c, t, 2);
    RunFlowPrefix(c, t, 3);
    assert t[..4] == t;
  }

  lemma OneMoreKey(keys: seq<string>, k: string, models: Models, skip: set<string>)
    requires k in models && OccupiesBudget(models[k].state)
    ensures OccupiedGb(keys + [k], models, skip)
            == OccupiedGb(keys, models, skip) + if k in skip then 0.0 else models[k].memoryGb
  {
    if keys == [] {
      assert [k][1..] == [];
      assert keys + [k] == [k];
    } else {
      OneMoreKey(keys[1..], k, models, skip);
      assert (keys + [k])[1..] == keys[1..] + [k];
    }
  }

  lemma NothingCovered(keys: seq<string>, models: Models, skip: set<string>)
    ensures CoveredGb(keys, models, map[], skip) == 0.0
  {
  }

  /** A model the actor has not seen is planned without victims and the ledger holds the sum. */
  lemma NewModelStarts(st: State, m: Message, keys: seq<string>, models: Models, gb: real, units: U128, next: real,
                       nextUnits: U128)
    requires AtRestWith(st, keys, models, gb, units) && Enabled(st, m)
    requires m.Load? && m == NewModel(m.req, m.id, m.gb, m.order) && m.gb > 0.0 && m.id !in models
    requires OccupiedGb(keys, models, {}) == OccupiedGb(keys, models, {m.id} + SetOf([])) == gb
    requires next == gb + m.gb && nextUnits <= 8_000_001_000
    requires Units(gb, Up) == Success(units) && Units(next, Up) == Success(nextUnits)
    requires PlanEviction(Snapshot(10.0, Entries(m.order, models, m.id)), ModelReq(m.id, m.gb)) == Success(NotNeeded)
    ensures LoadingWith(Step(st, m), m.id, keys + [m.id], models[m.id := BadSlot(m.gb).(state := Loading)], next,
                        nextUnits)
    ensures Step(st, m).asked == Asked(st, m).asked
  {
    var asked := Asked(st, m);
    NewModelIsPlanned(asked, m, keys, models, gb, units);
    NewModelIsClaimed(asked.(marker := Marker(true, true)), gb, units, next, nextUnits);
    var claimed := asked.(marker := Marker(true, true), ledger := SoleOwner(next, nextUnits), claim := Legacy(next));
    AdmittedLoad(st, m, LoadPlan([], m.gb, 0, next, None), claimed);
    NewModelIsInstalled(claimed, m, next);
  }

  lemma NewModelIsInstalled(st: State, m: Message, gb: real)
    requires st.settings == TIE_SETTINGS && st.marker == Marker(true, true) && st.poisoned.None?
    requires st.startupError.None? && m.Load? && m.policy == UNPINNED && m.id !in st.models
    ensures var after := Install(st, m.req, m.id, m.gb, m.policy, m.allow, LoadPlan([], m.gb, 0, gb, None));
            && after.models == st.models[m.id := BadSlot(m.gb).(state := Loading)] && after.keys == st.keys + [m.id]
            && after == st.(keys := after.keys, models := after.models, active := after.active, task := after.task)
            && after.active.Some? && after.task.Some? && after.task.value.LoadTask?
            && var ctx := after.task.value.ctx;
               ctx.id == m.id && ctx.policy == UNPINNED && ctx.victims == [] && ctx.previous.None? && !ctx.inherited
  {
    assert StopVictims(st.models, []) == st.models;
  }

  lemma NewModelIsPlanned(st: State, m: Message, keys: seq<string>, models: Models, gb: real, units: U128)
    requires AtRestWith(st, keys, models, gb, units) && m.Load? && m.id !in models
    requires OccupiedGb(keys, models, {m.id} + SetOf([])) == gb
    requires PlanEviction(Snapshot(10.0, Entries(m.order, models, m.id)), ModelReq(m.id, m.gb)) == Success(NotNeeded)
    ensures PlanLoad(st, m.id, m.gb, m.order) == Success(LoadPlan([], m.gb, 0, m.gb + gb, None))
  {
    NothingCovered(keys, models, {});
  }

  lemma NewModelIsClaimed(st: State, gb: real, units: U128, next: real, nextUnits: U128)
    requires st.settings == TIE_SETTINGS && st.claim == Legacy(gb) && st.ledger == SoleOwner(gb, units) && gb < next
    requires Units(gb, Up) == Success(units) && Units(next, Up) == Success(nextUnits) && nextUnits <= 8_000_001_000
    ensures ClaimCapacity(st, next, None, true)
            == (st.(ledger := SoleOwner(next, nextUnits), claim := Legacy(next)), Success(()))
  {
    SoleOwnerGrows(gb, units, next, nextUnits);
  }

  /** It fails and its cleanup fails: the slot stays charged, and what is held already covers it. */
  lemma NewModelFails(st: State, id: string, gb: real, keys: seq<string>, models: Models, heldGb: real, units: U128)
    requires LoadingWith(st, id, keys, models, heldGb, units) && id in models
    requires models[id] == BadSlot(gb).(state := Loading)
    requires OccupiedGb(keys, models[id := BadSlot(gb)], {}) == heldGb
    ensures Enabled(st, LoadReported(BadTrace(id)))
    ensures AtRestWith(Step(st, LoadReported(BadTrace(id))), keys, models[id := BadSlot(gb)], heldGb, units)
    ensures Step(st, LoadReported(BadTrace(id))).asked == st.asked
  {
    BadTraceRuns(st.task.value.ctx);
    ReportedLoad(st, BadTrace(id));
    NothingCovered(keys, models[id := BadSlot(gb)], {});
  }

  // ---------------------------------------------------------------- the run

  const LOAD_A := NewModel(0, "a", 2.0, [])
  const LOAD_B := NewModel(1, "b", 6.0, ["a"])
  const BOTH: Models := map["a" := BadSlot(2.0), "b" := BadSlot(6.0)]
  const RUN := [LOAD_A, LoadReported(BadTrace("a")), LOAD_B, LoadReported(BadTrace("b"))]

  function LoadC(order: seq<string>): Message { NewModel(2, "c", 3.0, order) }

  lemma LoadOfAStarts()
    ensures Enabled(TieStart(), LOAD_A)
    ensures var st := Step(TieStart(), LOAD_A);
            && LoadingWith(st, "a", ["a"], map["a" := BadSlot(2.0).(state := Loading)], 2.0, 2_000_000_000)
            && st.asked.Keys == {0}
  {
    TieStartIsBlank();
    WholeGigabytes();
    NewModelStarts(TieStart(), LOAD_A, [], map[], 0.0, 0, 2.0, 2_000_000_000);
    assert [] + ["a"] == ["a"];
  }

  lemma LoadOfAFails(st: State)
    requires LoadingWith(st, "a", ["a"], map["a" := BadSlot(2.0).(state := Loading)], 2.0, 2_000_000_000)
    ensures Enabled(st, LoadReported(BadTrace("a")))
    ensures var after := Step(st, LoadReported(BadTrace("a")));
            AtRestWith(after, ["a"], map["a" := BadSlot(2.0)], 2.0, 2_000_000_000) && after.asked == st.asked
  {
    var models: Models := map["a" := BadSlot(2.0)];
    assert [] + ["a"] == ["a"];
    OneMoreKey([], "a", models, {});
    assert st.models["a" := BadSlot(2.0)] == models;
    NewModelFails(st, "a", 2.0, ["a"], st.models, 2.0, 2_000_000_000);
  }

  lemma LoadOfBStarts(st: State)
    requires AtRestWith(st, ["a"], map["a" := BadSlot(2.0)], 2.0, 2_000_000_000) && st.asked.Keys == {0}
    ensures Enabled(st, LOAD_B)
    ensures var after := Step(st, LOAD_B);
            && LoadingWith(after, "b", ["a", "b"], BOTH["b" := BadSlot(6.0).(state := Loading)], 8.0, 8_000_000_000)
            && after.asked.Keys == {0, 1}
  {
    WholeGigabytes();
    AOccupies();
    FitsBesideA();
    var models: Models := map["a" := BadSlot(2.0)];
    assert models["b" := BadSlot(6.0).(state := Loading)] == BOTH["b" := BadSlot(6.0).(state := Loading)];
    NewModelStarts(st, LOAD_B, ["a"], models, 2.0, 2_000_000_000, 8.0, 8_000_000_000);
    assert ["a"] + ["b"] == ["a", "b"];
  }

  lemma AOccupies()
    ensures OccupiedGb(["a"], map["a" := BadSlot(2.0)], {}) == 2.0
    ensures OccupiedGb(["a"], map["a" := BadSlot(2.0)], {"b"} + SetOf([])) == 2.0
  {
    var models: Models := map["a" := BadSlot(2.0)];
    assert [] + ["a"] == ["a"];
    OneMoreKey([], "a", models, {});
    OneMoreKey([], "a", models, {"b"} + SetOf([]));
  }

  lemma LoadOfBFails(st: State)
    requires LoadingWith(st, "b", ["a", "b"], BOTH["b" := BadSlot(6.0).(state := Loading)], 8.0, 8_000_000_000)
    ensures Enabled(st, LoadReported(BadTrace("b")))
    ensures var after := Step(st, LoadReported(BadTrace("b")));
            AtRestWith(after, ["a", "b"], BOTH, 8.0, 8_000_000_000) && after.asked == st.asked
  {
    BothOccupy();
    assert st.models["b" := BadSlot(6.0)] == BOTH;
    NewModelFails(st, "b", 6.0, ["a", "b"], st.models, 8.0, 8_000_000_000);
  }

  lemma FitsBesideA()
    ensures PlanEviction(Snapshot(10.0, Entries(["a"], map["a" := BadSlot(2.0)], "b")), ModelReq("b", 6.0))
            == Success(NotNeeded)
  {
    var models: Models := map["a" := BadSlot(2.0)];
    var e := Entry("a", models["a"]);
    assert ["a"][1..] == [] && Entries(["a"], models, "b") == [e];
    assert [e][1..] == [] && OccupiedWithout([e], {}) == 2.0;
  }

  lemma BothOccupy()
    ensures OccupiedGb(["a", "b"], BOTH, {}) == 8.0
    ensures OccupiedGb(["a", "b"], BOTH, {"c"} + SetOf(["a"])) == 6.0
    ensures OccupiedGb(["a", "b"], BOTH, {"c"} + SetOf(["b"])) == 2.0
  {
    assert "a" in SetOf(["a"]) by { assert ["a"][0] == "a"; }
    assert "b" in SetOf(["b"]) by { assert ["b"][0] == "b"; }
    assert [] + ["a"] == ["a"] && ["a"] + ["b"] == ["a", "b"];
    forall skip: set<string>
      ensures OccupiedGb(["a", "b"], BOTH, skip)
              == (if "a" in skip then 0.0 else 2.0) + (if "b" in skip then 0.0 else 6.0)
    {
      OneMoreKey([], "a", BOTH, skip);
      OneMoreKey(["a"], "b", BOTH, skip);
    }
  }

  /** Which of the two goes is a matter of the walk, and so is the plan: 9 GB or 5. */
  lemma PlanFollowsTheWalk(st: State)
    requires AtRestWith(st, ["a", "b"], BOTH, 8.0, 8_000_000_000)
    ensures PlanLoad(st, "c", 3.0, ["a", "b"]) == Success(LoadPlan(["a"], 3.0, 0, 9.0, None))
    ensures PlanLoad(st, "c", 3.0, ["b", "a"]) == Success(LoadPlan(["b"], 3.0, 0, 5.0, None))
  {
    NothingCovered(["a", "b"], BOTH, {});
    BothOccupy();
    var a, b := Entry("a", BadSlot(2.0)), Entry("b", BadSlot(6.0));
    assert ["a", "b"][1..] == ["b"] && ["b"][1..] == [] && ["b", "a"][1..] == ["a"] && ["a"][1..] == [];
    assert Entries(["b"], BOTH, "c") == [b] && Entries(["a"], BOTH, "c") == [a];
    assert Entries(["a", "b"], BOTH, "c") == [a, b] && Entries(["b", "a"], BOTH, "c") == [b, a];
    FirstOfTwoGoes(a, b, 10.0, ModelReq("c", 3.0));
    FirstOfTwoGoes(b, a, 10.0, ModelReq("c", 3.0));
  }

  lemma LedgerFollowsThePlan(st: State)
    requires AtRestWith(st, ["a", "b"], BOTH, 8.0, 8_000_000_000)
    ensures !LedgerAdmits(st, 9.0, None, true) && LedgerAdmits(st, 5.0, None, true)
  {
    WholeGigabytes();
    assert st.ledger.allocations - {"k"} == map[];
  }

  lemma LedgerHasTheLastWord(st: State, m: Message, plan: LoadPlan)
    requires m.Load? && PlanLoad(st, m.id, m.gb, m.order) == Success(plan) && m.beginIo.Begins?
    requires !st.marker.visible && st.active.None? && m.id !in st.models && m.gb >= 0.0 && Refusal(st).None?
    ensures MayBegin(st, m) <==> LedgerAdmits(st, plan.plannedGb, plan.plannedCharge, m.allow)
  {
  }

  lemma BeginsOnOneWalk(st: State)
    requires AtRestWith(st, ["a", "b"], BOTH, 8.0, 8_000_000_000)
    ensures !MayBegin(st, LoadC(["a", "b"])) && MayBegin(st, LoadC(["b", "a"]))
  {
    PlanFollowsTheWalk(st);
    LedgerFollowsThePlan(st);
    LedgerHasTheLastWord(st, LoadC(["a", "b"]), LoadPlan(["a"], 3.0, 0, 9.0, None));
    LedgerHasTheLastWord(st, LoadC(["b", "a"]), LoadPlan(["b"], 3.0, 0, 5.0, None));
  }

  lemma RunIsPossible()
    ensures Possible(TieStart(), RUN)
    ensures AtRestWith(After(TieStart(), RUN), ["a", "b"], BOTH, 8.0, 8_000_000_000)
    ensures After(TieStart(), RUN).asked.Keys == {0, 1}
  {
    LoadOfAStarts();
    var one := Step(TieStart(), LOAD_A);
    LoadOfAFails(one);
    var two := Step(one, LoadReported(BadTrace("a")));
    LoadOfBStarts(two);
    LoadOfBFails(Step(two, LOAD_B));
    FirstTwo(TieStart(), LOAD_A, LoadReported(BadTrace("a")));
    TwoMore(TieStart(), [LOAD_A, LoadReported(BadTrace("a"))], LOAD_B, LoadReported(BadTrace("b")));
    assert [LOAD_A, LoadReported(BadTrace("a"))] + [LOAD_B, LoadReported(BadTrace("b"))] == RUN;
  }

  lemma BothWalksAreEnabled(st: State)
    requires st.keys == ["a", "b"] && st.asked.Keys == {0, 1}
    ensures Enabled(st, LoadC(["a", "b"])) && Enabled(st, LoadC(["b", "a"]))
  {
    assert multiset(["b", "a"]) == multiset(["a", "b"]);
  }

  lemma EndOfRun()
    ensures Possible(TieStart(), RUN)
    ensures var st := After(TieStart(), RUN);
            && st.task.None? && Enabled(st, LoadC(["a", "b"])) && Enabled(st, LoadC(["b", "a"]))
            && !MayBegin(st, LoadC(["a", "b"])) && MayBegin(st, LoadC(["b", "a"]))
  {
    RunIsPossible();
    BothWalksAreEnabled(After(TieStart(), RUN));
    BeginsOnOneWalk(After(TieStart(), RUN));
  }

  lemma EndIsInvariant()
    requires Possible(TieStart(), RUN)
    ensures Inv(After(TieStart(), RUN)) && EntryFits(After(TieStart(), RUN))
  {
    assert !L.IsBlank("k") by { assert "k"[0] == 'k'; }
    assert L.Total(map[]) == 0;
    EveryRunKeepsAll(TIE_SETTINGS, L.Ledger(SHARED, map[]), Marker(false, false), ByEstimate, None, Success(EMPTY),
                     RUN);
  }

  lemma OneBegins(st: State, no: Message, yes: Message)
    requires Inv(st) && EntryFits(st) && st.task.None? && no.Load? && yes.Load?
    requires Enabled(st, no) && Enabled(st, yes) && !MayBegin(st, no) && MayBegin(st, yes)
    ensures Step(st, no).task.None? && Step(st, yes).task.Some?
  {
    LoadStartsExactly(st, no);
    LoadStartsExactly(st, yes);
  }

  /** The run, and the load of 3 GB that begins after it on one walk and is refused on the other. */
  lemma TiesCanDecideAdmission()
    ensures Possible(TieStart(), RUN)
    ensures var st := After(TieStart(), RUN);
            && Enabled(st, LoadC(["a", "b"])) && Enabled(st, LoadC(["b", "a"]))
            && Step(st, LoadC(["a", "b"])).task.None? && Step(st, LoadC(["b", "a"])).task.Some?
  {
    EndOfRun();
    EndIsInvariant();
    OneBegins(After(TieStart(), RUN), LoadC(["a", "b"]), LoadC(["b", "a"]));
  }
}
