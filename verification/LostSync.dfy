/**
 * The one way a load can be unconfirmed with no marker to show for it: the removal
 * went through and the sync of the directory after it did not.
 */
module LostSync {
  import opened Wrappers
  import opened Backend
  import opened Eviction
  import opened LoadFences
  import opened LoadFlow
  import opened LoadFlowFacts
  import opened Actor
  import opened ActorHistory
  import opened ExampleRuns
  import L = CapacityLedger

  predicate EndsInLostSync(t: seq<Event>) {
    t != [] && t[|t| - 1].FenceCleared? && t[|t| - 1].io.SyncFails?
  }

  predicate Unconfirmed(ctx: FlowContext, t: seq<Event>)
    requires Finished(RunFlow(ctx, t))
  {
    var o := Report(ctx, RunFlow(ctx, t));
    o.result.Failure? && o.failure.RetainUnconfirmedLoad?
  }

  /**
   * An unconfirmed report leaves no visible marker if and only if the flow ended in a
   * removal whose sync failed; and then no load is running in the engine.
   */
  lemma UnconfirmedWithoutMarkerExactly(ctx: FlowContext, t: seq<Event>)
    requires Finished(RunFlow(ctx, t)) && Unconfirmed(ctx, t)
    ensures !MarkerAfter(Marker(true, true), t).visible <==> EndsInLostSync(t)
    ensures EndsInLostSync(t) ==> Engine(t).Quiet?
  {
    ReportTellsTheFence(ctx, t);
    if EndsInLostSync(t) {
      FenceIsLiftedLast(ctx, t, |t| - 1);
    }
  }

  // -------------------------------------------------------------- an input

  const LOAD_A := Load(0, "a", 1.0, ANY_POLICY, true, [], Begins, Clears)
  const LOAD_B := Load(1, "b", 1.0, ANY_POLICY, true, ["a"], Begins, Clears)
  const TRACE_A := [
    LoadIssued("a", ANY_POLICY), LoadAnswered("a", Ok(())), Probed("a", Ok(true)), FenceCleared(SyncFails(false))]

  lemma FirstLoadStarts(ledger: L.Ledger)
    ensures Enabled(Fresh(ledger, EMPTY), LOAD_A)
    ensures var st := Step(Fresh(ledger, EMPTY), LOAD_A);
            && st.keys == ["a"] && st.models.Keys == {"a"} && st.settings == SETTINGS
            && !st.models["a"].loadUnconfirmed && st.models["a"].memoryGb == 1.0 && !st.models["a"].inherited
            && st.active.Some? && st.active.value.id == "a" && st.claim.Untracked? && st.startupError.None?
            && st.poisoned.None?
            && st.reservedGb == 0.0 && st.covered == map[] && st.marker == Marker(true, true) && st.asked.Keys == {0}
            && st.task.Some? && st.task.value.LoadTask?
            && var ctx := st.task.value.ctx;
               ctx.id == "a" && ctx.policy == ANY_POLICY && ctx.victims == [] && ctx.previous.None? && !ctx.inherited
               && ctx.probeAttempts == 1
  {
    FreshIsBlank(ledger);
    NobodyToEvict(100.0, "a", 1.0);
    FittingLoad(Fresh(ledger, EMPTY), LOAD_A);
  }

  lemma TraceEndsInLostSync(ctx: FlowContext)
    requires ctx.id == "a" && ctx.policy == ANY_POLICY && ctx.victims == [] && ctx.previous.None? && !ctx.inherited
    requires ctx.probeAttempts == 1
    ensures RunFlow(ctx, TRACE_A).phase == Done(Failure(Internal), RetainUnconfirmedLoad(None))
    ensures RunFlow(ctx, TRACE_A).victimResults == [] && RunFlow(ctx, TRACE_A).aggregate == None
  {
    var t := TRACE_A;
    assert t[..0] == [];
    RunFlowPrefix(ctx, t, 0);
    RunFlowPrefix(ctx, t, 1);
    RunFlowPrefix(ctx, t, 2);
    RunFlowPrefix(ctx, t, 3);
    assert t[..4] == t;
  }

  lemma UnconfirmedWithoutMarker(st: State)
    requires Enabled(st, LoadReported(TRACE_A)) && st.keys == ["a"] && st.models.Keys == {"a"}
    requires st.active.Some? && st.poisoned.None? && st.claim.Untracked? && st.marker == Marker(true, true)
    requires RunFlow(st.task.value.ctx, TRACE_A).phase == Done(Failure(Internal), RetainUnconfirmedLoad(None))
    requires RunFlow(st.task.value.ctx, TRACE_A).victimResults == []
             && RunFlow(st.task.value.ctx, TRACE_A).aggregate == None
    requires st.task.value.ctx.id == "a"
    ensures var after := Step(st, LoadReported(TRACE_A));
            && after == st.(models := after.models, marker := Marker(false, false), task := None, active := None,
                            replies := after.replies)
            && after.models == map["a" := st.models["a"].(state := Error, loadUnconfirmed := true)]
  {
    ReportedLoad(st, TRACE_A);
  }

  lemma SecondLoadFits(st: State)
    requires st.settings == SETTINGS && st.keys == ["a"] && st.models.Keys == {"a"} && st.models["a"].memoryGb == 1.0
    requires st.models["a"].state.Error? && st.models["a"].loadUnconfirmed && st.reservedGb == 0.0
             && st.covered == map[]
    ensures EffectiveReservedGb(st, {}) == 0.0
    ensures PlanEviction(RequestSnapshot(st, "b", ["a"]), ModelReq("b", 1.0)) == Success(NotNeeded)
  {
    var rest: seq<string> := [];
    assert st.keys[1..] == rest && ["a"][1..] == rest;
    assert CoveredGb(rest, st.models, st.covered, {}) == 0.0;
    assert CoveredGb(st.keys, st.models, st.covered, {}) == 0.0;
    var e := Entry("a", st.models["a"]);
    assert Entries(rest, st.models, "b") == [];
    assert Entries(["a"], st.models, "b") == [e];
    assert [e][1..] == [];
    assert OccupiedWithout([e], {}) == 1.0 by {
      assert OccupiedWithout([], {}) == 0.0;
    }
  }

  lemma SecondLoadStarts(st: State)
    requires Enabled(st, LOAD_B) && Refusal(st).None? && st.settings == SETTINGS && st.claim.Untracked?
    requires !st.marker.visible && st.active.None?
    requires st.keys == ["a"] && st.models.Keys == {"a"} && st.models["a"].memoryGb == 1.0
    requires st.models["a"].state.Error? && st.models["a"].loadUnconfirmed && st.reservedGb == 0.0
             && st.covered == map[]
    ensures var after := Step(st, LOAD_B);
            && "a" in after.models && after.models["a"] == st.models["a"]
            && after.task.Some? && after.task.value.LoadTask? && after.task.value.ctx.id == "b"
  {
    SecondLoadFits(st);
    FittingLoad(st, LOAD_B);
  }

  lemma FirstLoadIsLost(ledger: L.Ledger)
    ensures Possible(Fresh(ledger, EMPTY), [LOAD_A, LoadReported(TRACE_A)])
    ensures var st := After(Fresh(ledger, EMPTY), [LOAD_A, LoadReported(TRACE_A)]);
            && Enabled(st, LOAD_B) && Refusal(st).None? && st.settings == SETTINGS && st.claim.Untracked?
            && !st.marker.visible && st.active.None?
            && st.keys == ["a"] && st.models.Keys == {"a"} && st.models["a"].memoryGb == 1.0
            && st.models["a"].state.Error? && st.models["a"].loadUnconfirmed && st.reservedGb == 0.0
            && st.covered == map[]
  {
    FirstLoadStarts(ledger);
    var one := Step(Fresh(ledger, EMPTY), LOAD_A);
    TraceEndsInLostSync(one.task.value.ctx);
    UnconfirmedWithoutMarker(one);
    FirstTwo(Fresh(ledger, EMPTY), LOAD_A, LoadReported(TRACE_A));
  }

  /** The input: `a` ends unconfirmed and unmarked, and a load of `b` is then admitted and set going. */
  lemma AnotherLoadFollowsALostSync(ledger: L.Ledger)
    ensures Possible(Fresh(ledger, EMPTY), [LOAD_A, LoadReported(TRACE_A), LOAD_B])
    ensures var after := After(Fresh(ledger, EMPTY), [LOAD_A, LoadReported(TRACE_A), LOAD_B]);
            && "a" in after.models && after.models["a"].loadUnconfirmed
            && after.task.Some? && after.task.value.LoadTask? && after.task.value.ctx.id == "b"
  {
    var lost := [LOAD_A, LoadReported(TRACE_A)];
    FirstLoadIsLost(ledger);
    SecondLoadStarts(After(Fresh(ledger, EMPTY), lost));
    OneMore(Fresh(ledger, EMPTY), lost, LOAD_B);
    assert lost + [LOAD_B] == [LOAD_A, LoadReported(TRACE_A), LOAD_B];
  }
}
