/**
 * What every accepted trace of a load flow satisfies, finished or cut short by a
 * crash at any event, for every behaviour of the engine.
 */
module LoadFlowFacts {
  import opened Wrappers
  import opened Backend
  import opened LoadFences
  import opened LoadFlow

  predicate Accepted(ctx: FlowContext, t: seq<Event>) { !RunFlow(ctx, t).phase.Rejected? }

  predicate WellFormed(ctx: FlowContext) {
    ctx.id !in ctx.victims && forall i, j :: 0 <= i < j < |ctx.victims| ==> ctx.victims[i] != ctx.victims[j]
  }

  lemma AcceptedPrefix(ctx: FlowContext, t: seq<Event>)
    requires Accepted(ctx, t) && t != []
    ensures Accepted(ctx, t[..|t| - 1])
    ensures !Finished(RunFlow(ctx, t[..|t| - 1]))
  {
  }

  /** A crash leaves a prefix, and a prefix of an accepted trace is one. */
  lemma {:induction false} AcceptedPrefixes(ctx: FlowContext, t: seq<Event>, n: nat)
    requires Accepted(ctx, t) && n <= |t|
    ensures Accepted(ctx, t[..n])
    decreases |t|
  {
    if n < |t| {
      AcceptedPrefix(ctx, t);
      AcceptedPrefixes(ctx, t[..|t| - 1], n);
      assert t[..|t| - 1][..n] == t[..n];
    } else {
      assert t[..n] == t;
    }
  }

  // ----------------------------------------------------- the engine's load

  /** What an observer outside the engine may conclude about the last load. */
  datatype EngineLoad =
    | Quiet     // no load can still be running
    | InFlight  // issued, no answer yet
    | Taken     // accepted, not yet probed ready
    | Unknown   // its outcome will never be known

  /** Only a refusal settles a load that is in flight: a timeout and an engine that is not sure do not. */
  function Observe(l: EngineLoad, e: Event): EngineLoad {
    match e
    case LoadIssued(_, _) => if l.Quiet? then InFlight else Unknown
    case LoadAnswered(_, a) =>
      if !l.InFlight? then l
      else
        match a {
          case Ok(_) => Taken
          case Panicked => Unknown
          case Err(AdapterTimedOut) => Unknown
          case Err(LoadUnconfirmed) => Unknown
          case Err(_) => Quiet
        }
    case Probed(_, a) => if l.Taken? && a == Ok(true) then Quiet else l
    case _ => l
  }

  function ObserveAll(l: EngineLoad, t: seq<Event>): EngineLoad
    decreases |t|
  {
    if t == [] then l else Observe(ObserveAll(l, t[..|t| - 1]), t[|t| - 1])
  }

  function Engine(t: seq<Event>): EngineLoad { ObserveAll(Quiet, t) }

  predicate FenceLifted(t: seq<Event>) { t != [] && t[|t| - 1] == FenceCleared(Clears) }

  predicate EngineFits(s: FlowState, l: EngineLoad, t: seq<Event>) {
    match s.phase
    case AwaitingLoad => l.InFlight?
    case Probing(_) => l.Taken?
    case CleaningUp(_, unresolved) => unresolved <==> !l.Quiet?
    case Confirming(OfCleanup(_, unresolved), _) => unresolved <==> !l.Quiet?
    case Done(result, failure) =>
      && (FenceLifted(t) <==> result.Success? || !failure.RetainUnconfirmedLoad?)
      && (!l.Quiet? ==> result.Failure? && !FenceLifted(t))
    case Clearing(_, failure) => l.Quiet? && !failure.RetainUnconfirmedLoad?
    case Dead => true
    case Rejected => false
    case _ => l.Quiet?
  }

  lemma EngineStep(ctx: FlowContext, s: FlowState, l: EngineLoad, t: seq<Event>, e: Event)
    requires EngineFits(s, l, t) && !StepFlow(ctx, s, e).phase.Rejected?
    ensures EngineFits(StepFlow(ctx, s, e), Observe(l, e), t + [e])
  {
  }

  lemma {:induction false} EngineFollowsPhase(ctx: FlowContext, t: seq<Event>)
    requires Accepted(ctx, t)
    ensures EngineFits(RunFlow(ctx, t), Engine(t), t)
    decreases |t|
  {
    if t != [] {
      AcceptedPrefix(ctx, t);
      var before, e := t[..|t| - 1], t[|t| - 1];
      EngineFollowsPhase(ctx, before);
      EngineStep(ctx, RunFlow(ctx, before), Engine(before), before, e);
      assert t == before + [e];
    }
  }

  /** The marker is lifted only by the last event of a flow, and only when no load can still be running. */
  lemma {:induction false} FenceIsLiftedLast(ctx: FlowContext, t: seq<Event>, n: nat)
    requires Accepted(ctx, t) && n < |t| && t[n].FenceCleared?
    ensures n == |t| - 1 && Engine(t).Quiet? && RunFlow(ctx, t).phase.Done?
    decreases |t|
  {
    AcceptedPrefix(ctx, t);
    EngineFollowsPhase(ctx, t[..|t| - 1]);
    if n < |t| - 1 {
      FenceIsLiftedLast(ctx, t[..|t| - 1], n);
    }
  }

  /**
   * `adapter.load` is only ever called when no earlier load of the flow can still
   * be running, and while the marker of the flow still stands.
   */
  lemma {:induction false} LoadIsIssuedQuietly(ctx: FlowContext, t: seq<Event>, n: nat)
    requires Accepted(ctx, t) && n < |t| && t[n].LoadIssued?
    ensures Engine(t[..n]).Quiet?
    ensures forall i :: 0 <= i <= n ==> !t[i].FenceCleared?
    ensures t[n] == LoadIssued(ctx.id, ctx.policy)
  {
    AcceptedPrefixes(ctx, t, n + 1);
    var u := t[..n + 1];
    assert u[..n] == t[..n];
    EngineFollowsPhase(ctx, u[..n]);
    forall i | 0 <= i <= n ensures !t[i].FenceCleared? {
      assert u[i] == t[i];
      if u[i].FenceCleared? { FenceIsLiftedLast(ctx, u, i); }
    }
  }

  /**
   * The report says "unconfirmed" exactly when the flow did not end in a successful
   * removal of the marker, and it ends in one only with the engine quiet.
   */
  lemma ReportTellsTheFence(ctx: FlowContext, t: seq<Event>)
    requires Accepted(ctx, t) && Finished(RunFlow(ctx, t))
    ensures var r := Report(ctx, RunFlow(ctx, t));
            && (FenceLifted(t) <==> r.result.Success? || !r.failure.RetainUnconfirmedLoad?)
            && (FenceLifted(t) ==> Engine(t).Quiet?)
            && (r.result.Success? ==> FenceLifted(t))
  {
    EngineFollowsPhase(ctx, t);
    if FenceLifted(t) { FenceIsLiftedLast(ctx, t, |t| - 1); }
  }

  /** Once in doubt, always in doubt. */
  lemma {:induction false} DoubtStays(t: seq<Event>, n: nat)
    requires n <= |t| && Engine(t[..n]).Unknown?
    ensures Engine(t).Unknown?
    decreases |t|
  {
    if n < |t| {
      assert t[..|t| - 1][..n] == t[..n];
      DoubtStays(t[..|t| - 1], n);
    } else {
      assert t[..n] == t;
    }
  }

  /** An answer after which the engine may still be loading. */
  predicate LeavesInDoubt(e: Event) {
    e.LoadAnswered? && (e.done == Err(AdapterTimedOut) || e.done == Err(LoadUnconfirmed) || e.done.Panicked?)
  }

  /**
   * A flow in which a load timed out or was left in doubt never touches the marker,
   * and its report keeps everything charged.
   */
  lemma DoubtKeepsMarker(ctx: FlowContext, t: seq<Event>, n: nat)
    requires Finished(RunFlow(ctx, t)) && n < |t| && LeavesInDoubt(t[n])
    ensures forall i :: 0 <= i < |t| ==> !t[i].FenceCleared?
    ensures Report(ctx, RunFlow(ctx, t)).result.Failure? && Report(ctx, RunFlow(ctx, t)).failure.RetainUnconfirmedLoad?
  {
    AcceptedPrefixes(ctx, t, n + 1);
    var u := t[..n + 1];
    assert u[..n] == t[..n] && u[n] == t[n];
    AcceptedPrefix(ctx, u);
    EngineFollowsPhase(ctx, u[..n]);
    assert Engine(u).Unknown?;
    DoubtStays(t, n + 1);
    ReportTellsTheFence(ctx, t);
    forall i | 0 <= i < |t| ensures !t[i].FenceCleared? {
      if t[i].FenceCleared? { FenceIsLiftedLast(ctx, t, i); }
    }
  }

  // -------------------------------------------------------------- victims

  /** Every unload the trace holds for a model other than `id`, with its answer. */
  function VictimUnloads(t: seq<Event>, id: string): seq<VictimResult>
    decreases |t|
  {
    if t == [] then []
    else
      var before := VictimUnloads(t[..|t| - 1], id);
      var e := t[|t| - 1];
      if e.Unloaded? && e.id != id then before + [VictimResult(e.id, ToResult(e.done))] else before
  }

  function TargetUnloads(t: seq<Event>, id: string): nat
    decreases |t|
  {
    if t == [] then 0
    else TargetUnloads(t[..|t| - 1], id) + (if t[|t| - 1].Unloaded? && t[|t| - 1].id == id then 1 else 0)
  }

  function Ids(rs: seq<VictimResult>): seq<string> {
    seq(|rs|, i requires 0 <= i < |rs| => rs[i].id)
  }

  predicate MayUnloadTarget(p: Phase) {
    p.CleaningUp? || (p.Confirming? && p.what.OfCleanup?) || p.Clearing? || p.Done? || p.Dead?
  }

  predicate UnderEviction(p: Phase) { p.Evicting? || (p.Confirming? && p.what.OfEviction?) }

  /** The results carried are the answers seen, unless the release of the lot could not be confirmed. */
  predicate ResultsFit(s: FlowState, seen: seq<VictimResult>) {
    || s.victimResults == seen
    || (s.aggregate.None? && s.victimResults == FailedVictims(seen) && (s.phase.Clearing? || s.phase.Done?))
  }

  predicate VictimsAccounted(ctx: FlowContext, s: FlowState, t: seq<Event>) {
    var seen := VictimUnloads(t, ctx.id);
    && Ids(seen) <= ctx.victims
    && (!s.phase.Dead? ==>
          && ResultsFit(s, seen)
          && (s.phase.Evicting? <==> |seen| < |ctx.victims|)
          && (UnderEviction(s.phase) ==> s.aggregate.None?))
    && TargetUnloads(t, ctx.id) <= (if MayUnloadTarget(s.phase) && !s.phase.CleaningUp? then 1 else 0)
  }

  lemma NextVictim(ctx: FlowContext, s: FlowState, t: seq<Event>, e: Event)
    requires WellFormed(ctx) && VictimsAccounted(ctx, s, t) && s.phase.Evicting?
    requires !StepFlow(ctx, s, e).phase.Rejected?
    ensures VictimsAccounted(ctx, StepFlow(ctx, s, e), t + [e])
  {
    var seen := VictimUnloads(t, ctx.id);
    var n := |seen|;
    assert (t + [e])[..|t|] == t;
    assert e.Unloaded? && e.id == ctx.victims[n] && e.id != ctx.id;
    var now := seen + [VictimResult(e.id, ToResult(e.done))];
    assert VictimUnloads(t + [e], ctx.id) == now;
    assert Ids(now) == Ids(seen) + [e.id];
    assert Ids(seen) == ctx.victims[..n];
    assert Ids(now) == ctx.victims[..n + 1];
  }

  lemma LaterStep(ctx: FlowContext, s: FlowState, t: seq<Event>, e: Event)
    requires WellFormed(ctx) && VictimsAccounted(ctx, s, t) && !s.phase.Evicting? && !Finished(s)
    requires !StepFlow(ctx, s, e).phase.Rejected?
    ensures VictimsAccounted(ctx, StepFlow(ctx, s, e), t + [e])
  {
    assert (t + [e])[..|t|] == t;
    if e.Unloaded? { OnlyTargetUnloads(ctx, s, e); }
    assert VictimUnloads(t + [e], ctx.id) == VictimUnloads(t, ctx.id);
  }

  /** After the victims only the target is ever unloaded, and only to clean up. */
  lemma OnlyTargetUnloads(ctx: FlowContext, s: FlowState, e: Event)
    requires !s.phase.Evicting? && !StepFlow(ctx, s, e).phase.Rejected? && e.Unloaded?
    ensures e.id == ctx.id && s.phase.CleaningUp?
  {
  }

  /** Every victim is unloaded once, in order, and its answer is what the flow reports. */
  lemma {:induction false} EveryVictimIsUnloadedOnce(ctx: FlowContext, t: seq<Event>)
    requires WellFormed(ctx) && Accepted(ctx, t)
    ensures VictimsAccounted(ctx, RunFlow(ctx, t), t)
    decreases |t|
  {
    if t == [] {
      assert Ids([]) == [];
    } else {
      AcceptedPrefix(ctx, t);
      var before, e := t[..|t| - 1], t[|t| - 1];
      EveryVictimIsUnloadedOnce(ctx, before);
      assert t == before + [e];
      if RunFlow(ctx, before).phase.Evicting? {
        NextVictim(ctx, RunFlow(ctx, before), before, e);
      } else {
        LaterStep(ctx, RunFlow(ctx, before), before, e);
      }
    }
  }

  // ----------------------------------------------------------------- load

  predicate AllUnloaded(ctx: FlowContext, t: seq<Event>) {
    forall i :: 0 <= i < |VictimUnloads(t, ctx.id)| ==> VictimUnloads(t, ctx.id)[i].result.Success?
  }

  /** The inherited target is resident, and nothing beside what the actor accounts for. */
  predicate IsIdentity(ctx: FlowContext, e: Event) {
    && e.Sampled? && e.status.Ok? && ctx.id in e.status.value.loaded
    && 0.0 < e.status.value.usedGb <= ctx.afterEvictionGb + 0.000001
  }

  predicate UnloadsVictim(ctx: FlowContext, e: Event) { e.Unloaded? && e.id != ctx.id }

  /** A sample showed the victims gone after the last of them had been unloaded. */
  ghost predicate EvictionSeen(ctx: FlowContext, t: seq<Event>) {
    exists j :: 0 <= j < |t| && IsRelease(t[j], ctx.victims, ctx.afterEvictionGb)
                && forall i :: j <= i < |t| ==> !UnloadsVictim(ctx, t[i])
  }

  /** The inherited model was seen resident, and answered ready after that. */
  ghost predicate IdentitySeen(ctx: FlowContext, t: seq<Event>) {
    exists i, j :: 0 <= i < j < |t| && IsIdentity(ctx, t[i]) && t[j] == Probed(ctx.id, Ok(true))
  }

  predicate IsOom(ctx: FlowContext, e: Event) { e == LoadAnswered(ctx.id, Err(Oom)) }

  /** The load ran out of memory, and after that the target was seen gone. */
  ghost predicate AbsenceSeen(ctx: FlowContext, t: seq<Event>) {
    exists i, j :: 0 <= i < j < |t| && IsOom(ctx, t[i]) && IsRelease(t[j], [ctx.id], ctx.targetAbsentGb)
  }

  function LoadCount(t: seq<Event>): nat
    decreases |t|
  {
    if t == [] then 0 else LoadCount(t[..|t| - 1]) + (if t[|t| - 1].LoadIssued? then 1 else 0)
  }

  /** Everything that must have happened before the engine is asked to load. */
  ghost predicate MayLoad(ctx: FlowContext, t: seq<Event>) {
    && AllUnloaded(ctx, t)
    && |VictimUnloads(t, ctx.id)| == |ctx.victims|
    && (ctx.victims != [] ==> EvictionSeen(ctx, t))
    && (ctx.inherited ==> IdentitySeen(ctx, t))
  }

  /** Everything that must have happened before it is asked a second time. */
  ghost predicate MayRetry(ctx: FlowContext, t: seq<Event>) { !ctx.inherited && AbsenceSeen(ctx, t) }

  predicate PastEviction(p: Phase) {
    p.InheritedStatus? || p.InheritedProbe? || PastIdentity(p)
  }

  predicate PastIdentity(p: Phase) {
    p.ReadyToLoad? || p.AwaitingLoad? || p.Probing? || p.CleaningUp? || (p.Confirming? && !p.what.OfEviction?)
  }

  predicate NothingFailed(p: Phase) {
    (p.Evicting? && !p.failed) || (p.Confirming? && p.what.OfEviction? && !p.what.failed)
  }

  ghost predicate EvictionJustified(ctx: FlowContext, p: Phase, t: seq<Event>) {
    && (NothingFailed(p) ==> AllUnloaded(ctx, t))
    && (PastEviction(p) ==> AllUnloaded(ctx, t) && (ctx.victims != [] ==> EvictionSeen(ctx, t)))
  }

  ghost predicate IdentityJustified(ctx: FlowContext, p: Phase, t: seq<Event>) {
    && (p.InheritedProbe? ==> exists i :: 0 <= i < |t| && IsIdentity(ctx, t[i]))
    && (PastIdentity(p) && ctx.inherited ==> IdentitySeen(ctx, t))
  }

  ghost predicate RetryJustified(ctx: FlowContext, s: FlowState, t: seq<Event>) {
    && (s.phase.Confirming? && s.phase.what.OfOomTarget? ==>
          !s.retried && exists i :: 0 <= i < |t| && IsOom(ctx, t[i]))
    && (s.retried ==> MayRetry(ctx, t))
  }

  predicate LoadsCounted(s: FlowState, t: seq<Event>) {
    && LoadCount(t) <= (if s.retried then 2 else 1)
    && (UnderEviction(s.phase) || s.phase.InheritedStatus? || s.phase.InheritedProbe?
        ==> LoadCount(t) == 0 && !s.retried)
    && (s.phase.ReadyToLoad? ==> LoadCount(t) == if s.retried then 1 else 0)
    && (s.phase.AwaitingLoad? ==> LoadCount(t) == if s.retried then 2 else 1)
    && (s.retried && !s.phase.ReadyToLoad? ==> LoadCount(t) == 2)
    && (s.phase.Confirming? && s.phase.what.OfOomTarget? ==> LoadCount(t) == 1)
  }

  lemma ExtendTrace(ctx: FlowContext, t: seq<Event>, e: Event)
    ensures (t + [e])[..|t|] == t && (t + [e])[|t|] == e
    ensures LoadCount(t + [e]) == LoadCount(t) + (if e.LoadIssued? then 1 else 0)
    ensures !UnloadsVictim(ctx, e) ==> VictimUnloads(t + [e], ctx.id) == VictimUnloads(t, ctx.id)
  {
    assert (t + [e])[..|t|] == t;
  }

  lemma EvictionStaysSeen(ctx: FlowContext, t: seq<Event>, e: Event)
    requires EvictionSeen(ctx, t) && !UnloadsVictim(ctx, e)
    ensures EvictionSeen(ctx, t + [e])
  {
    var u := t + [e];
    var j :| 0 <= j < |t| && IsRelease(t[j], ctx.victims, ctx.afterEvictionGb)
             && forall i :: j <= i < |t| ==> !UnloadsVictim(ctx, t[i]);
    assert IsRelease(u[j], ctx.victims, ctx.afterEvictionGb);
    forall i | j <= i < |u| ensures !UnloadsVictim(ctx, u[i]) {
      if i < |t| { assert u[i] == t[i]; }
    }
  }

  lemma IdentityStaysSeen(ctx: FlowContext, t: seq<Event>, e: Event)
    requires IdentitySeen(ctx, t)
    ensures IdentitySeen(ctx, t + [e])
  {
    var i, j :| 0 <= i < j < |t| && IsIdentity(ctx, t[i]) && t[j] == Probed(ctx.id, Ok(true));
    assert IsIdentity(ctx, (t + [e])[i]) && (t + [e])[j] == t[j];
  }

  lemma AbsenceStaysSeen(ctx: FlowContext, t: seq<Event>, e: Event)
    requires AbsenceSeen(ctx, t)
    ensures AbsenceSeen(ctx, t + [e])
  {
    var i, j :| 0 <= i < j < |t| && IsOom(ctx, t[i]) && IsRelease(t[j], [ctx.id], ctx.targetAbsentGb);
    assert IsOom(ctx, (t + [e])[i]) && IsRelease((t + [e])[j], [ctx.id], ctx.targetAbsentGb);
  }

  /** The next victim's unload. */
  lemma UnloadStep(ctx: FlowContext, s: FlowState, t: seq<Event>, e: Event)
    requires WellFormed(ctx) && VictimsAccounted(ctx, s, t) && EvictionJustified(ctx, s.phase, t) && s.phase.Evicting?
    requires !StepFlow(ctx, s, e).phase.Rejected?
    ensures EvictionJustified(ctx, StepFlow(ctx, s, e).phase, t + [e])
  {
    ExtendTrace(ctx, t, e);
    assert ctx.victims != [];
    if NothingFailed(StepFlow(ctx, s, e).phase) {
      assert VictimUnloads(t + [e], ctx.id) == VictimUnloads(t, ctx.id) + [VictimResult(e.id, ToResult(e.done))];
    }
  }

  /** The sample that ends an eviction comes after every unload. */
  lemma ReleaseStep(ctx: FlowContext, s: FlowState, t: seq<Event>, e: Event)
    requires EvictionJustified(ctx, s.phase, t) && s.phase.Confirming? && s.phase.what.OfEviction?
    requires !StepFlow(ctx, s, e).phase.Rejected?
    ensures EvictionJustified(ctx, StepFlow(ctx, s, e).phase, t + [e])
  {
    ExtendTrace(ctx, t, e);
    if PastEviction(StepFlow(ctx, s, e).phase) {
      assert IsRelease((t + [e])[|t|], ctx.victims, ctx.afterEvictionGb);
    }
  }

  lemma EvictionStep(ctx: FlowContext, s: FlowState, t: seq<Event>, e: Event)
    requires WellFormed(ctx) && VictimsAccounted(ctx, s, t) && EvictionJustified(ctx, s.phase, t) && !Finished(s)
    requires !StepFlow(ctx, s, e).phase.Rejected?
    ensures EvictionJustified(ctx, StepFlow(ctx, s, e).phase, t + [e])
  {
    if s.phase.Evicting? {
      UnloadStep(ctx, s, t, e);
    } else if UnderEviction(s.phase) {
      ReleaseStep(ctx, s, t, e);
    } else {
      LaterKeepsEviction(ctx, s, t, e);
    }
  }

  /** Nothing after the eviction unloads a victim, so what was seen of it stays seen. */
  lemma LaterKeepsEviction(ctx: FlowContext, s: FlowState, t: seq<Event>, e: Event)
    requires EvictionJustified(ctx, s.phase, t) && !Finished(s) && !UnderEviction(s.phase)
    requires !StepFlow(ctx, s, e).phase.Rejected?
    ensures EvictionJustified(ctx, StepFlow(ctx, s, e).phase, t + [e])
  {
    assert !UnloadsVictim(ctx, e) by {
      if e.Unloaded? { OnlyTargetUnloads(ctx, s, e); }
    }
    ExtendTrace(ctx, t, e);
    LaterIsPast(ctx, s, e);
    if PastEviction(s.phase) && ctx.victims != [] {
      EvictionStaysSeen(ctx, t, e);
    }
  }

  lemma LaterIsPast(ctx: FlowContext, s: FlowState, e: Event)
    requires !Finished(s) && !UnderEviction(s.phase) && !StepFlow(ctx, s, e).phase.Rejected?
    ensures !UnderEviction(StepFlow(ctx, s, e).phase)
    ensures PastEviction(StepFlow(ctx, s, e).phase) ==> PastEviction(s.phase)
  {
  }

  lemma IdentityStep(ctx: FlowContext, s: FlowState, t: seq<Event>, e: Event)
    requires IdentityJustified(ctx, s.phase, t) && !Finished(s)
    requires !StepFlow(ctx, s, e).phase.Rejected?
    ensures IdentityJustified(ctx, StepFlow(ctx, s, e).phase, t + [e])
  {
    var u := t + [e];
    assert u[|t|] == e;
    if s.phase.InheritedProbe? {
      var i :| 0 <= i < |t| && IsIdentity(ctx, t[i]);
      assert IsIdentity(ctx, u[i]);
    } else if PastIdentity(s.phase) && ctx.inherited {
      IdentityStaysSeen(ctx, t, e);
    } else if s.phase.InheritedStatus? && StepFlow(ctx, s, e).phase.InheritedProbe? {
      assert IsIdentity(ctx, u[|t|]);
    }
  }

  lemma RetryStep(ctx: FlowContext, s: FlowState, t: seq<Event>, e: Event)
    requires RetryJustified(ctx, s, t) && !Finished(s)
    requires !StepFlow(ctx, s, e).phase.Rejected?
    ensures RetryJustified(ctx, StepFlow(ctx, s, e), t + [e])
  {
    var u := t + [e];
    assert u[|t|] == e;
    if s.retried {
      AbsenceStaysSeen(ctx, t, e);
    } else if s.phase.Confirming? && s.phase.what.OfOomTarget? {
      var i :| 0 <= i < |t| && IsOom(ctx, t[i]);
      assert IsOom(ctx, u[i]);
      if StepFlow(ctx, s, e).retried {
        assert IsRelease(u[|t|], [ctx.id], ctx.targetAbsentGb);
      }
    } else if StepFlow(ctx, s, e).phase.Confirming? && StepFlow(ctx, s, e).phase.what.OfOomTarget? {
      assert IsOom(ctx, u[|t|]);
    }
  }

  lemma CountStep(ctx: FlowContext, s: FlowState, t: seq<Event>, e: Event)
    requires LoadsCounted(s, t) && RetryJustified(ctx, s, t) && !Finished(s)
    requires !StepFlow(ctx, s, e).phase.Rejected?
    ensures LoadsCounted(StepFlow(ctx, s, e), t + [e])
  {
    ExtendTrace(ctx, t, e);
  }

  ghost predicate LoadsJustified(ctx: FlowContext, s: FlowState, t: seq<Event>) {
    EvictionJustified(ctx, s.phase, t) && IdentityJustified(ctx, s.phase, t) && RetryJustified(ctx, s, t)
    && LoadsCounted(s, t)
  }

  lemma {:induction false} LoadsAreJustified(ctx: FlowContext, t: seq<Event>)
    requires WellFormed(ctx) && Accepted(ctx, t)
    ensures LoadsJustified(ctx, RunFlow(ctx, t), t)
    decreases |t|
  {
    if t != [] {
      AcceptedPrefix(ctx, t);
      var before, e := t[..|t| - 1], t[|t| - 1];
      var s := RunFlow(ctx, before);
      LoadsAreJustified(ctx, before);
      EveryVictimIsUnloadedOnce(ctx, before);
      assert t == before + [e];
      EvictionStep(ctx, s, before, e);
      IdentityStep(ctx, s, before, e);
      RetryStep(ctx, s, before, e);
      CountStep(ctx, s, before, e);
    }
  }

  /** The engine is asked to load at most twice, each time only with the evidence the protocol asks for. */
  lemma LoadsAreBoundedAndEarned(ctx: FlowContext, t: seq<Event>, n: nat)
    requires WellFormed(ctx) && Accepted(ctx, t) && n < |t| && t[n].LoadIssued?
    ensures MayLoad(ctx, t[..n])
    ensures LoadCount(t[..n]) <= 1
    ensures LoadCount(t[..n]) == 1 ==> MayRetry(ctx, t[..n])
    ensures LoadCount(t) <= 2
  {
    LoadsAreJustified(ctx, t);
    AcceptedPrefixes(ctx, t, n + 1);
    var u := t[..n + 1];
    assert u[..n] == t[..n];
    AcceptedPrefix(ctx, u);
    IssuedWhenReady(ctx, RunFlow(ctx, u[..n]), u[n]);
    LoadsAreJustified(ctx, u[..n]);
    EveryVictimIsUnloadedOnce(ctx, u[..n]);
    assert |Ids(VictimUnloads(u[..n], ctx.id))| == |VictimUnloads(u[..n], ctx.id)|;
  }

  predicate EndsInPanic(t: seq<Event>) { t != [] && Panics(t[|t| - 1]) }

  /** The flow saw the old instance gone, tried again, and lived to report it. */
  predicate RetriedForGood(t: seq<Event>) { LoadCount(t) == 2 && !EndsInPanic(t) }

  /** What a finished trace shows of how its flow ended. */
  lemma EndingShowsInTrace(ctx: FlowContext, t: seq<Event>)
    requires WellFormed(ctx) && Finished(RunFlow(ctx, t))
    ensures RunFlow(ctx, t).retried <==> LoadCount(t) == 2
    ensures RunFlow(ctx, t).phase.Dead? <==> EndsInPanic(t)
  {
    LoadsAreJustified(ctx, t);
    if t != [] {
      DeathIsPanic(ctx, RunFlow(ctx, t[..|t| - 1]), t[|t| - 1]);
    }
  }

  lemma DeathIsPanic(ctx: FlowContext, s: FlowState, e: Event)
    requires !s.phase.Dead? && Finished(StepFlow(ctx, s, e))
    ensures StepFlow(ctx, s, e).phase.Dead? <==> Panics(e)
  {
  }

  /** An unconfirmed report keeps the old instance unless the flow retried for good. */
  lemma UnconfirmedKeeps(ctx: FlowContext, t: seq<Event>)
    requires WellFormed(ctx) && Finished(RunFlow(ctx, t))
    requires Report(ctx, RunFlow(ctx, t)).failure.RetainUnconfirmedLoad?
    ensures Report(ctx, RunFlow(ctx, t)).failure.kept == if RetriedForGood(t) then None else ctx.previous
    ensures RetriedForGood(t) ==> !ctx.inherited && AbsenceSeen(ctx, t)
  {
    EndingShowsInTrace(ctx, t);
    ReportIsGrounded(ctx, t);
    LoadsAreJustified(ctx, t);
  }

  lemma IssuedWhenReady(ctx: FlowContext, s: FlowState, e: Event)
    requires e.LoadIssued? && !StepFlow(ctx, s, e).phase.Rejected?
    ensures s.phase.ReadyToLoad?
  {
  }

  // ---------------------------------------------------------------- bound

  /** An upper bound on the events still to come. */
  function Rank(ctx: FlowContext, s: FlowState): nat {
    var r, p := ctx.releaseAttempts, ctx.probeAttempts;
    match s.phase
    case Evicting(_) =>
      (if |ctx.victims| >= |s.victimResults| then |ctx.victims| - |s.victimResults| else 0) + 3 * r + p + 8
    case Confirming(OfEviction(_), left) => left + 2 * r + p + 8
    case InheritedStatus => 2 * r + p + 8
    case InheritedProbe => 2 * r + p + 7
    case ReadyToLoad => if s.retried then r + p + 4 else 2 * r + p + 6
    case AwaitingLoad => if s.retried then r + p + 3 else 2 * r + p + 5
    case Confirming(OfOomTarget, left) => left + r + p + 4
    case Probing(left) => left + r + 2
    case CleaningUp(_, _) => r + 2
    case Confirming(OfCleanup(_, _), left) => left + 1
    case Clearing(_, _) => 1
    case _ => 0
  }

  function CallBound(ctx: FlowContext): nat {
    |ctx.victims| + 3 * ctx.releaseAttempts + ctx.probeAttempts + 8
  }

  lemma RankFalls(ctx: FlowContext, s: FlowState, e: Event)
    requires !Finished(s) && !StepFlow(ctx, s, e).phase.Rejected?
    ensures Rank(ctx, StepFlow(ctx, s, e)) < Rank(ctx, s)
  {
    if s.phase.Confirming? {
      PollRankFalls(ctx, s, e);
    } else if s.phase.AwaitingLoad? {
      AnswerRankFalls(ctx, s, e);
    }
  }

  lemma PollRankFalls(ctx: FlowContext, s: FlowState, e: Event)
    requires s.phase.Confirming? && !StepFlow(ctx, s, e).phase.Rejected?
    ensures Rank(ctx, StepFlow(ctx, s, e)) < Rank(ctx, s)
  {
  }

  lemma AnswerRankFalls(ctx: FlowContext, s: FlowState, e: Event)
    requires s.phase.AwaitingLoad? && !StepFlow(ctx, s, e).phase.Rejected?
    ensures Rank(ctx, StepFlow(ctx, s, e)) < Rank(ctx, s)
  {
  }

  /** However the engine behaves, a flow ends within a number of calls set by the configuration. */
  lemma {:induction false} FlowIsBounded(ctx: FlowContext, t: seq<Event>)
    requires Accepted(ctx, t)
    ensures |t| + Rank(ctx, RunFlow(ctx, t)) <= CallBound(ctx)
    decreases |t|
  {
    if t != [] {
      AcceptedPrefix(ctx, t);
      FlowIsBounded(ctx, t[..|t| - 1]);
      RankFalls(ctx, RunFlow(ctx, t[..|t| - 1]), t[|t| - 1]);
    }
  }

  // --------------------------------------------------------------- report

  ghost predicate FailureFits(ctx: FlowContext, retried: bool, t: seq<Event>, f: LoadFailure) {
    match f
    case Settle(state) => state.Stopped? || state.Error?
    case SettleReleased(status) => Sampled(Ok(status)) in t && ReleaseEvidence(status, [ctx.id], ctx.targetAbsentGb)
    case RestorePrevious(p) => ctx.previous == Some(p) && !retried
    case RetainPreviousOnError(p) => ctx.previous == Some(p) && !retried
    case RetainUnconfirmedLoad(kept) => kept == if retried then None else ctx.previous
  }

  ghost predicate AggregateFits(s: FlowState, t: seq<Event>) {
    s.aggregate.Some? ==> Sampled(Ok(s.aggregate.value)) in t && s.aggregate.value.usedGb >= 0.0
  }

  ghost predicate VerdictFits(ctx: FlowContext, s: FlowState, t: seq<Event>) {
    && (s.phase.Clearing? || s.phase.Done? ==> FailureFits(ctx, s.retried, t, s.phase.failure))
    && (UnderEviction(s.phase) || s.phase.InheritedStatus? || s.phase.InheritedProbe? ==> !s.retried)
  }

  ghost predicate SuccessFits(ctx: FlowContext, p: Phase, t: seq<Event>) {
    && (p.Probing? ==> LoadAnswered(ctx.id, Ok(())) in t)
    && ((p.Clearing? || p.Done?) && p.result.Success? ==>
          Probed(ctx.id, Ok(true)) in t && LoadAnswered(ctx.id, Ok(())) in t)
  }

  lemma AggregateStep(ctx: FlowContext, s: FlowState, t: seq<Event>, e: Event)
    requires AggregateFits(s, t) && !Finished(s) && !StepFlow(ctx, s, e).phase.Rejected?
    ensures AggregateFits(StepFlow(ctx, s, e), t + [e])
  {
    Kept(t, e);
  }

  lemma Kept(t: seq<Event>, e: Event)
    ensures forall x :: x in t || x == e ==> x in t + [e]
  {
  }

  lemma VerdictStep(ctx: FlowContext, s: FlowState, t: seq<Event>, e: Event)
    requires VerdictFits(ctx, s, t) && !Finished(s) && !StepFlow(ctx, s, e).phase.Rejected?
    ensures VerdictFits(ctx, StepFlow(ctx, s, e), t + [e])
  {
    Kept(t, e);
    match s.phase
    case Confirming(what, left) =>
      match what {
        case OfEviction(_) =>
        case OfOomTarget =>
        case OfCleanup(_, _) =>
      }
    case AwaitingLoad => if s.retried {} else {}
    case _ =>
  }

  lemma SuccessStep(ctx: FlowContext, s: FlowState, t: seq<Event>, e: Event)
    requires SuccessFits(ctx, s.phase, t) && !Finished(s) && !StepFlow(ctx, s, e).phase.Rejected?
    ensures SuccessFits(ctx, StepFlow(ctx, s, e).phase, t + [e])
  {
    Kept(t, e);
    if e.LoadAnswered? && e.done.Ok? {
      assert e.done.value == ();
    }
  }

  /** What a finished flow reports is backed by what it saw. */
  lemma {:induction false} ReportIsGrounded(ctx: FlowContext, t: seq<Event>)
    requires Accepted(ctx, t)
    ensures AggregateFits(RunFlow(ctx, t), t)
    ensures VerdictFits(ctx, RunFlow(ctx, t), t) && SuccessFits(ctx, RunFlow(ctx, t).phase, t)
    decreases |t|
  {
    if t != [] {
      AcceptedPrefix(ctx, t);
      var before, e := t[..|t| - 1], t[|t| - 1];
      ReportIsGrounded(ctx, before);
      assert t == before + [e];
      GroundedStep(ctx, RunFlow(ctx, before), before, e);
    }
  }

  lemma GroundedStep(ctx: FlowContext, s: FlowState, t: seq<Event>, e: Event)
    requires AggregateFits(s, t) && VerdictFits(ctx, s, t) && SuccessFits(ctx, s.phase, t) && !Finished(s)
    requires !StepFlow(ctx, s, e).phase.Rejected?
    ensures AggregateFits(StepFlow(ctx, s, e), t + [e])
    ensures VerdictFits(ctx, StepFlow(ctx, s, e), t + [e]) && SuccessFits(ctx, StepFlow(ctx, s, e).phase, t + [e])
  {
    AggregateStep(ctx, s, t, e);
    VerdictStep(ctx, s, t, e);
    SuccessStep(ctx, s, t, e);
  }

  /** What the actor may rely on in any report. */
  ghost predicate OutcomeFits(ctx: FlowContext, o: LoadOutcome) {
    && Ids(o.victimResults) == ctx.victims
    && (o.aggregateStatus.Some? ==> o.aggregateStatus.value.usedGb >= 0.0)
    && (o.aggregateTargetCreditGb == 0.0
        || (ctx.previous.Some? && o.aggregateTargetCreditGb == ctx.previous.value.memoryGb))
    && match o.failure
       case Settle(state) => state.Stopped? || state.Error?
       case SettleReleased(status) => status.usedGb >= 0.0
       case RestorePrevious(p) => ctx.previous == Some(p)
       case RetainPreviousOnError(p) => ctx.previous == Some(p)
       case RetainUnconfirmedLoad(kept) => kept.None? || kept == ctx.previous
  }

  lemma ReportFitsContext(ctx: FlowContext, t: seq<Event>)
    requires WellFormed(ctx) && Finished(RunFlow(ctx, t))
    ensures OutcomeFits(ctx, Report(ctx, RunFlow(ctx, t)))
  {
    var s := RunFlow(ctx, t);
    ReportIsGrounded(ctx, t);
    if s.phase.Dead? {
      assert Ids(PanickedVictims(ctx.victims)) == ctx.victims;
    } else {
      EveryVictimIsUnloadedOnce(ctx, t);
      var seen := VictimUnloads(t, ctx.id);
      assert Ids(FailedVictims(seen)) == Ids(seen);
      assert |Ids(seen)| == |ctx.victims|;
    }
  }
}
