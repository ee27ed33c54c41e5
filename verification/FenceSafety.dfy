/**
 * The engine, the disk, and one actor after another: every run in which actors
 * start, exit and crash at any point, and in which a load outlives the actor that
 * started it.
 *
 * The theorem: the engine is never asked to load while an earlier load may still
 * be running inside it.
 */
module FenceSafety {
  import opened Wrappers
  import opened Backend
  import opened LoadFences
  import opened LoadFlow
  import opened LoadFlowFacts
  import opened Actor
  import opened ActorInvariant
  import opened ActorRuns
  import opened ActorHistory
  import L = CapacityLedger

  /** A load in progress: its events so far, where they start in the log, and whether its actor is gone. */
  datatype Flow = Flow(ctx: FlowContext, trace: seq<Event>, base: nat, orphan: bool)

  /**
   * `st` is the actor that owns the engine, when `alive`; `others` are actors that
   * came up beside it, or after it while its load still ran, without the owner lock.
   */
  datatype System = System(
    st: State, alive: bool, others: seq<State>, flow: Option<Flow>, marker: Marker, log: seq<Event>)

  datatype Action =
    | Spawn(settings: Settings, ledger: L.Ledger, tracking: Tracking, claimFails: bool, checkFails: bool,
            sample: Result<BackendStatus, BackendError>)
    | Receive(m: Message)
    | ReceiveBeside(i: nat, m: Message)
    | FlowEvent(e: Event)
    | OrphanEnds
    | ActorExits
    | ExitsBeside(i: nat)
    | Kill
    | Crash

  /**
   * The owner lock is held by the owner, and by its load task even after the owner is
   * gone. An unload or a chat that outlives its actor holds it too: until that ends a
   * claim fails, which is one of the ways `claimFails` may come about.
   */
  predicate LockHeld(s: System) { s.alive || s.flow.Some? }

  /** The state a new actor comes up in. */
  ghost function NewActor(s: System, a: Action): State
    requires a.Spawn?
  {
    Startup(a.settings, a.ledger, s.marker, a.tracking,
            StartupRefusal(LockHeld(s), a.claimFails, a.checkFails, s.marker), a.sample)
  }

  ghost predicate CanHappen(s: System, a: Action) {
    match a
    case Spawn(settings, ledger, _, _, _, _) =>
      settings.budgetGb >= 0.0 && !L.IsBlank(settings.ledgerKey) && L.Valid(ledger)
    case Receive(m) =>
      && s.alive && Enabled(s.st, m)
      && (m.LoadReported? ==> s.flow.Some? && !s.flow.value.orphan && s.flow.value.trace == m.trace)
    case ReceiveBeside(i, m) => i < |s.others| && Enabled(s.others[i], m)
    case FlowEvent(e) => s.flow.Some? && Accepted(s.flow.value.ctx, s.flow.value.trace + [e])
    case OrphanEnds => s.flow.Some? && s.flow.value.orphan && Finished(RunFlow(s.flow.value.ctx, s.flow.value.trace))
    case ActorExits => s.alive
    case ExitsBeside(i) => i < |s.others|
    case Kill => true
    case Crash => true
  }

  ghost function AfterMessage(s: System, m: Message): System
    requires s.alive && Enabled(s.st, m)
  {
    var st := Step(s.st, m);
    var marker := if m.Load? && s.flow.None? && s.st.startupError.None? then st.marker else s.marker;
    var flow :=
      if m.LoadReported? then None
      else if m.Load? && st.task != s.st.task && st.task.Some? && st.task.value.LoadTask? then
        Some(Flow(st.task.value.ctx, [], |s.log|, false))
      else s.flow;
    s.(st := st, flow := flow, marker := marker)
  }

  ghost function Next(s: System, a: Action): System
    requires CanHappen(s, a)
  {
    match a
    case Spawn(_, _, _, claimFails, _, _) =>
      if claimFails || LockHeld(s) then s.(others := s.others + [NewActor(s, a)])
      else s.(alive := true, st := NewActor(s, a))
    case Receive(m) => AfterMessage(s, m)
    case ReceiveBeside(i, m) => s.(others := s.others[i := Step(s.others[i], m)])
    case FlowEvent(e) =>
      s.(flow := Some(s.flow.value.(trace := s.flow.value.trace + [e])), log := s.log + [e],
         marker := if e.FenceCleared? then ClearStep(s.marker, e.io).marker else s.marker)
    case OrphanEnds => s.(flow := None)
    case ActorExits =>
      s.(alive := false, flow := if s.flow.Some? then Some(s.flow.value.(orphan := true)) else None)
    case ExitsBeside(i) => s.(others := s.others[..i] + s.others[i + 1..])
    // The owner's process dies: what it wrote stays visible, synced or not.
    case Kill => s.(alive := false, flow := None)
    // The machine dies: only what was synced comes back.
    case Crash => s.(alive := false, others := [], flow := None, marker := AfterCrash(s.marker))
  }

  // ------------------------------------------------------------- invariant

  /** Whenever the engine was asked to load, nothing could still be loading. */
  predicate LoadsAreSafe(log: seq<Event>) {
    forall n :: 0 <= n < |log| && log[n].LoadIssued? ==> Engine(log[..n]).Quiet?
  }

  ghost predicate FlowFits(s: System, f: Flow) {
    && Accepted(f.ctx, f.trace)
    && f.base <= |s.log| && s.log[f.base..] == f.trace
    && Engine(s.log[..f.base]).Quiet?
    && s.marker == MarkerAfter(Marker(true, true), f.trace)
  }

  ghost predicate ActorFits(s: System) {
    && AllInv(s.st)
    && (s.st.startupError.Some? ==> s.st.active.None? && s.st.task.None? && s.flow.None?)
    && (s.st.startupError.None? ==>
          match s.flow
          case None => s.st.marker == s.marker && (s.st.task.Some? ==> s.st.task.value.UnloadTask?)
          case Some(f) => !f.orphan && s.st.task == Some(LoadTask(f.ctx)))
  }

  /** An actor without the lock came up in error and does nothing. */
  predicate Refused(st: State) { st.startupError.Some? && st.active.None? && st.task.None? }

  ghost predicate SystemInv(s: System) {
    && LoadsAreSafe(s.log)
    && (!Engine(s.log).Quiet? ==> s.marker == Marker(true, true))
    && (s.flow.Some? ==> FlowFits(s, s.flow.value))
    && (s.alive ==> ActorFits(s))
    && (!s.alive && s.flow.Some? ==> s.flow.value.orphan)
    && forall i :: 0 <= i < |s.others| ==> Refused(s.others[i])
  }

  lemma {:induction false} ObserveSplit(l: EngineLoad, a: seq<Event>, b: seq<Event>)
    ensures ObserveAll(l, a + b) == ObserveAll(ObserveAll(l, a), b)
    decreases |b|
  {
    if b == [] {
      assert a + b == a;
    } else {
      ObserveSplit(l, a, b[..|b| - 1]);
      assert (a + b)[..|a + b| - 1] == a + b[..|b| - 1];
    }
  }

  lemma FlowSeesWholeLog(s: System, f: Flow)
    requires FlowFits(s, f)
    ensures Engine(s.log) == Engine(f.trace)
  {
    assert s.log == s.log[..f.base] + s.log[f.base..];
    ObserveSplit(Quiet, s.log[..f.base], f.trace);
  }

  /** A flow that may go on has not lifted its marker. */
  lemma UnfinishedKeepsMarker(ctx: FlowContext, t: seq<Event>, e: Event)
    requires Accepted(ctx, t + [e])
    ensures t != [] ==> !t[|t| - 1].FenceCleared?
    ensures MarkerAfter(Marker(true, true), t) == Marker(true, true)
  {
    if t != [] && t[|t| - 1].FenceCleared? {
      assert (t + [e])[|t| - 1] == t[|t| - 1];
      FenceIsLiftedLast(ctx, t + [e], |t| - 1);
    }
  }

  lemma SafeExtends(log: seq<Event>, e: Event)
    requires LoadsAreSafe(log) && (e.LoadIssued? ==> Engine(log).Quiet?)
    ensures LoadsAreSafe(log + [e])
  {
    forall n | 0 <= n < |log + [e]| && (log + [e])[n].LoadIssued? ensures Engine((log + [e])[..n]).Quiet? {
      if n < |log| { assert (log + [e])[..n] == log[..n]; } else { assert (log + [e])[..n] == log; }
    }
  }

  lemma FlowEventKeepsInv(s: System, e: Event)
    requires SystemInv(s) && CanHappen(s, FlowEvent(e))
    ensures SystemInv(Next(s, FlowEvent(e)))
  {
    var f := s.flow.value;
    var next := Next(s, FlowEvent(e));
    var t := f.trace + [e];
    FlowSeesWholeLog(s, f);
    UnfinishedKeepsMarker(f.ctx, f.trace, e);
    assert t[..|f.trace|] == f.trace;
    if e.LoadIssued? {
      LoadIsIssuedQuietly(f.ctx, t, |f.trace|);
    }
    SafeExtends(s.log, e);
    FlowEventFits(s, e);
    FlowSeesWholeLog(next, next.flow.value);
    if e.FenceCleared? {
      FenceIsLiftedLast(f.ctx, t, |f.trace|);
    }
  }

  lemma FlowEventFits(s: System, e: Event)
    requires s.flow.Some? && FlowFits(s, s.flow.value) && CanHappen(s, FlowEvent(e))
    ensures FlowFits(Next(s, FlowEvent(e)), Next(s, FlowEvent(e)).flow.value)
  {
    var f := s.flow.value;
    var next := Next(s, FlowEvent(e));
    UnfinishedKeepsMarker(f.ctx, f.trace, e);
    assert next.log[f.base..] == f.trace + [e] && next.log[..f.base] == s.log[..f.base];
  }

  lemma MarkedLoadIsRefused(st: State, m: Message)
    requires Inv(st) && MarkerFits(st) && Enabled(st, m) && m.Load? && st.marker.visible
    ensures Step(st, m).marker == st.marker && Step(st, m).task == st.task
  {
    LoadKeepsMarker(st, m);
    var asked := st.(asked := st.asked[m.req := LoadRequest(m.id, m.gb, m.policy, m.allow)]);
    if st.active.Some? {
      BusyActorOnlyAnswers(st, m);
    } else if Refusal(st).None? && LoadGate(asked, m.id, m.gb, m.policy, m.allow).Proceeds? {
      var planned := PlanLoad(asked, m.id, m.gb, m.order);
    }
  }

  lemma StepKeepsStartupError(st: State, m: Message)
    requires Enabled(st, m)
    ensures Step(st, m).startupError == st.startupError
  {
    match m
    case Load(_, _, _, _, _, _, _, _) => LoadKeepsStartupError(st, m);
    case LoadReported(_) => ReportKeepsStartupError(st, m);
    case UnloadReported(_, _) => ReportKeepsStartupError(st, m);
    case _ =>
  }

  lemma ReportKeepsStartupError(st: State, m: Message)
    requires Enabled(st, m) && (m.LoadReported? || m.UnloadReported?)
    ensures Step(st, m).startupError == st.startupError
  {
    if m.LoadReported? {
      var ctx := st.task.value.ctx;
      var o := Report(ctx, RunFlow(ctx, m.trace));
      var ended := st.(marker := MarkerAfter(st.marker, m.trace), task := None);
      if ctx.id in st.models { ConcludeKeepsError(ApplyLoadOutcome(ended, ctx.id, o), o.result); }
    } else {
      var id := st.task.value.id;
      if id in st.models { ConcludeKeepsError(ApplyUnloadOutcome(st.(task := None), id, m.outcome), m.outcome.result); }
    }
  }

  lemma ConcludeKeepsError(st: State, result: Result<(), BackendError>)
    ensures Conclude(st, result).startupError == st.startupError
  {
    SettleTouchesOnlyLedger(st);
  }

  lemma LoadKeepsStartupError(st: State, m: Message)
    requires Enabled(st, m) && m.Load?
    ensures Step(st, m).startupError == st.startupError
  {
    var asked := st.(asked := st.asked[m.req := LoadRequest(m.id, m.gb, m.policy, m.allow)]);
    if Refusal(st).None? && LoadGate(asked, m.id, m.gb, m.policy, m.allow).Proceeds? {
      var planned := PlanLoad(asked, m.id, m.gb, m.order);
      if planned.Success? {
        var fenced := asked.(marker := BeginStep(asked.marker, m.beginIo).marker);
        ClaimTouchesOnlyLedger(fenced, planned.value.plannedGb, planned.value.plannedCharge, m.allow);
      }
    }
  }

  /** An actor that started in error runs nothing. */
  lemma RefusedActorStaysIdle(st: State, m: Message)
    requires Enabled(st, m) && st.startupError.Some? && st.active.None? && st.task.None?
    ensures Step(st, m).active.None? && Step(st, m).task.None?
  {
  }

  /** The actor itself moves the marker and starts loads only while it handles a load request. */
  lemma OthersKeepMarkerAndLoads(st: State, m: Message)
    requires Inv(st) && Enabled(st, m) && !m.Load? && !m.LoadReported?
    ensures Step(st, m).marker == st.marker
    ensures Step(st, m).task == st.task || Step(st, m).task.None? || Step(st, m).task.value.UnloadTask?
    ensures st.task.Some? && st.task.value.LoadTask? ==> Step(st, m).task == st.task
  {
    if m.UnloadReported? {
      ReportsEndTheTask(st, m);
    } else if m.Unload? {
      UnloadKeepsMarkerAndLoads(st, m);
    }
  }

  lemma UnloadKeepsMarkerAndLoads(st: State, m: Message)
    requires Inv(st) && Enabled(st, m) && m.Unload?
    ensures Step(st, m).marker == st.marker
    ensures Step(st, m).task == st.task || Step(st, m).task.value.UnloadTask?
    ensures st.task.Some? && st.task.value.LoadTask? ==> Step(st, m).task == st.task
  {
    if st.active.Some? { BusyActorOnlyAnswers(st, m); }
  }

  lemma LoadMessageKeepsInv(s: System, m: Message)
    requires SystemInv(s) && CanHappen(s, Receive(m)) && m.Load?
    ensures SystemInv(Next(s, Receive(m)))
  {
    var st := s.st;
    var next := Next(s, Receive(m));
    StepKeepsAll(st, m);
    StepKeepsStartupError(st, m);
    LoadKeepsMarker(st, m);
    if st.startupError.Some? {
      RefusedActorStaysIdle(st, m);
      assert next.flow == s.flow && next.marker == s.marker;
    } else if s.flow.Some? {
      assert next.flow == s.flow && next.marker == s.marker;
    } else {
      if st.marker.visible { MarkedLoadIsRefused(st, m); }
      if next.flow.Some? {
        assert Accepted(next.flow.value.ctx, []) by { StartIsAccepted(next.flow.value.ctx); }
        assert s.log[|s.log|..] == [] && s.log[..|s.log|] == s.log;
      }
    }
  }

  lemma StartIsAccepted(ctx: FlowContext)
    ensures Accepted(ctx, [])
  {
  }

  lemma ReportMessageKeepsInv(s: System, m: Message)
    requires SystemInv(s) && CanHappen(s, Receive(m)) && m.LoadReported?
    ensures SystemInv(Next(s, Receive(m)))
  {
    StepKeepsAll(s.st, m);
    StepKeepsStartupError(s.st, m);
    ReportsEndTheTask(s.st, m);
  }

  lemma OtherMessageKeepsInv(s: System, m: Message)
    requires SystemInv(s) && CanHappen(s, Receive(m)) && !m.Load? && !m.LoadReported?
    ensures SystemInv(Next(s, Receive(m)))
  {
    StepKeepsAll(s.st, m);
    StepKeepsStartupError(s.st, m);
    OthersKeepMarkerAndLoads(s.st, m);
    if s.st.startupError.Some? {
      RefusedActorStaysIdle(s.st, m);
    }
  }

  lemma SpawnKeepsInv(s: System, a: Action)
    requires SystemInv(s) && CanHappen(s, a) && a.Spawn?
    ensures SystemInv(Next(s, a))
  {
    var error := StartupRefusal(LockHeld(s), a.claimFails, a.checkFails, s.marker);
    StartupShape(a.settings, a.ledger, s.marker, a.tracking, error, a.sample);
    StartupEstablishesAll(a.settings, a.ledger, s.marker, a.tracking, error, a.sample);
    if a.claimFails || LockHeld(s) {
      RefusedJoins(s, NewActor(s, a));
    } else {
      OwnerComesUp(s, NewActor(s, a));
    }
  }

  lemma RefusedJoins(s: System, st: State)
    requires SystemInv(s) && Refused(st)
    ensures SystemInv(s.(others := s.others + [st]))
  {
  }

  lemma OwnerComesUp(s: System, st: State)
    requires SystemInv(s) && !LockHeld(s) && AllInv(st) && st.active.None? && st.task.None? && st.marker == s.marker
    ensures SystemInv(s.(alive := true, st := st))
  {
  }

  lemma BesideKeepsInv(s: System, a: Action)
    requires SystemInv(s) && CanHappen(s, a) && (a.ReceiveBeside? || a.ExitsBeside?)
    ensures SystemInv(Next(s, a))
  {
    if a.ReceiveBeside? {
      StepKeepsStartupError(s.others[a.i], a.m);
      RefusedActorStaysIdle(s.others[a.i], a.m);
    }
  }

  /** Whatever happens next, in any state of any run. */
  lemma ActionKeepsInv(s: System, a: Action)
    requires SystemInv(s) && CanHappen(s, a)
    ensures SystemInv(Next(s, a))
  {
    match a
    case Spawn(_, _, _, _, _, _) => SpawnKeepsInv(s, a);
    case Receive(m) => ReceiveKeepsInv(s, m);
    case ReceiveBeside(_, _) => BesideKeepsInv(s, a);
    case FlowEvent(e) => FlowEventKeepsInv(s, e);
    case OrphanEnds =>
    case ActorExits =>
    case ExitsBeside(_) => BesideKeepsInv(s, a);
    case Kill =>
    case Crash =>
  }

  lemma ReceiveKeepsInv(s: System, m: Message)
    requires SystemInv(s) && CanHappen(s, Receive(m))
    ensures SystemInv(Next(s, Receive(m)))
  {
    if m.Load? {
      LoadMessageKeepsInv(s, m);
    } else if m.LoadReported? {
      ReportMessageKeepsInv(s, m);
    } else {
      OtherMessageKeepsInv(s, m);
    }
  }

  // ------------------------------------------------------------------- runs

  ghost predicate Happens(s: System, actions: seq<Action>)
    decreases |actions|
  {
    actions == [] || (CanHappen(s, actions[0]) && Happens(Next(s, actions[0]), actions[1..]))
  }

  ghost function Run(s: System, actions: seq<Action>): System
    requires Happens(s, actions)
    decreases |actions|
  {
    if actions == [] then s else Run(Next(s, actions[0]), actions[1..])
  }

  lemma {:induction false} RunKeepsInv(s: System, actions: seq<Action>)
    requires SystemInv(s) && Happens(s, actions)
    ensures SystemInv(Run(s, actions))
    decreases |actions|
  {
    if actions != [] {
      ActionKeepsInv(s, actions[0]);
      RunKeepsInv(Next(s, actions[0]), actions[1..]);
    }
  }

  /** A machine on which nothing was ever loaded and no actor runs, whatever its marker says. */
  function Unused(st: State, marker: Marker): System { System(st, false, [], None, marker, []) }

  /**
   * In every run with exits, kills, crashes, restarts and competing actors, no load
   * is issued while an earlier one may still be running.
   */
  lemma NoLoadOverUnresolvedLoad(st: State, marker: Marker, actions: seq<Action>)
    requires Happens(Unused(st, marker), actions)
    ensures LoadsAreSafe(Run(Unused(st, marker), actions).log)
  {
    RunKeepsInv(Unused(st, marker), actions);
  }

  // -------------------------------------------------------- a standing marker

  /** Every actor that comes up under a marker comes up in error. */
  lemma MarkerRefusesNewActors(s: System, a: Action)
    requires CanHappen(s, a) && a.Spawn? && s.marker.visible
    ensures NewActor(s, a).startupError.Some?
  {
    StartupShape(a.settings, a.ledger, s.marker, a.tracking,
                 StartupRefusal(LockHeld(s), a.claimFails, a.checkFails, s.marker), a.sample);
  }

  /** A marker nobody is loading behind, seen from one step to the next. */
  ghost predicate Standing(s: System) { SystemInv(s) && s.flow.None? && s.marker.visible }

  lemma MarkerOutlivesMessage(s: System, m: Message)
    requires Standing(s) && CanHappen(s, Receive(m))
    ensures Standing(Next(s, Receive(m))) && Next(s, Receive(m)).marker == s.marker && Next(s, Receive(m)).log == s.log
  {
    ReceiveKeepsInv(s, m);
    if m.Load? {
      if s.st.startupError.Some? {
        RefusedActorStaysIdle(s.st, m);
      } else {
        MarkedLoadIsRefused(s.st, m);
      }
    }
  }

  lemma MarkerOutlivesStep(s: System, a: Action)
    requires Standing(s) && CanHappen(s, a) && (a.Crash? ==> s.marker.durable)
    ensures Standing(Next(s, a)) && Next(s, a).marker == s.marker && Next(s, a).log == s.log
  {
    ActionKeepsInv(s, a);
    if a.Receive? {
      MarkerOutlivesMessage(s, a.m);
    }
  }

  /**
   * Whoever left it and why: while a marker stands that no running load may lift, no
   * actor, old or new, begins a load or removes it, in any run; a marker that was not
   * synced is only lost when the machine dies.
   */
  lemma {:induction false} StandingMarkerBlocks(s: System, actions: seq<Action>)
    requires Standing(s) && Happens(s, actions)
    requires s.marker.durable || Crash !in actions
    ensures var later := Run(s, actions);
            later.flow.None? && later.marker == s.marker && later.log == s.log
    decreases |actions|
  {
    if actions != [] {
      MarkerOutlivesStep(s, actions[0]);
      StandingMarkerBlocks(Next(s, actions[0]), actions[1..]);
    }
  }

  /** While a load may still be running its marker stands: new actors are refused, living ones start no load. */
  lemma UnresolvedLoadBlocks(s: System, a: Action)
    requires SystemInv(s) && CanHappen(s, a) && !Engine(s.log).Quiet?
    ensures s.marker == Marker(true, true)
    ensures a.Spawn? ==> NewActor(s, a).startupError.Some?
    ensures a.Receive? && a.m.Load? ==> Next(s, a).flow == s.flow && Next(s, a).st.task == s.st.task
    ensures a.Crash? || a.Kill? ==> Next(s, a).marker == s.marker
  {
    if a.Spawn? {
      MarkerRefusesNewActors(s, a);
    }
    if a.Receive? && a.m.Load? {
      LoadKeepsMarker(s.st, a.m);
      if s.st.startupError.Some? {
        RefusedActorStaysIdle(s.st, a.m);
      } else if s.flow.None? {
        MarkedLoadIsRefused(s.st, a.m);
      }
    }
  }
}
