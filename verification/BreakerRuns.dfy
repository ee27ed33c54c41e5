/**
 * The breaker over whole runs. Admissions are named by the event that granted them,
 * and their tickets are reported in any order, late, or never; tickets of other
 * breakers may be reported too.
 *
 * The reference machine knows no generations: it keeps the set of admissions whose
 * outcome still matters. The breaker, which keeps a counter and one cohort number
 * instead, is shown to behave exactly like it.
 */
module BreakerRuns {
  import opened Wrappers
  import opened Breakers

  datatype Report =
    | Succeeded
    | Failed(now: U64, retryAfter: Option<U64>)
    | Throttled(now: U64, ms: U64)

  datatype Event =
    | Ask(now: U64)
    | Answer(admission: nat, report: Report)
    | Stray(ticket: Ticket, report: Report)
    | Drop(admission: nat)

  // ------------------------------------------------------- the breaker runs

  /** `live` holds the tickets not yet moved into a report; `count` numbers the events. */
  datatype World = World(breaker: BreakerState, live: map<nat, Ticket>, count: nat)

  function Start(issuer: nat, class_: CredentialClass): World { World(Fresh(issuer, class_), map[], 0) }

  function Reporting(b: BreakerState, t: Ticket, r: Report): BreakerState {
    match r
    case Succeeded => OnSuccess(b, t)
    case Failed(now, ms) => OnFailureWithRetryAfter(b, t, now, ms)
    case Throttled(now, ms) => OnRetryAfter(b, t, now, ms)
  }

  predicate Possible(w: World, e: Event) {
    match e
    case Ask(_) => true
    case Answer(a, _) => a in w.live
    case Stray(t, _) => t.issuer != w.breaker.issuer
    case Drop(a) => a in w.live
  }

  function Next(w: World, e: Event): World
    requires Possible(w, e)
  {
    match e
    case Ask(now) =>
      var (after, admit) := Admitting(w.breaker, now);
      World(after, if admit.ticket.Some? then w.live[w.count := admit.ticket.value] else w.live, w.count + 1)
    case Answer(a, r) => World(Reporting(w.breaker, w.live[a], r), w.live - {a}, w.count + 1)
    case Stray(t, r) => w.(breaker := Reporting(w.breaker, t, r), count := w.count + 1)
    case Drop(a) => w.(live := w.live - {a}, count := w.count + 1)
  }

  /** The run of a trace, or None from the first event that could not happen. */
  function Run(start: World, trace: seq<Event>): Option<World> {
    if trace == [] then Some(start)
    else
      match Run(start, trace[..|trace| - 1])
      case None => None
      case Some(w) => if Possible(w, trace[|trace| - 1]) then Some(Next(w, trace[|trace| - 1])) else None
  }

  // -------------------------------------------------- the reference machine

  /** `ids` are the admissions whose report can still change the phase. */
  datatype Phase = Counting(failures: nat) | Waiting(until: U64) | Trying
  datatype Ideal = Ideal(phase: Phase, ids: set<nat>, count: nat)

  const IDEAL_START := Ideal(Counting(0), {}, 0)

  /** The latest moment a failed or throttled report asks to wait for. */
  function Wanted(class_: CredentialClass, probe: bool, opens: bool, r: Report): U64
    requires !r.Succeeded?
  {
    var recovery := SaturatingAdd(r.now, class_.RecoveryMs());
    match r
    case Throttled(now, ms) => Later(SaturatingAdd(now, ms), if probe then recovery else 0)
    case Failed(now, None) => recovery
    case Failed(now, Some(ms)) => Later(SaturatingAdd(now, ms), if probe || opens then recovery else 0)
  }

  predicate AsksToWait(r: Report) { r.Throttled? || (r.Failed? && r.retryAfter.Some?) }

  function IdealReport(class_: CredentialClass, s: Ideal, a: nat, r: Report): Ideal
    requires a in s.ids
  {
    var rest := s.ids - {a};
    match s.phase
    case Counting(failures) =>
      if r.Succeeded? then s.(phase := Counting(0), ids := rest)
      else if !AsksToWait(r) && failures + 1 < class_.FailureThreshold() then
        s.(phase := Counting(failures + 1), ids := rest)
      else s.(phase := Waiting(Wanted(class_, false, failures + 1 >= class_.FailureThreshold(), r)), ids := rest)
    case Waiting(until) =>
      if AsksToWait(r) then s.(phase := Waiting(Later(until, Wanted(class_, false, false, r))), ids := rest)
      else s.(ids := rest)
    case Trying =>
      if r.Succeeded? then s.(phase := Counting(0), ids := {})
      else s.(phase := Waiting(Wanted(class_, true, true, r)), ids := {})
  }

  function IdealAdmission(s: Ideal, now: U64): Admission {
    match s.phase
    case Counting(_) => Allowed
    case Waiting(until) => if now < until then Rejected(until - now) else Probe
    case Trying => Rejected(0)
  }

  function IdealNext(class_: CredentialClass, s: Ideal, e: Event): Ideal {
    var after :=
      match e
      case Ask(now) =>
        (match IdealAdmission(s, now)
         case Allowed => s.(ids := s.ids + {s.count})
         case Probe => s.(phase := Trying, ids := {s.count})
         case Rejected(_) => s)
      case Answer(a, r) => if a in s.ids then IdealReport(class_, s, a, r) else s
      case Stray(_, _) => s
      case Drop(a) => s.(ids := s.ids - {a});
    after.(count := s.count + 1)
  }

  function IdealRun(class_: CredentialClass, trace: seq<Event>): Ideal {
    if trace == [] then IDEAL_START
    else IdealNext(class_, IdealRun(class_, trace[..|trace| - 1]), trace[|trace| - 1])
  }

  // -------------------------------------------------------------- invariant

  /** A ticket of the breaker's current generation, not reported yet. */
  predicate Current(w: World, a: nat) { a in w.live && w.live[a].generation == w.breaker.generation }

  ghost predicate GateFits(w: World) {
    match w.breaker.gate
    case Closed(failures) =>
      && failures < w.breaker.class_.FailureThreshold()
      && (forall a :: a in w.live && w.live[a].generation == w.breaker.generation ==> !w.live[a].probe)
    case Open(_) =>
      && (forall a :: a in w.live ==> w.live[a].generation != w.breaker.generation)
      && w.breaker.openCohort.Some? && w.breaker.openCohort.value + 1 == w.breaker.generation
      && (forall a :: a in w.live && w.live[a].generation == w.breaker.openCohort.value ==> !w.live[a].probe)
    case HalfOpen(probing) =>
      && probing
      && (forall a :: a in w.live && w.live[a].generation == w.breaker.generation ==> w.live[a].probe)
      && (forall a, c :: a in w.live && c in w.live ==>
            w.live[a].generation == w.breaker.generation == w.live[c].generation ==> a == c)
  }

  ghost predicate Inv(w: World) {
    && w.breaker.generation <= w.count
    && (forall a :: a in w.live ==>
          && a < w.count && w.live[a].issuer == w.breaker.issuer && w.live[a].generation <= w.breaker.generation)
    && GateFits(w)
  }

  /** Which generation's reports still matter. */
  function WatchedGeneration(b: BreakerState): Option<nat> {
    if b.gate.Open? then (if b.openCohort.Some? then Some(b.openCohort.value) else None) else Some(b.generation)
  }

  /** What the breaker looks like without its counters. */
  ghost function Abstract(w: World): Ideal {
    Ideal(match w.breaker.gate
          case Closed(failures) => Counting(failures)
          case Open(until) => Waiting(until)
          case HalfOpen(_) => Trying,
          (set a | a in w.live && Some(w.live[a].generation as nat) == WatchedGeneration(w.breaker)),
          w.count)
  }

  lemma AskRefines(w: World, now: U64)
    requires Inv(w)
    ensures Inv(Next(w, Ask(now)))
    ensures Abstract(Next(w, Ask(now))) == IdealNext(w.breaker.class_, Abstract(w), Ask(now))
    ensures Admitting(w.breaker, now).1.admission == IdealAdmission(Abstract(w), now)
  {
    var after := Next(w, Ask(now));
    assert Abstract(after).ids == IdealNext(w.breaker.class_, Abstract(w), Ask(now)).ids;
  }

  lemma AnswerRefines(w: World, a: nat, r: Report)
    requires Inv(w) && a in w.live && w.count < U64_MAX
    ensures Inv(Next(w, Answer(a, r)))
    ensures Abstract(Next(w, Answer(a, r))) == IdealNext(w.breaker.class_, Abstract(w), Answer(a, r))
  {
    if r.Failed? {
      FailureRefines(w, a, r);
    } else {
      var after := Next(w, Answer(a, r));
      assert Abstract(after).ids == IdealNext(w.breaker.class_, Abstract(w), Answer(a, r)).ids;
    }
  }

  lemma FailureRefines(w: World, a: nat, r: Report)
    requires Inv(w) && a in w.live && w.count < U64_MAX && r.Failed?
    ensures Inv(Next(w, Answer(a, r)))
    ensures Abstract(Next(w, Answer(a, r))) == IdealNext(w.breaker.class_, Abstract(w), Answer(a, r))
  {
    var after := Next(w, Answer(a, r));
    assert Abstract(after).ids == IdealNext(w.breaker.class_, Abstract(w), Answer(a, r)).ids;
  }

  lemma StepRefines(w: World, e: Event)
    requires Inv(w) && Possible(w, e) && w.count < U64_MAX
    ensures Inv(Next(w, e))
    ensures Abstract(Next(w, e)) == IdealNext(w.breaker.class_, Abstract(w), e)
  {
    match e
    case Ask(now) => AskRefines(w, now);
    case Answer(a, r) => AnswerRefines(w, a, r);
    case Stray(t, r) => assert Abstract(Next(w, e)).ids == Abstract(w).ids;
    case Drop(a) => assert Abstract(Next(w, e)).ids == Abstract(w).ids - {a};
  }

  lemma StepKeepsIdentity(w: World, e: Event)
    requires Possible(w, e)
    ensures Next(w, e).breaker.class_ == w.breaker.class_ && Next(w, e).breaker.issuer == w.breaker.issuer
    ensures Next(w, e).count == w.count + 1
  {
  }

  ghost predicate Reaches(issuer: nat, class_: CredentialClass, trace: seq<Event>, w: World) {
    |trace| <= U64_MAX && Run(Start(issuer, class_), trace) == Some(w)
  }

  /** However reports interleave, counting generations amounts to keeping the set of admissions that matter. */
  lemma {:induction false} BreakerRefinesIdeal(issuer: nat, class_: CredentialClass, trace: seq<Event>, w: World)
    requires Reaches(issuer, class_, trace, w)
    ensures Inv(w) && Abstract(w) == IdealRun(class_, trace)
    ensures w.breaker.class_ == class_ && w.breaker.issuer == issuer && w.count == |trace|
  {
    if trace == [] {
      assert Abstract(w).ids == {};
    } else {
      var before := Run(Start(issuer, class_), trace[..|trace| - 1]).value;
      BreakerRefinesIdeal(issuer, class_, trace[..|trace| - 1], before);
      StepRefines(before, trace[|trace| - 1]);
      StepKeepsIdentity(before, trace[|trace| - 1]);
    }
  }

  /** Every request gets the answer the reference machine gives. */
  lemma AdmissionsAgree(issuer: nat, class_: CredentialClass, trace: seq<Event>, w: World, now: U64)
    requires Reaches(issuer, class_, trace, w)
    ensures Admitting(w.breaker, now).1.admission == IdealAdmission(IdealRun(class_, trace), now)
  {
    BreakerRefinesIdeal(issuer, class_, trace, w);
    AskRefines(w, now);
  }

  // ------------------------------------------------------------- late reports

  /** A half-open breaker waits for exactly its probe, and nothing else can close it. */
  lemma OnlyTheProbeCloses(issuer: nat, class_: CredentialClass, trace: seq<Event>, w: World, e: Event)
    requires Reaches(issuer, class_, trace, w) && w.breaker.gate.HalfOpen? && Possible(w, e)
    ensures w.breaker.gate == HalfOpen(true)
    ensures forall a, c :: Current(w, a) && Current(w, c) ==> a == c && w.live[a].probe
    ensures Next(w, e).breaker.gate.Closed? <==> e.Answer? && e.report.Succeeded? && Current(w, e.admission)
    ensures Next(w, e).breaker.gate.Open? <==> e.Answer? && !e.report.Succeeded? && Current(w, e.admission)
  {
    BreakerRefinesIdeal(issuer, class_, trace, w);
  }

  /** A ticket of an earlier generation changes nothing, or pushes out the deadline of the opening its cohort caused. */
  lemma StaleReportsOnlyLengthen(issuer: nat, class_: CredentialClass, trace: seq<Event>, w: World, a: nat, r: Report)
    requires Reaches(issuer, class_, trace, w) && a in w.live && !Current(w, a)
    ensures var b := w.breaker;
            Next(w, Answer(a, r)).breaker
            == if b.gate.Open? && b.openCohort == Some(w.live[a].generation) && AsksToWait(r)
               then b.(gate := Open(Later(b.gate.untilMs, Wanted(b.class_, false, false, r))))
               else b
  {
    BreakerRefinesIdeal(issuer, class_, trace, w);
  }

  // ---------------------------------------------------------- a lost probe

  /** A half-open breaker whose probe ticket was dropped: nothing reported can reach it any more. */
  ghost predicate ProbeIsLost(w: World) {
    && w.breaker.gate == HalfOpen(true)
    && forall a :: a in w.live ==> w.live[a].generation != w.breaker.generation
  }

  lemma LostStep(w: World, e: Event)
    requires ProbeIsLost(w) && Possible(w, e)
    ensures ProbeIsLost(Next(w, e)) && Next(w, e).breaker == w.breaker
  {
  }

  lemma {:induction false} LostProbeIsForever(w: World, trace: seq<Event>, later: World)
    requires ProbeIsLost(w) && Run(w, trace) == Some(later)
    ensures ProbeIsLost(later) && later.breaker == w.breaker
    decreases |trace|
  {
    if trace != [] {
      var before := Run(w, trace[..|trace| - 1]).value;
      LostProbeIsForever(w, trace[..|trace| - 1], before);
      LostStep(before, trace[|trace| - 1]);
    }
  }

  ghost predicate CanLeaveHalfOpen(w: World) {
    exists trace, later :: Run(w, trace) == Some(later) && !later.breaker.gate.HalfOpen?
  }

  /** A half-open breaker can ever change again if and only if its probe's ticket is still to be reported. */
  lemma HalfOpenEndsOnlyByItsProbe(issuer: nat, class_: CredentialClass, trace: seq<Event>, w: World)
    requires Reaches(issuer, class_, trace, w) && w.breaker.gate.HalfOpen?
    ensures CanLeaveHalfOpen(w) <==> exists a :: a in w.live && w.live[a].generation == w.breaker.generation
  {
    BreakerRefinesIdeal(issuer, class_, trace, w);
    if a :| a in w.live && w.live[a].generation == w.breaker.generation {
      var report := [Answer(a, Succeeded)];
      assert report[..0] == [] && Run(w, []) == Some(w);
      assert Run(w, report) == Some(Next(w, report[0]));
    } else if CanLeaveHalfOpen(w) {
      var more, later :| Run(w, more) == Some(later) && !later.breaker.gate.HalfOpen?;
      LostProbeIsForever(w, more, later);
      assert false;
    }
  }

  /** One failure asking to wait opens it; the probe of the next request is dropped. */
  const LOST_PROBE_TRACE := [Ask(0), Answer(0, Throttled(0, 10)), Ask(10), Drop(2)]

  lemma ProbesCanBeLost(issuer: nat, class_: CredentialClass) returns (w: World)
    ensures Run(Start(issuer, class_), LOST_PROBE_TRACE) == Some(w)
    ensures ProbeIsLost(w)
  {
    var t := LOST_PROBE_TRACE;
    var asked := Next(Start(issuer, class_), t[0]);
    var waiting := Next(asked, t[1]);
    var probing := Next(waiting, t[2]);
    w := Next(probing, t[3]);
    assert t[..3][..2] == t[..2] && t[..2][..1] == t[..1] && t[..1][..0] == [] && t[..3][2] == t[2]
           && t[..2][1] == t[1];
    assert Run(Start(issuer, class_), []) == Some(Start(issuer, class_));
    assert Run(Start(issuer, class_), t[..1]) == Some(asked);
    assert Run(Start(issuer, class_), t[..2]) == Some(waiting);
    assert Run(Start(issuer, class_), t[..3]) == Some(probing);
  }

  // ------------------------------------------------------------------ history

  function At(class_: CredentialClass, trace: seq<Event>, i: nat): Ideal
    requires i <= |trace|
  {
    IdealRun(class_, trace[..i])
  }

  lemma AtNext(class_: CredentialClass, trace: seq<Event>, i: nat)
    requires i < |trace|
    ensures At(class_, trace, i + 1) == IdealNext(class_, At(class_, trace, i), trace[i])
  {
    assert trace[..i + 1][..i] == trace[..i];
  }

  /** Event `i` reports an admission whose outcome still matters. */
  predicate Matters(class_: CredentialClass, trace: seq<Event>, i: nat) {
    i < |trace| && trace[i].Answer? && trace[i].admission in At(class_, trace, i).ids
  }

  predicate CountsFailure(class_: CredentialClass, trace: seq<Event>, i: nat) {
    && Matters(class_, trace, i) && At(class_, trace, i).phase.Counting?
    && !trace[i].report.Succeeded? && !AsksToWait(trace[i].report)
  }

  predicate Resets(class_: CredentialClass, trace: seq<Event>, i: nat) {
    Matters(class_, trace, i) && !At(class_, trace, i).phase.Waiting? && trace[i].report.Succeeded?
  }

  function FailuresSince(class_: CredentialClass, trace: seq<Event>, from: nat, end: nat): nat
    requires from <= end <= |trace|
    decreases end
  {
    if from == end then 0
    else FailuresSince(class_, trace, from, end - 1) + (if CountsFailure(class_, trace, end - 1) then 1 else 0)
  }

  /** From `from` on the breaker has only counted: since the start, or since a success that reset it. */
  ghost predicate IsStreak(class_: CredentialClass, trace: seq<Event>, from: nat, end: nat) {
    && from <= end <= |trace|
    && (from == 0 || Resets(class_, trace, from - 1))
    && (forall i :: from <= i <= end ==> At(class_, trace, i).phase.Counting?)
    && (forall i :: from <= i < end ==> !Resets(class_, trace, i))
  }

  lemma {:induction false} StreakExists(class_: CredentialClass, trace: seq<Event>, end: nat) returns (from: nat)
    requires end <= |trace| && At(class_, trace, end).phase.Counting?
    ensures IsStreak(class_, trace, from, end)
    ensures At(class_, trace, end).phase.failures == FailuresSince(class_, trace, from, end)
    decreases end
  {
    from := end;
    if end > 0 {
      AtNext(class_, trace, end - 1);
      if !Resets(class_, trace, end - 1) {
        from := StreakExists(class_, trace, end - 1);
      }
    }
  }

  /** While closed, the failure count is the failures since the last success or closing, and below the threshold. */
  lemma FailuresAreTheStreak(issuer: nat, class_: CredentialClass, trace: seq<Event>, w: World) returns (from: nat)
    requires Reaches(issuer, class_, trace, w) && w.breaker.gate.Closed?
    ensures IsStreak(class_, trace, from, |trace|)
    ensures w.breaker.gate.failures == FailuresSince(class_, trace, from, |trace|) < class_.FailureThreshold()
  {
    BreakerRefinesIdeal(issuer, class_, trace, w);
    assert trace[..|trace|] == trace;
    from := StreakExists(class_, trace, |trace|);
  }

  /** What turns a breaker that is not open into an open one: the threshold, a Retry-After, or a failed probe. */
  lemma OpensExactlyForCause(issuer: nat, class_: CredentialClass, trace: seq<Event>, w: World, e: Event)
    requires Reaches(issuer, class_, trace, w) && !w.breaker.gate.Open? && Possible(w, e)
    ensures var b := w.breaker;
            Next(w, e).breaker.gate.Open?
            <==> e.Answer? && Current(w, e.admission) && !e.report.Succeeded?
                 && (b.gate.HalfOpen? || AsksToWait(e.report) || b.gate.failures + 1 == class_.FailureThreshold())
  {
    BreakerRefinesIdeal(issuer, class_, trace, w);
  }

  /** The events from `opening` on have kept the breaker in one OPEN phase. */
  ghost predicate IsOpening(class_: CredentialClass, trace: seq<Event>, opening: nat, end: nat) {
    && opening < end <= |trace|
    && Matters(class_, trace, opening) && !trace[opening].report.Succeeded?
    && !At(class_, trace, opening).phase.Waiting?
    && (forall i :: opening < i <= end ==> At(class_, trace, i).phase.Waiting?)
  }

  /** The moment event `i` of an opening asks to wait for, if it has a say. */
  function WantedAt(class_: CredentialClass, trace: seq<Event>, i: nat): Option<U64> {
    if !Matters(class_, trace, i) || trace[i].report.Succeeded? then None
    else
      var s, r := At(class_, trace, i), trace[i].report;
      match s.phase
      case Counting(failures) => Some(Wanted(class_, false, failures + 1 >= class_.FailureThreshold(), r))
      case Waiting(_) => if AsksToWait(r) then Some(Wanted(class_, false, false, r)) else None
      case Trying => Some(Wanted(class_, true, true, r))
  }

  /** `until` is the latest of the moments asked for: none is cut short, and one asked for exactly this. */
  ghost predicate IsLatestWanted(class_: CredentialClass, trace: seq<Event>, from: nat, end: nat, until: U64) {
    && (forall i :: from <= i < end && WantedAt(class_, trace, i).Some? ==> WantedAt(class_, trace, i).value <= until)
    && (exists i :: from <= i < end && WantedAt(class_, trace, i) == Some(until))
  }

  lemma {:induction false} OpeningExists(class_: CredentialClass, trace: seq<Event>, end: nat) returns (opening: nat)
    requires end <= |trace| && At(class_, trace, end).phase.Waiting?
    ensures IsOpening(class_, trace, opening, end)
    ensures IsLatestWanted(class_, trace, opening, end, At(class_, trace, end).phase.until)
    decreases end
  {
    if end > 0 {
      AtNext(class_, trace, end - 1);
      if At(class_, trace, end - 1).phase.Waiting? {
        opening := OpeningExists(class_, trace, end - 1);
        LatestWantedGrows(class_, trace, opening, end - 1);
      } else {
        opening := end - 1;
        assert WantedAt(class_, trace, opening) == Some(At(class_, trace, end).phase.until);
      }
    }
  }

  lemma LatestWantedGrows(class_: CredentialClass, trace: seq<Event>, from: nat, i: nat)
    requires from <= i < |trace| && At(class_, trace, i).phase.Waiting? && At(class_, trace, i + 1).phase.Waiting?
    requires IsLatestWanted(class_, trace, from, i, At(class_, trace, i).phase.until)
    ensures IsLatestWanted(class_, trace, from, i + 1, At(class_, trace, i + 1).phase.until)
  {
    AtNext(class_, trace, i);
    var last, until := At(class_, trace, i).phase.until, At(class_, trace, i + 1).phase.until;
    var j :| from <= j < i && WantedAt(class_, trace, j) == Some(last);
    assert until == last || WantedAt(class_, trace, i) == Some(until);
  }

  /** While open, the deadline is the latest moment asked for since this opening began. */
  lemma DeadlineIsTheLatestWanted(issuer: nat, class_: CredentialClass, trace: seq<Event>, w: World)
    returns (opening: nat)
    requires Reaches(issuer, class_, trace, w) && w.breaker.gate.Open?
    ensures IsOpening(class_, trace, opening, |trace|)
    ensures IsLatestWanted(class_, trace, opening, |trace|, w.breaker.gate.untilMs)
  {
    BreakerRefinesIdeal(issuer, class_, trace, w);
    assert trace[..|trace|] == trace;
    opening := OpeningExists(class_, trace, |trace|);
  }

  lemma {:induction false} DeadlineGrows(class_: CredentialClass, trace: seq<Event>, opening: nat, i: nat, j: nat)
    requires IsOpening(class_, trace, opening, j) && opening < i <= j
    ensures At(class_, trace, i).phase.until <= At(class_, trace, j).phase.until
    ensures At(class_, trace, opening).phase.Trying?
            ==> SaturatingAdd(trace[opening].report.now, class_.RecoveryMs()) <= At(class_, trace, j).phase.until
    decreases j
  {
    AtNext(class_, trace, j - 1);
    if j > opening + 1 {
      DeadlineGrows(class_, trace, opening, if i < j then i else j - 1, j - 1);
    }
  }

  /** Within one opening the deadline never moves back, and after a failed probe it grants a full recovery window. */
  lemma DeadlineNeverMovesBack(issuer: nat, class_: CredentialClass, trace: seq<Event>, opening: nat, i: nat,
                               early: World, late: World)
    requires IsOpening(class_, trace, opening, |trace|) && opening < i <= |trace|
    requires Reaches(issuer, class_, trace[..i], early) && Reaches(issuer, class_, trace, late)
    ensures early.breaker.gate.Open? && late.breaker.gate.Open?
    ensures early.breaker.gate.untilMs <= late.breaker.gate.untilMs
    ensures At(class_, trace, opening).phase.Trying?
            ==> SaturatingAdd(trace[opening].report.now, class_.RecoveryMs()) <= early.breaker.gate.untilMs
  {
    BreakerRefinesIdeal(issuer, class_, trace[..i], early);
    BreakerRefinesIdeal(issuer, class_, trace, late);
    assert trace[..|trace|] == trace;
    assert At(class_, trace, i).phase.Waiting? && At(class_, trace, |trace|).phase.Waiting?;
    DeadlineGrows(class_, trace, opening, i, |trace|);
    DeadlineGrows(class_, trace, opening, i, i);
  }

  // ------------------------------------------------------------------ times

  /** How many failures in a row a class tolerates less one, and how long it then stays away. */
  function Limits(class_: CredentialClass): (nat, nat) {
    match class_
    case OAuth => (3, 60_000)
    case ApiKey => (5, 30_000)
    case Local => (2, 15_000)
  }

  function Capped(ms: nat): U64 { if ms <= 0xFFFF_FFFF_FFFF_FFFF then ms else 0xFFFF_FFFF_FFFF_FFFF }

  /** A new breaker after `n` of its admissions failed at `now`. */
  function AfterFailures(issuer: nat, class_: CredentialClass, now: U64, n: nat): BreakerState {
    if n == 0 then Fresh(issuer, class_)
    else OnFailure(AfterFailures(issuer, class_, now, n - 1), Ticket(issuer, 0, false), now)
  }

  /** It counts them up to the limit of its class, and at the limit opens for that class's recovery time. */
  lemma {:induction false} StreakOpens(issuer: nat, class_: CredentialClass, now: U64, n: nat)
    requires n <= Limits(class_).0
    ensures var b := AfterFailures(issuer, class_, now, n);
            && b.issuer == issuer && b.class_ == class_
            && if n < Limits(class_).0 then b.gate == Closed(n) && b.generation == 0
               else b.gate == Open(Capped(now + Limits(class_).1))
  {
    if n > 0 {
      StreakOpens(issuer, class_, now, n - 1);
    }
  }

  /** A Retry-After is honoured to the moment; after a failed probe it grants at least the recovery time. */
  lemma RetryAfterIsHonoured(b: BreakerState, t: Ticket, now: U64, ms: U64)
    requires t.issuer == b.issuer && t.generation == b.generation && !b.gate.Open? && (b.gate.HalfOpen? ==> t.probe)
    ensures var recovered := if t.probe then Capped(now + Limits(b.class_).1) else 0;
            var asked := Capped(now + ms);
            OnRetryAfter(b, t, now, ms).gate == Open(if asked < recovered then recovered else asked)
  {
  }

  /** A refusal says how long to wait: until then every request is refused, and then one is let through. */
  lemma RefusalSaysWhen(b: BreakerState, now: U64, later: U64)
    requires Admitting(b, now).1.admission.Rejected? && now <= later
    ensures var wait := Admitting(b, now).1.admission.retryAfterMs;
            if b.gate.HalfOpen? then wait == 0 && Admitting(b, later).1.ticket.None?
            else Admitting(b, later).1.ticket.Some? <==> later >= now + wait
  {
  }
}
