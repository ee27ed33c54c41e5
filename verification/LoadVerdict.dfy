/**
 * What a load flow must report, read off its trace alone: no phases and no limits,
 * only what the engine answered. The automaton, and with it the program's loops,
 * reports exactly this.
 */
module LoadVerdict {
  import opened Wrappers
  import opened Backend
  import opened Eviction
  import opened LoadFences
  import opened LoadFlow
  import opened LoadFlowFacts

  // ------------------------------------------------------ reading the trace

  /**
   * What a trace shows: the answers to `load`, how many and the last; the probes
   * since then; the unloads of victims and of the target; which samples showed whom
   * gone; and how the marker was treated.
   */
  datatype Seen = Seen(
    answers: nat, last: Option<Answer<()>>,
    probes: nat, cameUp: bool, lastProbe: Option<Answer<bool>>,
    unloads: seq<VictimResult>, unloadFailed: bool, victimsGone: bool, sample: Option<BackendStatus>,
    cleanups: nat, gone: Option<BackendStatus>, identified: bool,
    cleared: Option<ClearIo>, panicked: bool)

  const NOTHING := Seen(0, None, 0, false, None, [], false, false, None, 0, None, false, None, false)

  predicate NoneListed(ids: seq<string>, loaded: seq<string>) {
    ids == [] || (ids[0] !in loaded && NoneListed(ids[1..], loaded))
  }

  /** Nothing of `targets` is left and no more is used than there may be. */
  predicate ShowsGone(status: BackendStatus, targets: seq<string>, maxUsedGb: real) {
    && NoneListed(targets, status.loaded)
    && 0.0 <= status.usedGb && status.usedGb <= maxUsedGb + 0.000001
    && (status.usedGb == 0.0 ==> status.loaded == [])
  }

  /**
   * `gone` and `identified` speak of the last event: whether that is a sample which
   * shows the target gone, or identifies it. `sample` is what may be
   * reported beside a verdict: the first sample without the victims, or one without
   * the target that came right after an out-of-memory answer and allows a retry.
   */
  function NoteSample(ctx: FlowContext, seen: Seen, status: BackendStatus): Seen {
    var victimsGone := ctx.victims != [] && ShowsGone(status, ctx.victims, ctx.afterEvictionGb);
    var targetGone := ShowsGone(status, [ctx.id], ctx.targetAbsentGb);
    var mayRetry := seen.answers == 1 && seen.last == Some(Err(Oom)) && !ctx.inherited && seen.cleanups == 0;
    seen.(victimsGone := seen.victimsGone || victimsGone,
          gone := if targetGone then Some(status) else None,
          identified := IsIdentity(ctx, Sampled(Ok(status))),
          sample := if (victimsGone && !seen.victimsGone) || (mayRetry && targetGone) then Some(status)
                    else seen.sample)
  }

  function Note(ctx: FlowContext, seen: Seen, e: Event): Seen {
    var now := seen.(gone := None, identified := false, panicked := Panics(e));
    match e
    case Unloaded(id, a) =>
      var noted := now.(unloadFailed := seen.unloadFailed || !a.Ok?);
      if id == ctx.id then noted.(cleanups := seen.cleanups + 1)
      else noted.(unloads := seen.unloads + [VictimResult(id, Answered(a))])
    case Sampled(a) => if a.Ok? then NoteSample(ctx, now, a.value) else now
    case LoadIssued(_, _) => now
    case LoadAnswered(_, a) =>
      now.(answers := seen.answers + 1, last := Some(a), probes := 0, cameUp := false, lastProbe := None)
    case Probed(_, a) =>
      now.(probes := seen.probes + 1, cameUp := seen.cameUp || a == Ok(true), lastProbe := Some(a))
    case FenceCleared(io) => seen.(cleared := Some(io), panicked := false)
  }

  function Answered(a: Answer<()>): Result<(), BackendError> {
    match a
    case Ok(_) => Success(())
    case Err(e) => Failure(e)
    case Panicked => Failure(AdapterPanicked)
  }

  function Read(ctx: FlowContext, t: seq<Event>): Seen
    decreases |t|
  {
    if t == [] then NOTHING else Note(ctx, Read(ctx, t[..|t| - 1]), t[|t| - 1])
  }

  // ------------------------------------------------------------ the verdict

  /** What became of the last load. */
  datatype Finding =
    | CameUp   // accepted and probed ready
    | Refused  // the engine said no and left everything as it was
    | Failed   // it did not stay, and the target is unloaded to make sure
    | InDoubt  // the engine may still be at it

  function Find(seen: Seen): (Result<(), BackendError>, Finding)
    requires seen.last.Some?
  {
    match seen.last.value
    case Ok(_) =>
      if seen.cameUp then (Success(()), CameUp)
      else if seen.lastProbe.Some? && seen.lastProbe.value.Err? then (Failure(seen.lastProbe.value.error), InDoubt)
      else (Failure(ProbeTimedOut), InDoubt)
    case Err(AdapterTimedOut) => (Failure(AdapterTimedOut), InDoubt)
    case Err(LoadUnconfirmed) => (Failure(LoadUnconfirmed), InDoubt)
    case Err(LoadPostconditionFailed) => (Failure(LoadPostconditionFailed), Failed)
    case Err(e) => (Failure(e), if e == Oom && seen.answers == 1 then Failed else Refused)
    case Panicked => (Failure(AdapterPanicked), InDoubt)
  }

  /** The old instance, unless a second load was called: then it is known to be gone. */
  function Old(ctx: FlowContext, seen: Seen): Option<PreviousModel> {
    if seen.answers > 1 then None else ctx.previous
  }

  function Untouched(old': Option<PreviousModel>): LoadFailure {
    if old'.Some? then RestorePrevious(old'.value) else Settle(Stopped)
  }

  /** A load that did not stay: freed if the engine showed it gone, otherwise kept as an error. */
  function CleanedUp(old': Option<PreviousModel>, gone: Option<BackendStatus>): LoadFailure {
    if gone.Some? then SettleReleased(gone.value)
    else if old'.Some? then RetainPreviousOnError(old'.value)
    else Settle(Error)
  }

  function Judge(old': Option<PreviousModel>, found: Finding, gone: Option<BackendStatus>): LoadFailure {
    match found
    case CameUp => Settle(Error)
    case Refused => Untouched(old')
    case Failed => CleanedUp(old', gone)
    case InDoubt => RetainUnconfirmedLoad(old')
  }

  predicate VictimsGone(ctx: FlowContext, seen: Seen) { ctx.victims == [] || seen.victimsGone }

  /** Before the marker is touched. */
  function Decision(ctx: FlowContext, seen: Seen): (Result<(), BackendError>, LoadFailure) {
    if seen.last.Some? then
      var (result, found) := Find(seen);
      (result, Judge(Old(ctx, seen), found, seen.gone))
    else
      var evicted := VictimsGone(ctx, seen) && !seen.unloadFailed;
      (Failure(if evicted then ModelUnavailable else EvictionFailed), Untouched(ctx.previous))
  }

  /** A marker that cannot be lifted turns every verdict into an unconfirmed load. */
  function Verdict(ctx: FlowContext, seen: Seen): (Result<(), BackendError>, LoadFailure) {
    var (result, failure) := Decision(ctx, seen);
    if seen.cleared.None? || seen.cleared.value.Clears? then (result, failure)
    else (if result.Success? then Failure(Internal) else result, RetainUnconfirmedLoad(Old(ctx, seen)))
  }

  /** Each victim's own answer, unless the lot was never shown gone. */
  function VictimVerdicts(ctx: FlowContext, seen: Seen): seq<VictimResult> {
    if VictimsGone(ctx, seen) then seen.unloads
    else seq(|seen.unloads|, i requires 0 <= i < |seen.unloads| =>
               VictimResult(seen.unloads[i].id, Failure(EvictionFailed)))
  }

  function Judged(ctx: FlowContext, seen: Seen): LoadOutcome {
    if seen.panicked then
      LoadOutcome(Failure(AdapterPanicked),
                  seq(|ctx.victims|, i requires 0 <= i < |ctx.victims| =>
                        VictimResult(ctx.victims[i], Failure(AdapterPanicked))),
                  None, 0.0, RetainUnconfirmedLoad(ctx.previous))
    else
      LoadOutcome(Verdict(ctx, seen).0, VictimVerdicts(ctx, seen), seen.sample,
                  if Old(ctx, seen).Some? then Old(ctx, seen).value.memoryGb else 0.0, Verdict(ctx, seen).1)
  }

  /** How often the target is unloaded to clean up after its last load. */
  predicate CleanupsFit(seen: Seen) {
    if seen.last.None? then seen.cleanups == 0
    else
      match Find(seen).1
      case CameUp => seen.cleanups == 0
      case Refused => seen.cleanups == 0
      case Failed => seen.last == Some(Err(LoadPostconditionFailed)) ==> seen.cleanups == 1
      case InDoubt => seen.last.value.Panicked? || seen.cleanups == 1
  }

  /** Readiness is waited for as often as configured. */
  predicate ProbesFit(ctx: FlowContext, seen: Seen) {
    seen.last.Some? && seen.last.value.Ok? && !seen.cameUp && (seen.lastProbe.Some? ==> seen.lastProbe.value.Ok?)
    ==> seen.probes == ctx.probeAttempts
  }

  /** No load is called for want of identification only if the sample or the probe after it failed. */
  predicate IdentityFits(ctx: FlowContext, seen: Seen) {
    seen.last.None? && VictimsGone(ctx, seen) && !seen.unloadFailed
    ==> ctx.inherited && if seen.probes == 0 then !seen.identified else !seen.cameUp
  }

  // ------------------------------------------------------------- refinement

  lemma {:induction false} NoneListedIsNoneIn(ids: seq<string>, loaded: seq<string>)
    ensures NoneListed(ids, loaded) <==> forall id :: id in ids ==> id !in loaded
  {
    if ids != [] {
      NoneListedIsNoneIn(ids[1..], loaded);
      assert forall id :: id in ids <==> id == ids[0] || id in ids[1..];
    }
  }

  lemma EvidenceIsShown(status: BackendStatus, targets: seq<string>, maxUsedGb: real)
    ensures ReleaseEvidence(status, targets, maxUsedGb) <==> ShowsGone(status, targets, maxUsedGb)
  {
    NoneListedIsNoneIn(targets, status.loaded);
  }

  predicate OneOom(seen: Seen) { seen.answers == 1 && seen.last == Some(Err(Oom)) }

  predicate BeforeAnswer(s: FlowState, seen: Seen) {
    if s.retried then OneOom(seen) else seen.answers == 0 && seen.last.None?
  }

  predicate RetriedFits(s: FlowState, seen: Seen) {
    (s.retried <==> seen.answers > 1) && (seen.last.None? <==> seen.answers == 0)
  }

  predicate Cleaning(s: FlowState, seen: Seen, e: BackendError, unresolved: bool) {
    && RetriedFits(s, seen) && seen.last.Some? && !seen.last.value.Panicked?
    && Find(seen) == (Failure(e), if unresolved then InDoubt else Failed)
  }

  predicate Settled(ctx: FlowContext, s: FlowState, seen: Seen) {
    && RetriedFits(s, seen) && CleanupsFit(seen) && ProbesFit(ctx, seen)
    && IdentityFits(ctx, seen) && s.victimResults == VictimVerdicts(ctx, seen)
  }

  /** What each phase knows of the verdict. */
  predicate Follows(ctx: FlowContext, s: FlowState, seen: Seen) {
    && (!s.phase.Done? && !s.phase.Dead? ==> seen.cleared.None?)
    && (seen.panicked <==> s.phase.Dead?)
    && (s.phase.Dead? || s.aggregate == seen.sample)
    && match s.phase
       case Evicting(failed) => Evicting(ctx, s, seen, failed)
       case Confirming(OfEviction(failed), _) => ctx.victims != [] && Evicting(ctx, s, seen, failed)
       case InheritedStatus => Identifying(ctx, s, seen)
       case InheritedProbe => Identifying(ctx, s, seen)
       case ReadyToLoad => Loading(ctx, s, seen) && BeforeAnswer(s, seen)
       case AwaitingLoad => Loading(ctx, s, seen) && BeforeAnswer(s, seen)
       case Confirming(OfOomTarget, _) => Loading(ctx, s, seen) && !s.retried && OneOom(seen)
       case Probing(left) =>
         && Loading(ctx, s, seen) && RetriedFits(s, seen) && seen.last.Some? && seen.last.value.Ok?
         && !seen.cameUp && (seen.lastProbe.Some? ==> seen.lastProbe.value.Ok?)
         && seen.probes + left == ctx.probeAttempts
       case CleaningUp(e, unresolved) =>
         Loading(ctx, s, seen) && Cleaning(s, seen, e, unresolved) && ProbesFit(ctx, seen)
       case Confirming(OfCleanup(e, unresolved), _) =>
         && s.victimResults == seen.unloads && VictimsGone(ctx, seen) && seen.cleanups == 1
         && Cleaning(s, seen, e, unresolved) && ProbesFit(ctx, seen)
       case Clearing(result, failure) => Decision(ctx, seen) == (result, failure) && Settled(ctx, s, seen)
       case Done(result, failure) => Verdict(ctx, seen) == (result, failure) && Settled(ctx, s, seen)
       case Dead => true
       case Rejected => false
  }

  predicate Evicting(ctx: FlowContext, s: FlowState, seen: Seen, failed: bool) {
    && seen.answers == 0 && seen.last.None? && seen.cleanups == 0 && !s.retried
    && (failed <==> seen.unloadFailed) && !seen.victimsGone && s.victimResults == seen.unloads
    && seen.probes == 0 && !seen.cameUp
  }

  predicate Loading(ctx: FlowContext, s: FlowState, seen: Seen) {
    s.victimResults == seen.unloads && VictimsGone(ctx, seen) && seen.cleanups == 0
  }

  predicate Identifying(ctx: FlowContext, s: FlowState, seen: Seen) {
    && Loading(ctx, s, seen) && !s.retried && BeforeAnswer(s, seen) && !seen.unloadFailed
    && ctx.inherited && seen.probes == 0 && !seen.cameUp
  }

  lemma StartFollows(ctx: FlowContext)
    ensures Follows(ctx, Start(ctx), NOTHING)
  {
  }

  /** One more event: an unload of a victim, */
  lemma UnloadFollows(ctx: FlowContext, s: FlowState, seen: Seen, e: Event)
    requires WellFormed(ctx) && Follows(ctx, s, seen) && !StepFlow(ctx, s, e).phase.Rejected? && s.phase.Evicting?
    ensures Follows(ctx, StepFlow(ctx, s, e), Note(ctx, seen, e))
  {
    assert e.Unloaded? && e.id != ctx.id;
  }

  /** a sample after the last of them, */
  lemma EvictionFollows(ctx: FlowContext, s: FlowState, seen: Seen, e: Event)
    requires Follows(ctx, s, seen) && !StepFlow(ctx, s, e).phase.Rejected?
    requires s.phase.Confirming? && s.phase.what.OfEviction?
    ensures Follows(ctx, StepFlow(ctx, s, e), Note(ctx, seen, e))
  {
    if e.status.Ok? { EvidenceIsShown(e.status.value, ctx.victims, ctx.afterEvictionGb); }
  }

  /** the identification of an inherited target, */
  lemma IdentityFollows(ctx: FlowContext, s: FlowState, seen: Seen, e: Event)
    requires Follows(ctx, s, seen) && !StepFlow(ctx, s, e).phase.Rejected?
    requires s.phase.InheritedStatus? || s.phase.InheritedProbe?
    ensures Follows(ctx, StepFlow(ctx, s, e), Note(ctx, seen, e))
  {
  }

  /** the load itself, */
  lemma CallFollows(ctx: FlowContext, s: FlowState, seen: Seen, e: Event)
    requires Follows(ctx, s, seen) && !StepFlow(ctx, s, e).phase.Rejected? && s.phase.ReadyToLoad?
    ensures Follows(ctx, StepFlow(ctx, s, e), Note(ctx, seen, e))
  {
  }

  /** its answer, */
  lemma AnswerFollows(ctx: FlowContext, s: FlowState, seen: Seen, e: Event)
    requires Follows(ctx, s, seen) && !StepFlow(ctx, s, e).phase.Rejected? && s.phase.AwaitingLoad?
    ensures Follows(ctx, StepFlow(ctx, s, e), Note(ctx, seen, e))
  {
  }

  /** a sample after it ran out of memory, */
  lemma OomFollows(ctx: FlowContext, s: FlowState, seen: Seen, e: Event)
    requires Follows(ctx, s, seen) && !StepFlow(ctx, s, e).phase.Rejected?
    requires s.phase.Confirming? && s.phase.what.OfOomTarget?
    ensures Follows(ctx, StepFlow(ctx, s, e), Note(ctx, seen, e))
  {
    if e.status.Ok? { EvidenceIsShown(e.status.value, [ctx.id], ctx.targetAbsentGb); }
  }

  /** a probe, */
  lemma ProbingFollows(ctx: FlowContext, s: FlowState, seen: Seen, e: Event)
    requires Follows(ctx, s, seen) && !StepFlow(ctx, s, e).phase.Rejected? && s.phase.Probing?
    ensures Follows(ctx, StepFlow(ctx, s, e), Note(ctx, seen, e))
  {
  }

  predicate CleaningUp(ctx: FlowContext, s: FlowState, seen: Seen, e: BackendError, unresolved: bool) {
    && seen.cleared.None? && !seen.panicked && s.aggregate == seen.sample
    && s.victimResults == seen.unloads && VictimsGone(ctx, seen) && seen.cleanups == 1
    && Cleaning(s, seen, e, unresolved) && ProbesFit(ctx, seen)
  }

  lemma CleanedUpFollows(ctx: FlowContext, s: FlowState, seen: Seen, e: BackendError, unresolved: bool)
    requires CleaningUp(ctx, s, seen, e, unresolved)
    ensures Follows(ctx, AfterCleanup(ctx, s, e, unresolved, seen.gone), seen)
  {
  }

  lemma PolledFollows(ctx: FlowContext, s: FlowState, seen: Seen, e: BackendError, unresolved: bool, left: nat)
    requires CleaningUp(ctx, s, seen, e, unresolved) && seen.gone.None?
    ensures Follows(ctx, Confirm(ctx, s, OfCleanup(e, unresolved), left), seen)
  {
    if left == 0 {
      CleanedUpFollows(ctx, s, seen, e, unresolved);
    }
  }

  /** the unload of the target to clean up, */
  lemma CleanupFollows(ctx: FlowContext, s: FlowState, seen: Seen, e: Event)
    requires Follows(ctx, s, seen) && !StepFlow(ctx, s, e).phase.Rejected? && s.phase.CleaningUp?
    ensures Follows(ctx, StepFlow(ctx, s, e), Note(ctx, seen, e))
  {
    if !Panics(e) {
      CleanedUpFollows(ctx, s, Note(ctx, seen, e), s.phase.error, s.phase.unresolved);
    }
  }

  /** a sample after it, */
  lemma ReleaseFollows(ctx: FlowContext, s: FlowState, seen: Seen, e: Event)
    requires Follows(ctx, s, seen) && !StepFlow(ctx, s, e).phase.Rejected?
    requires s.phase.Confirming? && s.phase.what.OfCleanup?
    ensures Follows(ctx, StepFlow(ctx, s, e), Note(ctx, seen, e))
  {
    if !Panics(e) {
      SampleKeepsCleaning(ctx, s, seen, e);
      PollFollows(ctx, s, Note(ctx, seen, e), e);
    }
  }

  lemma PollFollows(ctx: FlowContext, s: FlowState, now: Seen, e: Event)
    requires e.Sampled? && !Panics(e) && s.phase.Confirming? && s.phase.what.OfCleanup? && s.phase.left > 0
    requires CleaningUp(ctx, s, now, s.phase.what.error, s.phase.what.unresolved)
    requires now.gone == if e.status.Ok? && ShowsGone(e.status.value, [ctx.id], ctx.targetAbsentGb)
                         then Some(e.status.value) else None
    ensures Follows(ctx, StepFlow(ctx, s, e), now)
  {
    var what := s.phase.what;
    if e.status.Ok? { EvidenceIsShown(e.status.value, [ctx.id], ctx.targetAbsentGb); }
    if now.gone.Some? {
      CleanedUpFollows(ctx, s, now, what.error, what.unresolved);
    } else {
      PolledFollows(ctx, s, now, what.error, what.unresolved, s.phase.left - 1);
    }
  }

  lemma SampleKeepsCleaning(ctx: FlowContext, s: FlowState, seen: Seen, e: Event)
    requires Follows(ctx, s, seen) && e.Sampled? && !Panics(e) && s.phase.Confirming? && s.phase.what.OfCleanup?
    ensures CleaningUp(ctx, s, Note(ctx, seen, e), s.phase.what.error, s.phase.what.unresolved)
  {
  }

  /** and the marker. */
  lemma ClearingFollows(ctx: FlowContext, s: FlowState, seen: Seen, e: Event)
    requires Follows(ctx, s, seen) && !StepFlow(ctx, s, e).phase.Rejected? && s.phase.Clearing?
    ensures Follows(ctx, StepFlow(ctx, s, e), Note(ctx, seen, e))
  {
  }

  lemma StepFollows(ctx: FlowContext, s: FlowState, seen: Seen, e: Event)
    requires WellFormed(ctx) && Follows(ctx, s, seen) && !Finished(s) && !StepFlow(ctx, s, e).phase.Rejected?
    ensures Follows(ctx, StepFlow(ctx, s, e), Note(ctx, seen, e))
  {
    match s.phase
    case Evicting(_) => UnloadFollows(ctx, s, seen, e);
    case InheritedStatus => IdentityFollows(ctx, s, seen, e);
    case InheritedProbe => IdentityFollows(ctx, s, seen, e);
    case Confirming(what, _) =>
      match what {
        case OfEviction(_) => EvictionFollows(ctx, s, seen, e);
        case OfOomTarget => OomFollows(ctx, s, seen, e);
        case OfCleanup(_, _) => ReleaseFollows(ctx, s, seen, e);
      }
    case ReadyToLoad => CallFollows(ctx, s, seen, e);
    case AwaitingLoad => AnswerFollows(ctx, s, seen, e);
    case Probing(_) => ProbingFollows(ctx, s, seen, e);
    case CleaningUp(_, _) => CleanupFollows(ctx, s, seen, e);
    case Clearing(_, _) => ClearingFollows(ctx, s, seen, e);
  }

  lemma {:induction false} FlowFollows(ctx: FlowContext, t: seq<Event>)
    requires WellFormed(ctx) && Accepted(ctx, t)
    ensures Follows(ctx, RunFlow(ctx, t), Read(ctx, t))
    decreases |t|
  {
    if t == [] {
      StartFollows(ctx);
    } else {
      var before, e := t[..|t| - 1], t[|t| - 1];
      AcceptedPrefix(ctx, t);
      FlowFollows(ctx, before);
      StepFollows(ctx, RunFlow(ctx, before), Read(ctx, before), e);
    }
  }

  /** The report of every finished flow is the one its trace calls for, after the calls it calls for. */
  lemma ReportIsJudged(ctx: FlowContext, t: seq<Event>)
    requires WellFormed(ctx) && Finished(RunFlow(ctx, t))
    ensures Report(ctx, RunFlow(ctx, t)) == Judged(ctx, Read(ctx, t))
    ensures !Read(ctx, t).panicked ==>
              CleanupsFit(Read(ctx, t)) && ProbesFit(ctx, Read(ctx, t)) && IdentityFits(ctx, Read(ctx, t))
  {
    FlowFollows(ctx, t);
  }

  /** Victims that were shown gone were missing from a sample taken by then. */
  lemma {:induction false} GoneWasSeen(ctx: FlowContext, t: seq<Event>, v: string)
    requires Read(ctx, t).victimsGone && v in ctx.victims
    ensures exists i :: 0 <= i < |t| && t[i].Sampled? && t[i].status.Ok? && v !in t[i].status.value.loaded
    decreases |t|
  {
    var before := t[..|t| - 1];
    if Read(ctx, before).victimsGone {
      GoneWasSeen(ctx, before, v);
      var i :| 0 <= i < |before| && before[i].Sampled? && before[i].status.Ok? && v !in before[i].status.value.loaded;
      assert t[i] == before[i];
    } else {
      NoneListedIsNoneIn(ctx.victims, t[|t| - 1].status.value.loaded);
    }
  }
}
