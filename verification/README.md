# Supervisor, capacity ledger, circuit breaker and WebSocket framing

A Dafny model of the parts of this repository that keep state across messages,
crashes or arrival orders, with proofs about all of their runs.

- **The supervisor actor** (`crates/idoris-backend`). One loop owns every model's
  lifecycle. `Actor.dfy` says what one message makes of the actor's state;
  `Supervisor.dfy` is the loop as an object whose methods update their fields and
  are proved to perform exactly that step. `ActorInvariant`, `ActorCapacity`,
  `ActorRuns`, `ActorHistory`, `ActorCredits` and `ActorReplies` prove what every run
  keeps; `ActorAnswers` which request hears what, `ActorPlans` what the planned amounts
  mean, `ActorReports` what a finished operation leaves in each slot; `ActorOrder` and
  `ActorAdmission` when a load begins and how far that depends on the walk over the
  slots. `FootprintRuns` and `TieRuns` are short runs from a startup on which something
  one might expect fails.
- **The load flow against an arbitrary engine.** `LoadTasks.dfy` holds the
  background operations as methods against a script of engine replies: any call may
  answer anything, fail, time out or panic. Each returns the trace of its calls,
  proved to be a run of the automaton in `LoadFlow.dfy`; `LoadFlowFacts.dfy` proves
  what holds of every such trace, and `LoadVerdict.dfy` that the report is the one a
  reference without phases reads off the engine's answers.
- **The durable fence.** `LoadFence.dfy` is the marker and the owner lock on disk;
  `FenceSafety.dfy` puts actors, flow, disk and engine into one system with exits,
  kills, crashes, restarts and competing actors, and proves that no load is issued over
  an unresolved one and that a standing marker blocks everyone; `LostSync.dfy` treats
  the one case in which an unconfirmed load leaves no marker.
- **The shared capacity ledger.** `CapacityUnits.dfy` decodes IEEE 754 doubles into
  exact 128-bit units; `CapacityLedger.dfy` specifies every ledger call on values and
  proves the bounds over any interleaving of owners; `GlobalCapacityLedger.dfy` is the
  ledger object, method by method equal to that specification.
- **Eviction planning** (`Eviction.dfy`): the planner's loop, sound, minimal, complete.
- **The circuit breaker** (`crates/idoris-policy`). `Breaker.dfy` is the breaker
  object; `BreakerRuns.dfy` runs it over every order of late, stale, foreign and lost
  reports and shows that its counters amount to keeping the set of admissions whose
  outcome still matters; `BreakerBook.dfy` is the keyed book and its pair admission,
  `BookRuns.dfy` its entries over whole runs.
- **WebSocket framing** (`tools/slack-listen`). `WebSocketFrames.dfy` encodes and
  decodes frames; `WebSocket.dfy` is the buffered reader over a socket that delivers
  bytes in pieces of any size; `WebSocketMessages.dfy` proves that a fragmented
  message with control frames in between comes out whole.

Amounts in GB are reals; doubles appear as bit fields only where the program itself
converts them to units. Where the program walks a hash map the model takes the order
of the walk as an argument. No sum over the map depends on that order, nor does the
planner's refusal, and while no two evictable models share a stamp the whole step is
the same on every walk. With a tie the walk decides which of two models that never
became ready is evicted, hence how much the shared ledger is asked for.

Five properties one might expect do not hold of the code as such. For each the model
gives an input on which it fails and the exact condition under which it holds:

- whether a load begins can depend on the walk; it begins on a given walk if and only
  if nothing refuses it, its plan can be made and the ledger admits the amount planned
  on that walk (`ActorAdmission.LoadStartsExactly`, `TieRuns.TiesCanDecideAdmission`);
- a half-open breaker recovers if and only if its probe's ticket is not lost
  (`BreakerRuns.HalfOpenEndsOnlyByItsProbe`, `ProbesCanBeLost`);
- an unconfirmed load leaves its marker standing unless the removal went through and
  only the directory sync failed; the engine is known to be quiet then, and the next
  load of another model is admitted (`LostSync`);
- an unconfirmed load stays charged for the instance it replaced unless the flow ran
  out of memory, saw that instance gone, retried and lived to report it, with less
  than the old footprint requested (`ActorHistory.UnconfirmedKeepsBothFootprints`,
  `FootprintRuns.RetryGivesUpOldFootprint`);
- a slot is charged its whole request unless its model was inherited, when it is
  charged what the request exceeds the residency found
  (`ActorHistory.SlotCoversRequestExactly`,
  `FootprintRuns.InheritedRequestIsChargedTheRest`).

## Model

| member | source | states |
|---|---|---|
| CapacityUnits.ToCapacityUnitsIsExact | crates/idoris-backend/src/global_capacity.rs:420-480 | for every finite double, normal or subnormal, the integer conversion is the exact floor or ceiling of value times 10^9, and a range error exactly when that product is at least 2^128 |
| CapacityUnits.ValueIsBinary64 | crates/idoris-backend/src/global_capacity.rs:436-447 | the decoded fields denote the binary64 number: the significand, with its implicit leading bit unless subnormal, doubled or halved by the unbiased exponent |
| CapacityLedger.StepIsSafe | crates/idoris-backend/src/global_capacity.rs:155-393 | any call by any owner keeps every charge covering its estimate and the total within a u128; a refused call changes nothing; only adoption of observed residency passes the ceiling, and past it no other call raises the total |
| CapacityLedger.RunStaysUnderCeiling | crates/idoris-backend/src/global_capacity.rs:189-393 | over any interleaving without adoption the total stays within budget plus epsilon |
| CapacityLedger.RunKeepsValid | crates/idoris-backend/src/global_capacity.rs:315-393 | over any interleaving at all the total keeps fitting a u128 |
| CapacityLedger.ReservedStaysWithinBudget | crates/idoris-backend/src/global_capacity.rs:119-147 | in GB: reservations sum to at most budget + 1e-6 in a GB ledger, and at most the byte budget in a byte ledger |
| CapacityLedger.UnconfirmedRunKeepsHeadroom | crates/idoris-backend/src/global_capacity.rs:98-117 | calls without confirmation, in any interleaving with releases and non-growing updates, never take the total above budget minus headroom |
| CapacityLedger.RefusalsAreHonest | crates/idoris-backend/src/global_capacity.rs:155-177 | "confirmation required" is answered exactly when the same call with confirmation would be admitted, out-of-memory exactly when confirmation would be refused the same way |
| CapacityLedger.CallRecords | crates/idoris-backend/src/global_capacity.rs:189-393 | a call that succeeds leaves under its key what it says and touches no other key; a refused one changes nothing |
| CapacityLedger.ReleaseGivesBack | crates/idoris-backend/src/global_capacity.rs:237-249 | a release succeeds, removes the entry and gives back exactly its charge |
| CapacityLedger.ReserveSucceedsExactly | crates/idoris-backend/src/global_capacity.rs:189-235 | a first reservation succeeds exactly if it fits its ceiling beside the others, a repeated one exactly if it says the same |
| CapacityLedger.AdoptionSucceedsExactly | crates/idoris-backend/src/global_capacity.rs:263-276 | an adoption is refused only for a bad amount, a blank key, a stale expectation or overflow, never for capacity |
| CapacityLedger.BlankKeys | crates/idoris-backend/src/global_capacity.rs:189-200 | a key is blank exactly if it consists of Unicode White_Space |
| CapacityLedger.OthersLeaveEntryAlone | crates/idoris-backend/src/global_capacity.rs:315-393 | a call under another key leaves an owner's entry as it was |
| CapacityLedger.SoleOwnerEntryIsStable | crates/idoris-backend/src/global_capacity.rs:251-313 | whatever other owners do in between, a compare-and-set finds the value its owner last wrote |
| CapacityLedger.ConstructorsAreValid | crates/idoris-backend/src/global_capacity.rs:119-153 | every constructor starts an empty, valid ledger with its ceilings |
| CapacityLedger.StepKeepsChargedAtCeiling | crates/idoris-backend/src/global_capacity.rs:41-58 | every entry is charged at exactly the ceiling of its GB estimate |
| GlobalCapacity.GlobalCapacityLedger.CheckedTotal | crates/idoris-backend/src/global_capacity.rs:488-492 | the summing loop gives the total exactly when it fits a u128 |
| GlobalCapacity.GlobalCapacityLedger.ReserveWithHeadroom | crates/idoris-backend/src/global_capacity.rs:189-235 | a first reservation: admission, duplicate and blank-key refusals, the new entry, nothing else |
| GlobalCapacity.GlobalCapacityLedger.Release | crates/idoris-backend/src/global_capacity.rs:237-249 | removes the entry and says whether there was one |
| GlobalCapacity.GlobalCapacityLedger.ReplaceAllocation | crates/idoris-backend/src/global_capacity.rs:315-393 | the one compare-and-set: expectation, growth check, overflow, the replaced entry |
| GlobalCapacity.GlobalCapacityLedger.CompareAndSet | crates/idoris-backend/src/global_capacity.rs:287-313 | the GB form of it, with its input checks |
| GlobalCapacity.GlobalCapacityLedger.Resize | crates/idoris-backend/src/global_capacity.rs:251-261 | an owner's change under admission |
| GlobalCapacity.GlobalCapacityLedger.AdoptObserved | crates/idoris-backend/src/global_capacity.rs:263-276 | observed residency is recorded above any ceiling |
| GlobalCapacity.GlobalCapacityLedger.BlockGrowthForUnknownResidency | crates/idoris-backend/src/global_capacity.rs:278-285 | unknown residency is recorded as the whole budget |
| GlobalCapacity.GlobalCapacityLedger.UpdateCharge | crates/idoris-backend/src/global_capacity.rs:76-96 | a byte-exact change, with growth admitted or merely recorded |
| GlobalCapacity.GlobalCapacityLedger.ClaimCharge | crates/idoris-backend/src/global_capacity.rs:98-117 | holds the larger of what is held and what is planned, judging the plan |
| Eviction.ComputePlan | crates/idoris-backend/src/eviction.rs:179-268 | the planner, ties and error cases included, computes the specified plan |
| Eviction.ChooseVictims | crates/idoris-backend/src/eviction.rs:236-262 | the accumulating loop takes exactly the entries the specification chooses and their sum |
| Eviction.BadInputsAreRefused | crates/idoris-backend/src/eviction.rs:179-210 | amounts below zero are refused as invalid, a snapshot that holds the requested model as such, and nothing else is |
| Eviction.PlanIsSoundAndMinimal | crates/idoris-backend/src/eviction.rs:179-268 | nothing is evicted exactly when nothing need be; otherwise the victims are eligible, in order of last use, enough, and one fewer would not be enough |
| Eviction.PlanIsComplete | crates/idoris-backend/src/eviction.rs:179-268 | a request is turned away exactly when no set of eligible models would make room |
| LoadFences.LoadFence.Claim | crates/idoris-backend/src/load_fence.rs:26-50 | the lock is taken only when nobody holds it |
| LoadFences.LoadFence.CheckClear | crates/idoris-backend/src/load_fence.rs:52-63 | clear exactly when a begin on a working disk would be let through; what cannot be read counts as present |
| LoadFences.LoadFence.Begin | crates/idoris-backend/src/load_fence.rs:65-79 | succeeds only where no marker stood and then leaves one that survives a crash; failure never removes a marker and leaves one only if its file was created |
| LoadFences.LoadFence.Clear | crates/idoris-backend/src/load_fence.rs:81-89 | success means no marker stands and none that stood comes back after a crash, so the next begin is let through; a marker gone without success was removed and only the sync failed |
| LoadFences.LoadFence.Drop | crates/idoris-backend/src/load_fence.rs:91-100 | releases the lock, never the marker |
| LoadTasks.ConfirmMemoryReleased | crates/idoris-backend/src/supervisor.rs:628-682 | samples until the first evidence of release, the first panic or the last attempt, and reports which |
| LoadTasks.RunLoadFlow | crates/idoris-backend/src/supervisor.rs:684-961 | against any engine the calls made are a run of the flow automaton to its end, and the report is the one that run determines |
| LoadTasks.LoadAndProbe | crates/idoris-backend/src/supervisor.rs:760-961 | the same from the first load call on, with its one retry |
| LoadTasks.ProbeUntilReady | crates/idoris-backend/src/supervisor.rs:911-960 | probes until ready, an error, a panic or the attempt limit |
| LoadTasks.BestEffortRelease | crates/idoris-backend/src/supervisor.rs:968-992 | cleanup of the target: its unload, and a sample only if that proves release |
| LoadTasks.RunLoadTask | crates/idoris-backend/src/supervisor.rs:1292-1392 | a flow that panicked anywhere is reported with its victims failed and its load unconfirmed |
| LoadTasks.RunUnloadTask | crates/idoris-backend/src/supervisor.rs:1621-1663 | one unload, then success only with a sample that proves the release |
| LoadTasks.PollAdvances | crates/idoris-backend/src/supervisor.rs:628-682 | a poll moves the automaton exactly as its answer says |
| LoadFlowFacts.EngineFollowsPhase | crates/idoris-backend/src/supervisor.rs:684-961 | what is known of the engine after each call: quiet, loading, or possibly still loading |
| LoadFlowFacts.LoadIsIssuedQuietly | crates/idoris-backend/src/supervisor.rs:745-961 | no load is called while an earlier one of the flow may still run, nor after the marker was lifted |
| LoadFlowFacts.FenceIsLiftedLast | crates/idoris-backend/src/supervisor.rs:684-961 | the marker is lifted only by the last event of a flow and only when no load can still be running |
| LoadFlowFacts.ReportTellsTheFence | crates/idoris-backend/src/supervisor.rs:684-961 | a load is reported unconfirmed exactly when its flow did not end in a successful removal of the marker, and a flow ends in one only with the engine quiet |
| LoadFlowFacts.EveryVictimIsUnloadedOnce | crates/idoris-backend/src/supervisor.rs:704-742 | each victim is unloaded once, in order, even after failures, and its answer is what is reported |
| LoadFlowFacts.LoadsAreBoundedAndEarned | crates/idoris-backend/src/supervisor.rs:704-878 | load is called only after every victim unload succeeded and then a sample showed them gone (and, for an inherited target, a sample and then a probe identified it); at most twice, the second time only after an OOM answer and then a sample without the target, which was not inherited |
| LoadFlowFacts.UnconfirmedKeeps | crates/idoris-backend/src/supervisor.rs:911-961 | an unconfirmed report keeps the old instance exactly unless the flow loaded twice and did not panic, and then it saw the old instance gone after an OOM |
| LoadFlowFacts.FlowIsBounded | crates/idoris-backend/src/supervisor.rs:628-650 | the number of calls is bounded by the configuration |
| LoadFlowFacts.ReportIsGrounded | crates/idoris-backend/src/supervisor.rs:911-961 | a released verdict, an aggregate and a success are each backed by a sample or answer in the trace |
| LoadFlowFacts.ReportFitsContext | crates/idoris-backend/src/supervisor.rs:187-203 | every report names exactly the chosen victims and restores only the previous instance |
| LoadFlowFacts.DoubtKeepsMarker | crates/idoris-backend/src/supervisor.rs:886-909 | a flow in which a load timed out, or was answered with "unconfirmed", or panicked never touches the marker, and its report keeps everything charged |
| LoadVerdict.ReportIsJudged | crates/idoris-backend/src/supervisor.rs:684-961 | for every trace: result, failure, victim results, reported sample and credit are those that the engine's answers call for, by the last answer to load, the probes and the samples; the target is unloaded to clean up exactly when that answer calls for it; readiness is waited for as often as configured; identification fails only on a sample or probe that does not identify |
| LoadVerdict.EvidenceIsShown | crates/idoris-backend/src/supervisor.rs:628-650 | a sample proves a release if and only if it lists none of the models, uses no negative amount and no more than there may be, and reads zero only with nothing loaded |
| LoadVerdict.GoneWasSeen | crates/idoris-backend/src/supervisor.rs:628-682 | a victim that counts as gone was missing from a sample in the trace |
| ActorInvariant.StepKeepsInv | crates/idoris-backend/src/supervisor.rs:1864-2262 | every message that can arrive finds what it is about and leaves the invariant standing, by every exit path |
| ActorInvariant.PlanNamesEvictable | crates/idoris-backend/src/supervisor.rs:1238-1260 | only models at rest, idle, unpinned, not inherited and not unconfirmed are chosen as victims, each once |
| ActorInvariant.CandidatesAreTheEvictable | crates/idoris-backend/src/supervisor.rs:1238-1260 | the planner may choose exactly those models, other than the target |
| ActorRuns.LifecycleIsExact | crates/idoris-backend/src/supervisor.rs:1578-1617 | Loading is exactly the active load's target, Stopping exactly the active unload's target or the active load's victims, Launching never visible; without an operation nothing is transient |
| ActorRuns.UnloadsRunIdle | crates/idoris-backend/src/supervisor.rs:1713-1731 | whatever the engine may be asked to unload has no chat in flight and accepts none |
| ActorRuns.InflightCountsChats | crates/idoris-backend/src/supervisor.rs:1955-2018 | inflight equals the outstanding chats, positive only while Ready or under a draining unload |
| ActorRuns.ChatDoneCountsDown | crates/idoris-backend/src/supervisor.rs:2237-2258 | the saturating decrement never saturates |
| ActorRuns.DrainOnlyFalls | crates/idoris-backend/src/supervisor.rs:2237-2258 | a drain's count falls by each chat that ends and rises by nothing; the unload starts exactly at zero |
| ActorRuns.BusyActorOnlyAnswers | crates/idoris-backend/src/supervisor.rs:1420-1490 | while an operation is active another request is answered or joins it and touches nothing else |
| ActorRuns.StepKeepsReplies | crates/idoris-backend/src/supervisor.rs:1420-1451 | every request is answered exactly once or waits exactly once, and waits only on the very operation it asked for |
| ActorReplies.SuccessMeansDone | crates/idoris-backend/src/supervisor.rs:1399-1490 | whoever is told that a load succeeded is told of a model that is Ready under the policy it asked for, whoever is told that an unload succeeded of one that is Stopped; at once or after waiting |
| ActorReplies.WaitersHearTheTruth | crates/idoris-backend/src/supervisor.rs:2196-2229 | the one result of an operation is true of the common request of all its waiters |
| ActorReplies.ReportIsHeard | crates/idoris-backend/src/supervisor.rs:2201-2229 | all waiters of a finished operation hear the one result read off its trace, or an invariant violation if its end poisoned the actor |
| ActorAnswers.LoadHearsExactly | crates/idoris-backend/src/supervisor.rs:1399-1485 | a load hears success at once exactly if its model is Ready under that policy, unavailable exactly if an earlier load of it is unconfirmed, busy exactly if chats or another operation stand in the way; a repetition of the running load joins it |
| ActorAnswers.UnloadHearsExactly | crates/idoris-backend/src/supervisor.rs:1665-1731 | an unload hears success at once exactly of a Stopped model, not found of an unknown one, unavailable of an unconfirmed one, busy while another operation runs; a repetition joins, anything else begins |
| ActorAnswers.ChatIsDispatchedExactly | crates/idoris-backend/src/supervisor.rs:1955-2018 | a chat goes out exactly to a Ready model of an actor that takes commands, while there is a permit |
| ActorAnswers.RefusedLoadChangesNothing | crates/idoris-backend/src/supervisor.rs:1553-1577 | a load that does not start leaves models, capacity and operation as they were and hears why: the plan's error, the marker's, or the ledger's own once the marker is lifted again |
| ActorReports.UnloadRunProves | crates/idoris-backend/src/supervisor.rs:1621-1663 | an unload task reports success exactly if its call succeeded and its last sample shows the model gone, and otherwise the call's error, a panic, or that release was never seen |
| ActorReports.UnloadReportSettles | crates/idoris-backend/src/supervisor.rs:2130-2145 | an unload leaves its model Stopped exactly when a sample after it showed the model gone, otherwise an error with its whole charge; no other slot changes |
| ActorReports.VictimsSettle | crates/idoris-backend/src/supervisor.rs:2099-2124 | a victim ends Stopped exactly when its own unload succeeded and a sample then showed the victims gone, otherwise an error with its charge; bystanders are untouched |
| ActorReports.StoppedVictimWasGone | crates/idoris-backend/src/supervisor.rs:2099-2124 | a victim that ends Stopped was missing from a sample the engine gave |
| ActorReports.LoadLeaves | crates/idoris-backend/src/supervisor.rs:2146-2199 | from the request to the report, whatever arrives in between: a refused load leaves its model exactly as it was before the request, one that failed halfway leaves it charged for the larger of old and new, and so on by the verdict on the trace |
| ActorRuns.SettleTouchesOnlyLedger | crates/idoris-backend/src/supervisor.rs:1112-1173 | settling changes the ledger and the claim, nothing else |
| ActorCapacity.StepKeepsCapacity | crates/idoris-backend/src/supervisor.rs:1037-1173 | the shared ledger's entry is always this runtime's claim, and outside a load the claim covers what is accounted, exactly so if no load is unconfirmed |
| ActorCapacity.SettleFailsExactly | crates/idoris-backend/src/supervisor.rs:1112-1173 | in byte mode settling fails exactly when the charge cannot be expressed or grew past the claim without an unconfirmed load, or its growth does not fit a u128; never for a stale expectation |
| ActorCapacity.ClaimIsRefusedOnlyForCapacity | crates/idoris-backend/src/supervisor.rs:1077-1110 | the claim before a load is never refused for a stale expectation |
| ActorCapacity.SettleEstimateFailsExactly | crates/idoris-backend/src/supervisor.rs:1136-1173 | in GB mode: exactly when it accounts for more than the claim and the tolerance, unless that may be an unconfirmed load's and fits the ledger |
| ActorCapacity.ExactChargeIsBracketed | crates/idoris-backend/src/supervisor.rs:1037-1066 | in bytes the whole aggregate is charged, rounded up, and no more than that and the slots together |
| ActorCapacity.AccountedIsBracketed | crates/idoris-backend/src/supervisor.rs:1068-1075 | the accounted total is at least the last sample and at least the sum of the occupying slots, at most both together |
| ActorCredits.OnlySamplesMoveCredits | crates/idoris-backend/src/supervisor.rs:1200-1232 | the aggregate and its credits change only in a report that carries an engine sample |
| ActorCredits.SampleCreditsSlots | crates/idoris-backend/src/supervisor.rs:1205-1232 | a sample credits a model exactly if it is listed, charged and confirmed, and then what its slot is worth; the target of a load exactly if it is listed and had an old footprint that was not seen gone, and then that |
| ActorCredits.CreditsAreFrozen | crates/idoris-backend/src/supervisor.rs:1175-1232 | in every run up to the next sample, whatever loads and estimates do to the slots, no more of the sample is hidden than it credited |
| ActorCapacity.AdmissionFitsBudget | crates/idoris-backend/src/supervisor.rs:1488-1552 | an admitted load's plan fits the budget within epsilon once its victims are gone |
| ActorPlans.TurnedAwayExactly | crates/idoris-backend/src/supervisor.rs:1488-1530 | a load is turned away for memory exactly when the reservation alone exceeds the budget or no set of evictable models would make room |
| ActorPlans.PlannedIsCharged | crates/idoris-backend/src/supervisor.rs:1488-1552 | the planned total, in GB and in bytes, is what is reserved and what the installed slots hold once the victims are gone |
| ActorPlans.ChargeCoversRequest | crates/idoris-backend/src/supervisor.rs:1523-1545 | in bytes a slot is charged exactly what its request needs beyond what is reserved if its model was inherited, and its whole request otherwise |
| ActorPlans.ChargingFailsExactly | crates/idoris-backend/src/supervisor.rs:1523-1551 | in bytes a plan fails as invalid exactly when an amount has no byte value, as a violation exactly when the sum does not fit a u128, and otherwise gives the sum |
| ActorPlans.FlowLimitsAreTheRest | crates/idoris-backend/src/supervisor.rs:1264-1290 | the limits against which a load's samples are held are what slots and aggregate account for without the victims, and without the old instance too |
| ActorPlans.UnloadLimitIsTheRest | crates/idoris-backend/src/supervisor.rs:1703-1731 | the limit of an unload's samples is what the actor would account for with the model gone |
| ActorSums.SumsAreOfTerms | crates/idoris-backend/src/supervisor.rs:1037-1066 | each sum adds one term a model: what it holds unless never launched or stopped, or what of that the last sample counted |
| ActorSums.SumsInAnyOrder | crates/idoris-backend/src/supervisor.rs:1037-1066 | none of the four sums over the slots depends on the order of the map |
| ActorOrder.PlanInAnyOrder | crates/idoris-backend/src/supervisor.rs:1238-1260 | two walks over the slots plan the same load when no two evictable stamps are equal |
| ActorOrder.RefusalInAnyOrder | crates/idoris-backend/src/eviction.rs:179-268 | ties or not, the planner turns a request away on one walk exactly when it does on every other; the shared ledger's answer is another matter (ActorAdmission) |
| ActorOrder.TiesFollowTheWalk | crates/idoris-backend/src/eviction.rs:240-244 | with two equal stamps the order of the walk decides which model is evicted |
| ActorAdmission.StepInAnyOrder | crates/idoris-backend/src/supervisor.rs:1399-1617 | with distinct stamps among the evictable, two walks make the same of a load request: state, ledger, task and reply |
| ActorAdmission.ClaimSucceedsExactly | crates/idoris-backend/src/supervisor.rs:1077-1110 | a claim is granted if and only if, in bytes, the others' total and the plan fit the budget less any headroom not confirmed; in GB, the plan is already held, charged no more, or fits the ceiling beside the others |
| ActorAdmission.SmallerPlanIsAdmitted | crates/idoris-backend/src/supervisor.rs:1077-1110 | a plan that asks for less is never refused where a larger one is granted |
| ActorAdmission.LoadStartsExactly | crates/idoris-backend/src/supervisor.rs:1399-1617 | a load task appears if and only if the actor takes commands, its gates let the request proceed, no marker stands and one can be made, the load can be planned on this walk, and the ledger admits what is planned |
| ActorAdmission.UntrackedLoadsInAnyOrder | crates/idoris-backend/src/supervisor.rs:1488-1577 | outside a shared ledger a load begins on one walk exactly when it does on every other, ties or not |
| TieRuns.TiesCanDecideAdmission | crates/idoris-backend/src/supervisor.rs:1569-1577 | a run from a startup that leaves two models of different size with one stamp, after which the same load begins on one walk and is refused by the ledger on the other |
| ActorHistory.StepKeepsUses | crates/idoris-backend/src/supervisor.rs:1976-1980 | the stamps follow the history that dispatched chats and reported successes make, one message at a time |
| ActorHistory.RunFollowsHistory | crates/idoris-backend/src/supervisor.rs:2125-2134 | in every run the stamp of a slot is the position of its last use in that history |
| ActorHistory.VictimsAreLeastRecentlyUsed | crates/idoris-backend/src/eviction.rs:240-262 | every victim was last used no later in the history than any evictable model spared |
| ActorHistory.StepKeepsUnconfirmed | crates/idoris-backend/src/supervisor.rs:1453-1458 | no message changes an unconfirmed slot, which is Error, charged and out of reach of every unload |
| ActorHistory.UnconfirmedKeepsBothFootprints | crates/idoris-backend/src/supervisor.rs:2178-2194 | a load is unconfirmed exactly when its flow did not end in a successful removal of the marker; its slot is then Error, charged for the old instance exactly unless the flow retried for good with less, and for the request exactly unless an inherited model was charged only the rest |
| ActorHistory.StepKeepsRequest | crates/idoris-backend/src/supervisor.rs:1578-1607 | the slot of a running load is charged its whole request, in GB and in bytes, or at most that if its model was inherited |
| ActorHistory.SlotCoversRequestExactly | crates/idoris-backend/src/supervisor.rs:1486-1496 | an admitted slot covers its request if and only if the model was not inherited, nothing was reserved, or nothing was asked; with the residency found it always does |
| FootprintRuns.RetryGivesUpOldFootprint | crates/idoris-backend/src/supervisor.rs:866-878 | a run from a startup in which a model is ready at 8 GB, is loaded anew with 2 GB under another policy, runs out of memory, is seen gone and times out: its slot ends unconfirmed and charged 2 GB |
| FootprintRuns.InheritedRequestIsChargedTheRest | crates/idoris-backend/src/supervisor.rs:1491-1496 | a run from a startup that finds a model in an 8 GB engine: its load with 10 GB is admitted and charged 2, and when it times out its slot ends unconfirmed and charged 2 GB |
| ActorHistory.UnconfirmedForever | crates/idoris-backend/src/supervisor.rs:1246-1251 | it stays so for the rest of the run |
| ActorHistory.LoadKeepsMarker | crates/idoris-backend/src/supervisor.rs:1553-1577 | a load starts only where no marker stood and behind a durable one |
| ActorHistory.StartupEstablishesAll | crates/idoris-backend/src/supervisor.rs:1755-1864 | every startup, with or without a usable sample, begins inside the invariants |
| ActorHistory.StartupIsFaithful | crates/idoris-backend/src/supervisor.rs:1764-1853 | an actor takes commands only after a usable sample, whose aggregate and models it has then taken over as errors that cannot be evicted |
| ActorHistory.StartupIsCharged | crates/idoris-backend/src/supervisor.rs:1808-1828 | the ledger then holds what was found, or the whole budget if that is unknown |
| ActorHistory.EveryRunKeepsAll | crates/idoris-backend/src/supervisor.rs:1734-2262 | from every startup every run keeps all of the above; the two lost-entry poisons are unreachable |
| FenceSafety.ActionKeepsInv | crates/idoris-backend/src/supervisor.rs:1755-1763 | every step of the system keeps its invariant: who owns the lock, what the marker says of the running load, that an actor without the lock does nothing |
| FenceSafety.NoLoadOverUnresolvedLoad | crates/idoris-backend/src/supervisor.rs:684-961 | in every run with exits, kills, crashes, restarts and competing actors no load is issued while an earlier engine load is unresolved |
| FenceSafety.StandingMarkerBlocks | crates/idoris-backend/src/load_fence.rs:26-89 | whoever left it and why, while a marker stands behind which no load runs, no actor begins a load or removes it, in any run; a marker that was not synced is lost only when the machine dies |
| FenceSafety.MarkerRefusesNewActors | crates/idoris-backend/src/supervisor.rs:1755-1763 | every actor that comes up under a marker refuses every load |
| FenceSafety.UnresolvedLoadBlocks | crates/idoris-backend/src/load_fence.rs:52-79 | while a load is unresolved its marker stands durably, new actors start in error and a living one starts no load |
| LostSync.UnconfirmedWithoutMarkerExactly | crates/idoris-backend/src/load_fence.rs:81-89 | an unconfirmed report leaves no visible marker if and only if the removal went through and the sync failed, and then no load runs in the engine |
| LostSync.AnotherLoadFollowsALostSync | crates/idoris-backend/src/load_fence.rs:81-89 | a run in which that happens and the load of another model is then admitted |
| Supervision.Supervisor.Start | crates/idoris-backend/src/supervisor.rs:1755-1864 | claims and checks the fence, takes one sample and adopts it in the shared ledger; the state it comes up in is the specified one and every invariant holds |
| Supervision.Supervisor.Exit | crates/idoris-backend/src/supervisor.rs:1621-1663 | the lock goes with the actor unless a load, an unload or a chat it started still runs; the marker stays |
| Supervision.Supervisor.AdoptResidency | crates/idoris-backend/src/supervisor.rs:1808-1828 | what was found resident, or the whole budget if that is unknown, enters the ledger object as specified |
| Supervision.Supervisor.RequestLoad | crates/idoris-backend/src/supervisor.rs:1399-1617 | the handler performs exactly the load step: gates, plan, marker, claim, installation, in that order; a valid object stays valid |
| Supervision.Supervisor.Admit | crates/idoris-backend/src/supervisor.rs:1553-1617 | marker first, claim second, state last; a refused claim lifts the marker again |
| Supervision.Supervisor.PlanRequest | crates/idoris-backend/src/supervisor.rs:1488-1552 | the plan and its charges as specified |
| Supervision.Supervisor.RequestUnload | crates/idoris-backend/src/supervisor.rs:1665-1731 | exactly the unload step, draining or started at once; a valid object stays valid |
| Supervision.Supervisor.RequestChat | crates/idoris-backend/src/supervisor.rs:1955-2018 | exactly the chat step; dispatched exactly when one more chat is outstanding; a valid object stays valid |
| Supervision.Supervisor.FinishChat | crates/idoris-backend/src/supervisor.rs:2231-2258 | exactly the end of a chat, starting a drained unload; the invariant stands |
| Supervision.Supervisor.ClaimRuntimeCapacity | crates/idoris-backend/src/supervisor.rs:1077-1110 | the claim step against the shared ledger object |
| Supervision.Supervisor.SettleRuntimeCapacity | crates/idoris-backend/src/supervisor.rs:1112-1173 | the settling step against the shared ledger object |
| Supervision.Supervisor.FinishLoad | crates/idoris-backend/src/supervisor.rs:2063-2229 | runs the load task against any engine, applies its report and ends in a valid state |
| Supervision.Supervisor.FinishUnload | crates/idoris-backend/src/supervisor.rs:2063-2229 | runs the unload task against any engine, applies its report and ends in a valid state |
| Supervision.Supervisor.SettleEviction | crates/idoris-backend/src/supervisor.rs:2099-2124 | the loop over victim results leaves each victim Stopped or Error as its unload went |
| Breakers.ReadinessPredictsAdmit | crates/idoris-policy/src/breaker.rs:150-182 | the read-only check always predicts the admission, and a refusal changes nothing |
| Breakers.Breaker.RequestAdmission | crates/idoris-policy/src/breaker.rs:161-182 | the admission transition and its ticket |
| Breakers.Breaker.ReportSuccess | crates/idoris-policy/src/breaker.rs:184-207 | what a success makes of the breaker, stale and foreign tickets included |
| Breakers.Breaker.ReportFailure | crates/idoris-policy/src/breaker.rs:209-243 | what a failure makes of it |
| Breakers.Breaker.ReportFailureWithRetryAfter | crates/idoris-policy/src/breaker.rs:254-264 | failure and header from one ticket |
| Breakers.Breaker.ReportRetryAfter | crates/idoris-policy/src/breaker.rs:272-311 | what a Retry-After makes of it, the opening's cohort included |
| BreakerRuns.BreakerRefinesIdeal | crates/idoris-policy/src/breaker.rs:110-311 | in every run, whatever the order of reports, the breaker behaves like a machine that keeps the set of admissions whose outcome still matters; an unclaimed half-open state is unreachable |
| BreakerRuns.AdmissionsAgree | crates/idoris-policy/src/breaker.rs:161-182 | every request gets the answer that machine gives |
| BreakerRuns.OnlyTheProbeCloses | crates/idoris-policy/src/breaker.rs:184-243 | a half-open breaker has at most one live current ticket, its probe; only that ticket's success closes it and only its failure opens it |
| BreakerRuns.StaleReportsOnlyLengthen | crates/idoris-policy/src/breaker.rs:276-311 | a ticket of an earlier generation changes nothing, unless it asks to wait during the opening its own cohort caused: then the deadline becomes the later of the two moments, and nothing else changes |
| BreakerRuns.HalfOpenEndsOnlyByItsProbe | crates/idoris-policy/src/breaker.rs:161-311 | a half-open breaker can ever leave that state, by any events, if and only if its probe ticket is still to be reported |
| BreakerRuns.ProbesCanBeLost | crates/idoris-policy/src/breaker.rs:161-182 | a run after which the probe ticket is gone |
| BreakerRuns.LostProbeIsForever | crates/idoris-policy/src/breaker.rs:161-311 | from then on no run changes the breaker |
| BreakerRuns.FailuresAreTheStreak | crates/idoris-policy/src/breaker.rs:184-243 | while closed, the count is the number of counted failures since the last success or closing, below the threshold |
| BreakerRuns.OpensExactlyForCause | crates/idoris-policy/src/breaker.rs:209-311 | it opens exactly on a current report that reaches the threshold, carries a Retry-After, or fails the probe |
| BreakerRuns.DeadlineIsTheLatestWanted | crates/idoris-policy/src/breaker.rs:276-311 | while open, the deadline is the latest moment asked for since this opening began |
| BreakerRuns.DeadlineNeverMovesBack | crates/idoris-policy/src/breaker.rs:295-311 | within one opening the deadline never moves back, and after a failed probe it grants a full recovery window |
| BreakerRuns.StreakOpens | crates/idoris-policy/src/breaker.rs:35-52 | a new breaker counts failures in a row and opens at the third, fifth or second, for 60, 30 or 15 seconds, by its class |
| BreakerRuns.RetryAfterIsHonoured | crates/idoris-policy/src/breaker.rs:272-311 | a Retry-After opens it to the very moment asked for, after a failed probe for at least the recovery time |
| BreakerRuns.RefusalSaysWhen | crates/idoris-policy/src/breaker.rs:150-182 | a refusal names the wait after which, and not before, a request is let through |
| BreakerBooks.BookReadinessPredictsAdmit | crates/idoris-policy/src/breaker.rs:348-352 | a missing key reads as ready, and readiness predicts the admission that would create it |
| BreakerBooks.EntriesMayComeFirst | crates/idoris-policy/src/breaker.rs:380-394 | making both entries before asking either is the same as two sequential admissions |
| BreakerBooks.PairTouchesOnlyItself | crates/idoris-policy/src/breaker.rs:361-394 | two ready gates both admit with tickets, as predicted, and every other key is untouched |
| BreakerBooks.BreakerBook.AdmitPair | crates/idoris-policy/src/breaker.rs:361-394 | refusals leave every breaker and the key set unchanged, duplicates are refused exactly when the keys are equal, success is exactly two sequential admissions |
| BreakerBooks.BreakerBook.RequestAdmission | crates/idoris-policy/src/breaker.rs:396-401 | one admission through the book, making the entry on demand |
| BreakerBooks.BreakerBook.ReportSuccess | crates/idoris-policy/src/breaker.rs:403-407 | a report reaches the entry of its key and makes none; the other reporting methods alike |
| BreakerBooks.BreakerBook.ReportFailure | crates/idoris-policy/src/breaker.rs:409-419 | a failure changes at most the entry of its key, as the breaker alone would |
| BreakerBooks.BreakerBook.ReportFailureWithRetryAfter | crates/idoris-policy/src/breaker.rs:421-432 | a failure and its header reach one entry from one ticket |
| BreakerBooks.BreakerBook.ReportRetryAfter | crates/idoris-policy/src/breaker.rs:434-445 | a Retry-After reaches the entry of its key only |
| BookRuns.TicketsStayHome | crates/idoris-policy/src/breaker.rs:110-192 | in any run of the book a ticket reported under another key than the one that gave it out changes nothing, however late and whatever entries were made meanwhile |
| BookRuns.EntriesAreIndependent | crates/idoris-policy/src/breaker.rs:341-445 | after any calls each entry is what one breaker alone becomes of the calls under its key, and a key never asked has none |
| WebSocketFrames.DecodeUndoesEncode | tools/slack-listen/listen.py:482-529 | for every opcode below 16, fin flag, key and payload, whatever follows on the stream, decoding returns what was encoded; only a payload over the limit is refused |
| WebSocketFrames.CutFrameIsNoFrame | tools/slack-listen/listen.py:504-529 | a frame cut short at any byte is never read as a frame |
| WebSocketFrames.BigEndianRoundTrip | tools/slack-listen/listen.py:488-491 | the packed lengths read back as themselves |
| WebSocketFrames.MaskingUndoesItself | tools/slack-listen/listen.py:494-496 | masking twice with one key is no masking |
| WebSocketFrames.FrameBytes | tools/slack-listen/listen.py:482-501 | a frame byte by byte: flag and opcode, mask bit and length code, the length as base-256 digits with the most significant first, the four key bytes, and each payload byte xored with key byte i mod 4 |
| WebSocketFrames.DecodeReads | tools/slack-listen/listen.py:513-529 | of any bytes at all, with reserved bits or lengths longer than needed: the frame at the front by its bytes, or the first reason there is none |
| Bits.XorBitwise | tools/slack-listen/listen.py:494-496 | a bit of the exclusive or is set exactly where one of the two bytes has it |
| WebSockets.WebSocket.ReadExact | tools/slack-listen/listen.py:504-511 | whatever the chunks, the next bytes of the stream, or end of stream exactly when there are not enough, with nothing lost |
| WebSockets.WebSocket.ReadFrame | tools/slack-listen/listen.py:513-529 | under any chunking, the first frame of the stream and the rest of it, or the specified trouble |
| WebSockets.WebSocket.NextText | tools/slack-listen/listen.py:537-561 | under any chunking, the outcome the byte stream determines, with its replies on the wire in order and masked |
| WebSocketMessages.FragmentedMessageComesThrough | tools/slack-listen/listen.py:537-561 | a fragmented message with pings and pongs in between reads as the concatenated payload, with one matching pong per ping in order, and nothing after it is consumed; only a message over the limit is refused |
| WebSocketMessages.MessageArrives | tools/slack-listen/listen.py:537-561 | what a reader that meets NextText's contract gets of a fragmented message: the whole payload with all pongs sent, or a failed send with a proper prefix of them sent; over the limit never a message |
| WebSocketMessages.ReadMessage | tools/slack-listen/listen.py:537-561 | end to end: under any chunking the next message on a stream that begins with those fragments is that payload, and only its bytes are consumed |
| WebSocketMessages.CloseEndsTheStream | tools/slack-listen/listen.py:545-550 | a close is answered with at most 125 bytes of its payload and ends the stream |
| WebSocketMessages.FirstBytes | tools/slack-listen/listen.py:537-561 | pings, pongs, text and continuation frames carry the first bytes 0x89, 0x8A, 0x81 or 0x01, and 0x80 or 0x00 |
| WebSocketMessages.TextStartsOver | tools/slack-listen/listen.py:551-554 | a text frame forgets what was held of an unfinished message |
| WebSocketMessages.UnsupportedEndsTheStream | tools/slack-listen/listen.py:555-556 | any other opcode ends the reading with its number |
| WebSocketMessages.ContinuationExtends | tools/slack-listen/listen.py:551-561 | a continuation extends what is held even if no text frame opened the message, and only the limit refuses it |
| WebSocketMessages.ControlsPassBy | tools/slack-listen/listen.py:541-545 | a ping is answered with its payload and a pong ignored wherever they come, final or not, without touching what is held |
| WebSocketMessages.RepliesGoOut | tools/slack-listen/listen.py:531-532 | the bytes sent are one final, masked frame per reply, in order, byte by byte |

## Left out

- Rounding of f64 in the supervisor, in the planner and in the unit-to-GB conversion: these amounts are reals, and NaN and infinity are not representable.
- Tokio, channels, semaphores and real time: a message order, a script of engine replies and a permit that may be missing stand for them; a timeout is one of the replies.
- `list`, `status` and readiness queries of the supervisor, and the chat payloads themselves; a running `list` holds the owner lock like a chat does.
- Texts and identifiers of errors, log lines and metrics; errors are their kinds.
- Poisoned locks of the ledger and panics of the allocator.
- Directory creation, `fsync` and inherited descriptors of the fence: each file operation succeeds or fails, and a failed sync may or may not survive a crash.
- The panic on a snapshot that contains the requested model: shown unreachable, and mapped to an invariant violation in the planner's error mapping.
- A lost ledger entry: the source never removes a slot, so the object's methods have no branch for a lost entry; the step function keeps it and the run theorem shows it unreachable.
- Overflow of the u64 use counter and exhaustion of breaker issuer numbers: both are unbounded.
- BreakerRuns.BreakerRefinesIdeal: assumes at most 2^64 - 1 events, because the generation counter saturates there and generations then stop being unique.
- Parsing of the `Retry-After` header, and cloning a breaker.
- The slot sum during an evicting load, which may exceed the budget because victims and target are both charged; the claims are about its end.
- The socket's errors while receiving, and partial writes: reading ends at end of stream, a send goes out whole or fails.
- UTF-8 decoding of the message, the handshake, TLS, Slack calls, triggers and the spool file.
- Randomness of masking keys: a key is arbitrary.
