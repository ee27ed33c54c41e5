/**
 * Eviction planning: which models to unload, oldest use first, before a new one
 * may load. Memory amounts are reals; the program's tolerance stays a constant.
 */
module Eviction {
  import opened Wrappers

  datatype ModelState = Launching | Loading | Ready | Error | Stopping | Stopped

  datatype ModelEntry = ModelEntry(
    id: string, memoryGb: real, state: ModelState, pinned: bool, lastUsedSeq: nat, inflight: nat)

  datatype Snapshot = Snapshot(budgetGb: real, models: seq<ModelEntry>)
  datatype ModelReq = ModelReq(id: string, memoryGb: real)
  datatype EvictionPlan = NotNeeded | Evict(victims: seq<string>)
  datatype PlanError =
    | InsufficientCapacity(modelId: string, shortfallGb: real, budgetGb: real, evictableGb: real)
    | InvalidCapacity
    | SnapshotContainsRequestedModel(modelId: string)

  const CAPACITY_EPSILON_GB: real := 0.000001

  /** Anything whose memory is not confirmed free counts. */
  predicate OccupiesBudget(s: ModelState) {
    s.Loading? || s.Ready? || s.Stopping? || s.Error?
  }

  predicate Eligible(m: ModelEntry) {
    (m.state.Ready? || m.state.Error?) && !m.pinned && m.memoryGb > 0.0 && m.inflight == 0
  }

  function SumGb(ms: seq<ModelEntry>): real {
    if ms == [] then 0.0 else ms[0].memoryGb + SumGb(ms[1..])
  }

  /** Memory held by the models left once `gone` are unloaded. */
  function OccupiedWithout(ms: seq<ModelEntry>, gone: set<string>): real {
    if ms == [] then 0.0
    else
      (if OccupiesBudget(ms[0].state) && ms[0].id !in gone then ms[0].memoryGb else 0.0)
      + OccupiedWithout(ms[1..], gone)
  }

  function Candidates(ms: seq<ModelEntry>): (r: seq<ModelEntry>)
    ensures forall m :: m in r <==> m in ms && Eligible(m)
  {
    if ms == [] then []
    else if Eligible(ms[0]) then [ms[0]] + Candidates(ms[1..])
    else Candidates(ms[1..])
  }

  function InsertByUse(m: ModelEntry, sorted: seq<ModelEntry>): (r: seq<ModelEntry>)
    ensures |r| == |sorted| + 1
    ensures forall x :: x in r <==> x == m || x in sorted
  {
    if sorted == [] || m.lastUsedSeq <= sorted[0].lastUsedSeq then [m] + sorted
    else [sorted[0]] + InsertByUse(m, sorted[1..])
  }

  /** A stable sort by last use. */
  function LruSort(ms: seq<ModelEntry>): (r: seq<ModelEntry>)
    ensures |r| == |ms|
    ensures forall x :: x in r <==> x in ms
  {
    if ms == [] then [] else InsertByUse(ms[0], LruSort(ms[1..]))
  }

  /** The first entries that together cover the shortfall, or all of them. */
  function Choose(sorted: seq<ModelEntry>, freedGb: real, shortfallGb: real): (chosen: seq<ModelEntry>)
    ensures chosen <= sorted
  {
    if sorted == [] || freedGb + CAPACITY_EPSILON_GB >= shortfallGb then []
    else
      assert [sorted[0]] + sorted[1..] == sorted;
      [sorted[0]] + Choose(sorted[1..], freedGb + sorted[0].memoryGb, shortfallGb)
  }

  function IdsOf(ms: seq<ModelEntry>): seq<string> {
    seq(|ms|, i requires 0 <= i < |ms| => ms[i].id)
  }

  predicate ValidCapacities(state: Snapshot, need: ModelReq) {
    && state.budgetGb >= 0.0
    && need.memoryGb >= 0.0
    && forall i :: 0 <= i < |state.models| ==> state.models[i].memoryGb >= 0.0
  }

  function ShortfallGb(state: Snapshot, need: ModelReq): real {
    need.memoryGb - (state.budgetGb - OccupiedWithout(state.models, {}))
  }

  function Chosen(state: Snapshot, need: ModelReq): seq<ModelEntry> {
    Choose(LruSort(Candidates(state.models)), 0.0, ShortfallGb(state, need))
  }

  predicate Names(ms: seq<ModelEntry>, id: string) {
    exists i :: 0 <= i < |ms| && ms[i].id == id
  }

  function PlanEviction(state: Snapshot, need: ModelReq): Result<EvictionPlan, PlanError> {
    if !ValidCapacities(state, need) then Failure(InvalidCapacity)
    else if Names(state.models, need.id) then Failure(SnapshotContainsRequestedModel(need.id))
    else if ShortfallGb(state, need) <= CAPACITY_EPSILON_GB then Success(NotNeeded)
    else if SumGb(Chosen(state, need)) + CAPACITY_EPSILON_GB < ShortfallGb(state, need) then
      Failure(InsufficientCapacity(need.id, ShortfallGb(state, need), state.budgetGb,
                                   SumGb(LruSort(Candidates(state.models)))))
    else Success(Evict(IdsOf(Chosen(state, need))))
  }

  /** The loop the program runs over its sorted list of candidates. */
  method ComputePlan(state: Snapshot, need: ModelReq) returns (r: Result<EvictionPlan, PlanError>)
    ensures r == PlanEviction(state, need)
  {
    if !ValidCapacities(state, need) {
      return Failure(InvalidCapacity);
    }
    if Names(state.models, need.id) {
      return Failure(SnapshotContainsRequestedModel(need.id));
    }
    var availableGb := state.budgetGb - OccupiedWithout(state.models, {});
    if need.memoryGb <= availableGb + CAPACITY_EPSILON_GB {
      return Success(NotNeeded);
    }
    var shortfallGb := need.memoryGb - availableGb;
    assert shortfallGb == ShortfallGb(state, need);
    var candidates := LruSort(Candidates(state.models));
    var chosen, freedGb := ChooseVictims(candidates, shortfallGb);
    if freedGb + CAPACITY_EPSILON_GB < shortfallGb {
      return Failure(InsufficientCapacity(need.id, shortfallGb, state.budgetGb, SumGb(candidates)));
    }
    return Success(Evict(chosen));
  }

  method ChooseVictims(candidates: seq<ModelEntry>, shortfallGb: real) returns (chosen: seq<string>, freedGb: real)
    ensures chosen == IdsOf(Choose(candidates, 0.0, shortfallGb))
            && freedGb == SumGb(Choose(candidates, 0.0, shortfallGb))
  {
    freedGb, chosen := 0.0, [];
    var left := candidates;
    ghost var taken := [];
    while left != [] && freedGb + CAPACITY_EPSILON_GB < shortfallGb
      invariant ChosenSoFar(candidates, shortfallGb, taken, left, chosen, freedGb)
      decreases |left|
    {
      var victim := left[0];
      TakesNext(candidates, shortfallGb, taken, left, chosen, freedGb);
      freedGb, chosen, left := freedGb + victim.memoryGb, chosen + [victim.id], left[1..];
      taken := taken + [victim];
    }
    assert Choose(left, freedGb, shortfallGb) == [];
    assert taken + [] == taken;
  }

  ghost predicate ChosenSoFar(candidates: seq<ModelEntry>, shortfallGb: real, taken: seq<ModelEntry>,
                              left: seq<ModelEntry>, chosen: seq<string>, freedGb: real)
  {
    && chosen == IdsOf(taken) && freedGb == SumGb(taken)
    && Choose(candidates, 0.0, shortfallGb) == taken + Choose(left, freedGb, shortfallGb)
  }

  lemma TakesNext(candidates: seq<ModelEntry>, shortfallGb: real, taken: seq<ModelEntry>,
                  left: seq<ModelEntry>, chosen: seq<string>, freedGb: real)
    requires left != [] && freedGb + CAPACITY_EPSILON_GB < shortfallGb
    requires ChosenSoFar(candidates, shortfallGb, taken, left, chosen, freedGb)
    ensures ChosenSoFar(candidates, shortfallGb, taken + [left[0]], left[1..], chosen + [left[0].id],
                        freedGb + left[0].memoryGb)
  {
    SumAppend(taken, left[0]);
    IdsAppend(taken, left[0]);
    ChooseNext(taken, left, freedGb, shortfallGb);
  }

  lemma ChooseNext(head: seq<ModelEntry>, tail: seq<ModelEntry>, freedGb: real, shortfallGb: real)
    requires tail != [] && freedGb + CAPACITY_EPSILON_GB < shortfallGb
    ensures head + Choose(tail, freedGb, shortfallGb)
            == (head + [tail[0]]) + Choose(tail[1..], freedGb + tail[0].memoryGb, shortfallGb)
  {
    ChooseUnfolds(tail, freedGb, shortfallGb);
    Associate(head, [tail[0]], Choose(tail[1..], freedGb + tail[0].memoryGb, shortfallGb));
  }

  lemma Associate(a: seq<ModelEntry>, b: seq<ModelEntry>, c: seq<ModelEntry>)
    ensures a + (b + c) == (a + b) + c
  {
  }

  lemma IdsAppend(ms: seq<ModelEntry>, m: ModelEntry)
    ensures IdsOf(ms + [m]) == IdsOf(ms) + [m.id]
  {
  }

  lemma ChooseUnfolds(tail: seq<ModelEntry>, freedGb: real, shortfallGb: real)
    requires tail != [] && freedGb + CAPACITY_EPSILON_GB < shortfallGb
    ensures Choose(tail, freedGb, shortfallGb)
            == [tail[0]] + Choose(tail[1..], freedGb + tail[0].memoryGb, shortfallGb)
  {
  }

  lemma {:induction false} SumAppend(ms: seq<ModelEntry>, m: ModelEntry)
    ensures SumGb(ms + [m]) == SumGb(ms) + m.memoryGb
  {
    if ms == [] {
      assert [] + [m] == [m];
    } else {
      assert (ms + [m])[1..] == ms[1..] + [m];
      SumAppend(ms[1..], m);
    }
  }

  // ------------------------------------------------------------- properties

  predicate UniqueIds(ms: seq<ModelEntry>) {
    ms == [] || ((forall m :: m in ms[1..] ==> m.id != ms[0].id) && UniqueIds(ms[1..]))
  }

  predicate SortedByUse(ms: seq<ModelEntry>) {
    forall i, j :: 0 <= i < j < |ms| ==> ms[i].lastUsedSeq <= ms[j].lastUsedSeq
  }

  /** Memory of the entries named in `ids`. */
  function GbOf(ms: seq<ModelEntry>, ids: set<string>): real {
    if ms == [] then 0.0 else (if ms[0].id in ids then ms[0].memoryGb else 0.0) + GbOf(ms[1..], ids)
  }

  function IdSet(ms: seq<ModelEntry>): set<string> { set m | m in ms :: m.id }

  lemma {:induction false} InsertFacts(m: ModelEntry, sorted: seq<ModelEntry>, ids: set<string>)
    requires SortedByUse(sorted)
    ensures SortedByUse(InsertByUse(m, sorted))
    ensures GbOf(InsertByUse(m, sorted), ids) == (if m.id in ids then m.memoryGb else 0.0) + GbOf(sorted, ids)
    ensures UniqueIds(sorted) && (forall x :: x in sorted ==> x.id != m.id) ==> UniqueIds(InsertByUse(m, sorted))
  {
    if sorted == [] || m.lastUsedSeq <= sorted[0].lastUsedSeq {
      assert ([m] + sorted)[1..] == sorted;
    } else {
      InsertFacts(m, sorted[1..], ids);
      var tail := InsertByUse(m, sorted[1..]);
      assert ([sorted[0]] + tail)[1..] == tail;
      forall x | x in tail ensures sorted[0].lastUsedSeq <= x.lastUsedSeq {
      }
    }
  }

  lemma {:induction false} SortFacts(ms: seq<ModelEntry>, ids: set<string>)
    ensures SortedByUse(LruSort(ms))
    ensures GbOf(LruSort(ms), ids) == GbOf(ms, ids)
    ensures UniqueIds(ms) ==> UniqueIds(LruSort(ms))
  {
    if ms != [] {
      SortFacts(ms[1..], ids);
      InsertFacts(ms[0], LruSort(ms[1..]), ids);
    }
  }

  /** Unloading only eligible models frees exactly what those models hold. */
  lemma {:induction false} WithoutEligible(ms: seq<ModelEntry>, ids: set<string>)
    requires forall m :: m in ms && m.id in ids ==> OccupiesBudget(m.state)
    ensures OccupiedWithout(ms, ids) == OccupiedWithout(ms, {}) - GbOf(ms, ids)
  {
    if ms != [] { WithoutEligible(ms[1..], ids); }
  }

  lemma {:induction false} EligibleAreCandidates(ms: seq<ModelEntry>, ids: set<string>)
    requires forall m :: m in ms && m.id in ids ==> Eligible(m)
    ensures GbOf(Candidates(ms), ids) == GbOf(ms, ids)
    ensures UniqueIds(ms) ==> UniqueIds(Candidates(ms))
  {
    if ms != [] {
      EligibleAreCandidates(ms[1..], ids);
      var rest := Candidates(ms[1..]);
      assert ([ms[0]] + rest)[1..] == rest;
    }
  }

  lemma {:induction false} CandidatesAreUnique(ms: seq<ModelEntry>)
    requires UniqueIds(ms)
    ensures UniqueIds(LruSort(Candidates(ms)))
  {
    EligibleAreCandidates(ms, {});
    SortFacts(Candidates(ms), {});
  }

  /** The names of a prefix pick out exactly that prefix. */
  lemma {:induction false} PrefixGb(ms: seq<ModelEntry>, n: nat)
    requires n <= |ms| && UniqueIds(ms)
    ensures GbOf(ms, IdSet(ms[..n])) == SumGb(ms[..n])
  {
    NoneOf(ms[n..], IdSet(ms[..n])) by {
      forall m | m in ms[n..] ensures m.id !in IdSet(ms[..n]) { UniqueAcross(ms, n, m); }
    }
    GbSplit(ms, n, IdSet(ms[..n]));
    AllOf(ms[..n], IdSet(ms[..n]));
  }

  lemma {:induction false} UniqueAcross(ms: seq<ModelEntry>, n: nat, m: ModelEntry)
    requires n <= |ms| && UniqueIds(ms) && m in ms[n..]
    ensures m.id !in IdSet(ms[..n])
  {
    if n > 0 {
      assert ms[1..][n - 1..] == ms[n..];
      UniqueAcross(ms[1..], n - 1, m);
      assert ms[..n] == [ms[0]] + ms[1..][..n - 1];
    }
  }

  lemma {:induction false} GbSplit(ms: seq<ModelEntry>, n: nat, ids: set<string>)
    requires n <= |ms|
    ensures GbOf(ms, ids) == GbOf(ms[..n], ids) + GbOf(ms[n..], ids)
  {
    if n == 0 {
      assert ms[..0] == [] && ms[0..] == ms;
    } else {
      GbSplit(ms[1..], n - 1, ids);
      assert ms[..n][1..] == ms[1..][..n - 1];
      assert ms[1..][n - 1..] == ms[n..];
    }
  }

  lemma {:induction false} NoneOf(ms: seq<ModelEntry>, ids: set<string>)
    requires forall m :: m in ms ==> m.id !in ids
    ensures GbOf(ms, ids) == 0.0
  {
    if ms != [] { NoneOf(ms[1..], ids); }
  }

  lemma {:induction false} AllOf(ms: seq<ModelEntry>, ids: set<string>)
    requires forall m :: m in ms ==> m.id in ids
    ensures GbOf(ms, ids) == SumGb(ms)
  {
    if ms != [] { AllOf(ms[1..], ids); }
  }

  lemma {:induction false} SubsetAtMostAll(ms: seq<ModelEntry>, ids: set<string>)
    requires forall m :: m in ms ==> m.memoryGb >= 0.0
    ensures GbOf(ms, ids) <= SumGb(ms)
  {
    if ms != [] { SubsetAtMostAll(ms[1..], ids); }
  }

  /** `Choose` stops as soon as it can: it covers the shortfall or has taken everything, and one fewer would not do. */
  lemma {:induction false} ChooseFacts(sorted: seq<ModelEntry>, freedGb: real, shortfallGb: real)
    ensures var c := Choose(sorted, freedGb, shortfallGb);
            && (freedGb + SumGb(c) + CAPACITY_EPSILON_GB >= shortfallGb || c == sorted)
            && (c != [] ==> freedGb + SumGb(c[..|c| - 1]) + CAPACITY_EPSILON_GB < shortfallGb)
  {
    if sorted != [] && freedGb + CAPACITY_EPSILON_GB < shortfallGb {
      var gb := sorted[0].memoryGb;
      ChooseFacts(sorted[1..], freedGb + gb, shortfallGb);
      var rest := Choose(sorted[1..], freedGb + gb, shortfallGb);
      assert sorted == [sorted[0]] + sorted[1..];
      SumOneMore(sorted[0], rest);
    }
  }

  lemma SumOneMore(first: ModelEntry, rest: seq<ModelEntry>)
    ensures SumGb([first] + rest) == first.memoryGb + SumGb(rest)
    ensures var all := [first] + rest;
            SumGb(all[..|all| - 1]) == if rest == [] then 0.0 else first.memoryGb + SumGb(rest[..|rest| - 1])
  {
    var all := [first] + rest;
    assert all[1..] == rest;
    if rest != [] {
      assert all[..|all| - 1][1..] == rest[..|rest| - 1];
    }
  }

  /** What unloading the first `n` candidates leaves. */
  lemma PrefixFrees(ms: seq<ModelEntry>, n: nat)
    requires UniqueIds(ms) && n <= |LruSort(Candidates(ms))|
    ensures var prefix := LruSort(Candidates(ms))[..n];
            OccupiedWithout(ms, IdSet(prefix)) == OccupiedWithout(ms, {}) - SumGb(prefix)
  {
    var sorted := LruSort(Candidates(ms));
    var ids := IdSet(sorted[..n]);
    forall m | m in ms && m.id in ids ensures Eligible(m) {
      var c :| c in sorted[..n] && c.id == m.id;
      assert c in sorted;
      SameIdSameEntry(ms, c, m);
    }
    WithoutEligible(ms, ids);
    EligibleAreCandidates(ms, ids);
    SortFacts(Candidates(ms), ids);
    CandidatesAreUnique(ms);
    PrefixGb(sorted, n);
  }

  lemma {:induction false} SameIdSameEntry(ms: seq<ModelEntry>, a: ModelEntry, b: ModelEntry)
    requires UniqueIds(ms) && a in ms && b in ms && a.id == b.id
    ensures a == b
  {
    if a in ms[1..] && b in ms[1..] { SameIdSameEntry(ms[1..], a, b); }
  }

  /** `gone` frees enough for the request. */
  predicate Suffices(state: Snapshot, need: ModelReq, gone: set<string>) {
    OccupiedWithout(state.models, gone) + need.memoryGb <= state.budgetGb + 0.000001
  }

  predicate OnlyEligible(ms: seq<ModelEntry>, gone: set<string>) {
    forall m :: m in ms && m.id in gone ==>
      (m.state.Ready? || m.state.Error?) && !m.pinned && m.inflight == 0 && m.memoryGb > 0.0
  }

  predicate PlanApplies(state: Snapshot, need: ModelReq) {
    ValidCapacities(state, need) && UniqueIds(state.models) && !Names(state.models, need.id)
  }

  /**
   * The victims a plan may name: eligible models, each once, least recently used
   * first and before every eligible model that is spared, sufficient, and not
   * sufficient without the last.
   */
  predicate IsShortestLruPrefix(state: Snapshot, need: ModelReq, chosen: seq<ModelEntry>) {
    && chosen != []
    && UniqueIds(chosen) && SortedByUse(chosen)
    && (forall m :: m in chosen ==> m in state.models && Eligible(m))
    && SparesLaterUse(state.models, chosen)
    && Suffices(state, need, IdSet(chosen))
            && !Suffices(state, need, IdSet(chosen[..|chosen| - 1]))
  }

  predicate SparesLaterUse(ms: seq<ModelEntry>, chosen: seq<ModelEntry>) {
    forall v, m :: v in chosen && m in ms && Eligible(m) && m !in chosen ==> v.lastUsedSeq <= m.lastUsedSeq
  }

  lemma {:induction false} UniquePrefix(ms: seq<ModelEntry>, n: nat)
    requires UniqueIds(ms) && n <= |ms|
    ensures UniqueIds(ms[..n])
  {
    if n > 0 {
      UniquePrefix(ms[1..], n - 1);
      assert ms[..n][1..] == ms[1..][..n - 1];
    }
  }

  lemma PrefixSparesLaterUse(ms: seq<ModelEntry>, n: nat)
    requires n <= |LruSort(Candidates(ms))|
    ensures SparesLaterUse(ms, LruSort(Candidates(ms))[..n])
  {
    var sorted := LruSort(Candidates(ms));
    SortFacts(Candidates(ms), {});
    forall v, m | v in sorted[..n] && m in ms && Eligible(m) && m !in sorted[..n]
      ensures v.lastUsedSeq <= m.lastUsedSeq
    {
      var i :| 0 <= i < n && sorted[i] == v;
      assert m in sorted;
      var j :| 0 <= j < |sorted| && sorted[j] == m;
      forall k | 0 <= k < n ensures sorted[k] != m {
        assert sorted[..n][k] == sorted[k];
      }
    }
  }

  /** The first `n` candidates are enough exactly when what they hold covers the shortfall. */
  lemma PrefixSufficesWhen(state: Snapshot, need: ModelReq, n: nat)
    requires PlanApplies(state, need) && n <= |LruSort(Candidates(state.models))|
    ensures var prefix := LruSort(Candidates(state.models))[..n];
            Suffices(state, need, IdSet(prefix)) <==> SumGb(prefix) + CAPACITY_EPSILON_GB >= ShortfallGb(state, need)
  {
    PrefixFrees(state.models, n);
  }

  lemma ShortestPrefix(state: Snapshot, need: ModelReq, n: nat)
    requires PlanApplies(state, need) && 0 < n <= |LruSort(Candidates(state.models))|
    requires var sorted := LruSort(Candidates(state.models));
             SumGb(sorted[..n - 1]) + CAPACITY_EPSILON_GB < ShortfallGb(state, need)
             <= SumGb(sorted[..n]) + CAPACITY_EPSILON_GB
    ensures var chosen := LruSort(Candidates(state.models))[..n];
            Suffices(state, need, IdSet(chosen)) && !Suffices(state, need, IdSet(chosen[..n - 1]))
  {
    var sorted := LruSort(Candidates(state.models));
    assert sorted[..n][..n - 1] == sorted[..n - 1];
    PrefixSufficesWhen(state, need, n);
    PrefixSufficesWhen(state, need, n - 1);
  }

  lemma ChosenSuffices(state: Snapshot, need: ModelReq)
    requires PlanApplies(state, need)
    requires ShortfallGb(state, need) > CAPACITY_EPSILON_GB
    requires SumGb(Chosen(state, need)) + CAPACITY_EPSILON_GB >= ShortfallGb(state, need)
    ensures var chosen := Chosen(state, need);
            chosen != [] && Suffices(state, need, IdSet(chosen))
            && !Suffices(state, need, IdSet(chosen[..|chosen| - 1]))
  {
    var sorted := LruSort(Candidates(state.models));
    var n := |Chosen(state, need)|;
    ChooseFacts(sorted, 0.0, ShortfallGb(state, need));
    assert Chosen(state, need) == sorted[..n];
    assert sorted[..n][..n - 1] == sorted[..n - 1];
    ShortestPrefix(state, need, n);
  }

  lemma PrefixIsEligibleLru(ms: seq<ModelEntry>, n: nat)
    requires UniqueIds(ms) && n <= |LruSort(Candidates(ms))|
    ensures var prefix := LruSort(Candidates(ms))[..n];
            && UniqueIds(prefix) && SortedByUse(prefix) && SparesLaterUse(ms, prefix)
            && forall m :: m in prefix ==> m in ms && Eligible(m)
  {
    var sorted := LruSort(Candidates(ms));
    SortFacts(Candidates(ms), {});
    CandidatesAreUnique(ms);
    UniquePrefix(sorted, n);
    PrefixSparesLaterUse(ms, n);
    forall m | m in sorted[..n] ensures m in ms && Eligible(m) {
      assert m in sorted;
    }
  }

  lemma ChosenIsShortestLruPrefix(state: Snapshot, need: ModelReq)
    requires PlanApplies(state, need)
    requires ShortfallGb(state, need) > CAPACITY_EPSILON_GB
    requires SumGb(Chosen(state, need)) + CAPACITY_EPSILON_GB >= ShortfallGb(state, need)
    ensures IsShortestLruPrefix(state, need, Chosen(state, need))
  {
    ChosenSuffices(state, need);
    var n := |Chosen(state, need)|;
    assert Chosen(state, need) == LruSort(Candidates(state.models))[..n];
    PrefixIsEligibleLru(state.models, n);
  }

  /** Amounts below zero, and a snapshot that already holds the requested model, are refused as such. */
  lemma BadInputsAreRefused(state: Snapshot, need: ModelReq)
    ensures PlanEviction(state, need) == Failure(InvalidCapacity)
            <==> || state.budgetGb < 0.0 || need.memoryGb < 0.0
                 || exists m :: m in state.models && m.memoryGb < 0.0
    ensures PlanEviction(state, need) == Failure(SnapshotContainsRequestedModel(need.id))
            <==> ValidCapacities(state, need) && exists m :: m in state.models && m.id == need.id
  {
    if m :| m in state.models && m.memoryGb < 0.0 {
      var i :| 0 <= i < |state.models| && state.models[i] == m;
      assert state.models[i].memoryGb < 0.0;
    }
    if m :| m in state.models && m.id == need.id {
      var i :| 0 <= i < |state.models| && state.models[i] == m;
      assert state.models[i].id == need.id;
    }
    assert forall i :: 0 <= i < |state.models| ==> state.models[i] in state.models;
  }

  /** Soundness and minimality: evict nothing exactly when nothing need go, and otherwise no more than must. */
  lemma PlanIsSoundAndMinimal(state: Snapshot, need: ModelReq)
    requires PlanApplies(state, need)
    ensures PlanEviction(state, need) == Success(NotNeeded) <==> Suffices(state, need, {})
    ensures PlanEviction(state, need).Success? && PlanEviction(state, need).value.Evict? ==>
              && PlanEviction(state, need).value.victims == IdsOf(Chosen(state, need))
              && IsShortestLruPrefix(state, need, Chosen(state, need))
  {
    var plan := PlanEviction(state, need);
    if plan.Success? && plan.value.Evict? {
      ChosenIsShortestLruPrefix(state, need);
    }
  }

  lemma InsufficientMeansHopeless(state: Snapshot, need: ModelReq, gone: set<string>)
    requires PlanApplies(state, need)
    requires SumGb(Chosen(state, need)) + CAPACITY_EPSILON_GB < ShortfallGb(state, need)
    requires OnlyEligible(state.models, gone)
    ensures !Suffices(state, need, gone)
  {
    var ms := state.models;
    var sorted := LruSort(Candidates(ms));
    ChooseFacts(sorted, 0.0, ShortfallGb(state, need));
    WithoutEligible(ms, gone);
    EligibleAreCandidates(ms, gone);
    SortFacts(Candidates(ms), gone);
    SubsetAtMostAll(sorted, gone);
  }

  lemma ChosenAreOnlyEligible(state: Snapshot, need: ModelReq)
    requires PlanApplies(state, need)
    ensures OnlyEligible(state.models, IdSet(Chosen(state, need)))
  {
    var ms, chosen := state.models, Chosen(state, need);
    var sorted := LruSort(Candidates(ms));
    forall m | m in ms && m.id in IdSet(chosen) ensures Eligible(m) {
      var c :| c in chosen && c.id == m.id;
      assert c in sorted;
      SameIdSameEntry(ms, c, m);
    }
  }

  /** Completeness: a request is turned away exactly when no set of eligible models would make room. */
  lemma PlanIsComplete(state: Snapshot, need: ModelReq)
    requires PlanApplies(state, need)
    ensures PlanEviction(state, need).Failure?
            <==> forall gone :: OnlyEligible(state.models, gone) ==> !Suffices(state, need, gone)
    ensures PlanEviction(state, need).Failure? ==> PlanEviction(state, need).error.InsufficientCapacity?
  {
    var plan := PlanEviction(state, need);
    if plan.Failure? {
      forall gone | OnlyEligible(state.models, gone) ensures !Suffices(state, need, gone) {
        InsufficientMeansHopeless(state, need, gone);
      }
    } else {
      PlanIsSoundAndMinimal(state, need);
      ChosenAreOnlyEligible(state, need);
      var gone := if plan.value.NotNeeded? then {} else IdSet(Chosen(state, need));
      assert OnlyEligible(state.models, gone) && Suffices(state, need, gone);
    }
  }
}
