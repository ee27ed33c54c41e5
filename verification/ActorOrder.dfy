/**
 * How far an admission depends on the order in which the map of slots is walked:
 * not at all while no two evictable models share a stamp, and with ties it does.
 */
module ActorOrder {
  import opened Wrappers
  import opened Eviction
  import opened Actor
  import opened ActorInvariant
  import opened ActorSums
  import opened ActorCapacity

  /** No two models a plan may choose from were last used at the same moment. */
  predicate DistinctStamps(st: State, id: string) {
    forall j, k :: j in st.models && k in st.models && j != k && j != id && k != id
                   && Evictable(st.models[j]) && Evictable(st.models[k])
                   ==> st.models[j].lastUsedSeq != st.models[k].lastUsedSeq
  }

  predicate StrictlySorted(ms: seq<ModelEntry>) {
    forall i, j :: 0 <= i < j < |ms| ==> ms[i].lastUsedSeq < ms[j].lastUsedSeq
  }

  lemma MembersNeedRoom(a: seq<ModelEntry>, b: seq<ModelEntry>)
    requires forall m :: m in b ==> m in a
    ensures b != [] ==> a != []
  {
    if b != [] {
      assert b[0] in b;
    }
  }

  /** A strict order leaves one way to list a set of entries. */
  lemma {:induction false} SortedListsAgree(a: seq<ModelEntry>, b: seq<ModelEntry>)
    requires StrictlySorted(a) && StrictlySorted(b) && forall m :: m in a <==> m in b
    ensures a == b
  {
    if a == [] {
      MembersNeedRoom(a, b);
    } else {
      assert a[0] in b;
      assert b[0] in a;
      assert a[0] == b[0];
      TailsAgree(a, b);
      SortedListsAgree(a[1..], b[1..]);
      assert a == [a[0]] + a[1..] && b == [b[0]] + b[1..];
    }
  }

  lemma TailsAgree(a: seq<ModelEntry>, b: seq<ModelEntry>)
    requires StrictlySorted(a) && StrictlySorted(b) && (forall m :: m in a <==> m in b)
    requires a != [] && b != [] && a[0] == b[0]
    ensures forall m :: m in a[1..] <==> m in b[1..]
  {
    forall m ensures m in a[1..] <==> m in b[1..] {
      InTail(a, m);
      InTail(b, m);
    }
  }

  lemma InTail(a: seq<ModelEntry>, m: ModelEntry)
    requires StrictlySorted(a) && a != []
    ensures m in a[1..] <==> m in a && m != a[0]
  {
    if m in a[1..] {
      var i :| 0 <= i < |a| - 1 && a[1..][i] == m;
      assert a[i + 1] == m;
    }
    if m in a && m != a[0] {
      var i :| 0 <= i < |a| && a[i] == m;
      assert a[1..][i - 1] == m;
    }
  }

  lemma CandidatesAreStrict(st: State, id: string, order: seq<string>)
    requires Inv(st) && multiset(order) == multiset(st.keys) && DistinctStamps(st, id)
    ensures StrictlySorted(LruSort(Candidates(Entries(order, st.models, id))))
  {
    OrderIsAnEnumeration(st, order);
    EntriesFacts(order, st.models, id);
    var sorted := LruSort(Candidates(Entries(order, st.models, id)));
    SortFacts(Candidates(Entries(order, st.models, id)), {});
    CandidatesAreUnique(Entries(order, st.models, id));
    DistinctIds(sorted);
    forall i, j | 0 <= i < j < |sorted| ensures sorted[i].lastUsedSeq < sorted[j].lastUsedSeq {
      assert sorted[i] in sorted && sorted[j] in sorted;
      EligibleIsEvictable(st, id, order, sorted[i]);
      EligibleIsEvictable(st, id, order, sorted[j]);
      assert sorted[i].lastUsedSeq == st.models[sorted[i].id].lastUsedSeq;
      assert sorted[j].lastUsedSeq == st.models[sorted[j].id].lastUsedSeq;
    }
  }

  lemma SameEntries(st: State, id: string, a: seq<string>, b: seq<string>)
    requires Inv(st) && multiset(a) == multiset(st.keys) && multiset(b) == multiset(st.keys)
    ensures forall m :: m in Entries(a, st.models, id) <==> m in Entries(b, st.models, id)
  {
    OrderIsAnEnumeration(st, a);
    OrderIsAnEnumeration(st, b);
    EntriesFacts(a, st.models, id);
    EntriesFacts(b, st.models, id);
  }

  lemma SameCandidates(st: State, id: string, a: seq<string>, b: seq<string>)
    requires Inv(st) && DistinctStamps(st, id) && multiset(a) == multiset(st.keys) && multiset(b) == multiset(st.keys)
    ensures LruSort(Candidates(Entries(a, st.models, id))) == LruSort(Candidates(Entries(b, st.models, id)))
  {
    CandidatesAreStrict(st, id, a);
    CandidatesAreStrict(st, id, b);
    SameEntries(st, id, a, b);
    SortedListsAgree(LruSort(Candidates(Entries(a, st.models, id))), LruSort(Candidates(Entries(b, st.models, id))));
  }

  /** Two walks over the slots plan the same load when no two evictable stamps are equal. */
  lemma PlanInAnyOrder(st: State, id: string, gb: real, a: seq<string>, b: seq<string>)
    requires Inv(st) && st.poisoned.None? && gb >= 0.0 && DistinctStamps(st, id)
    requires multiset(a) == multiset(st.keys) && multiset(b) == multiset(st.keys)
    ensures PlanLoad(st, id, gb, a) == PlanLoad(st, id, gb, b)
  {
    if EffectiveReservedGb(st, {}) <= st.settings.budgetGb {
      RequestIsPlannable(st, id, gb, a);
      RequestIsPlannable(st, id, gb, b);
      SnapshotOccupies(a, st.models, id, {});
      SnapshotOccupies(b, st.models, id, {});
      SumsInAnyOrder(a, b, st.models, st.covered, {id} + {});
      SameCandidates(st, id, a, b);
      SamePlan(RequestSnapshot(st, id, a), RequestSnapshot(st, id, b), ModelReq(id, RequestGb(st, id, gb)));
    }
    PlannedFromEviction(st, id, gb, a, b);
  }

  /** The rest of a load's plan reads the walk only through the eviction it chose. */
  lemma PlannedFromEviction(st: State, id: string, gb: real, a: seq<string>, b: seq<string>)
    requires var need := ModelReq(id, RequestGb(st, id, gb));
             EffectiveReservedGb(st, {}) <= st.settings.budgetGb
             ==> PlanEviction(RequestSnapshot(st, id, a), need) == PlanEviction(RequestSnapshot(st, id, b), need)
    ensures PlanLoad(st, id, gb, a) == PlanLoad(st, id, gb, b)
  {
  }

  lemma SamePlan(a: Snapshot, b: Snapshot, need: ModelReq)
    requires PlanApplies(a, need) && PlanApplies(b, need) && a.budgetGb == b.budgetGb
    requires OccupiedWithout(a.models, {}) == OccupiedWithout(b.models, {})
    requires LruSort(Candidates(a.models)) == LruSort(Candidates(b.models))
    ensures PlanEviction(a, need) == PlanEviction(b, need)
  {
    assert ShortfallGb(a, need) == ShortfallGb(b, need) && Chosen(a, need) == Chosen(b, need);
    PlanFrom(a, need);
    PlanFrom(b, need);
  }

  /** What a plan is made from. */
  lemma PlanFrom(s: Snapshot, need: ModelReq)
    requires PlanApplies(s, need)
    ensures PlanEviction(s, need)
            == if ShortfallGb(s, need) <= CAPACITY_EPSILON_GB then Success(NotNeeded)
               else if SumGb(Chosen(s, need)) + CAPACITY_EPSILON_GB < ShortfallGb(s, need) then
                 Failure(InsufficientCapacity(need.id, ShortfallGb(s, need), s.budgetGb,
                                              SumGb(LruSort(Candidates(s.models)))))
               else Success(Evict(IdsOf(Chosen(s, need))))
  {
  }

  /** What would have to go, and whether it would be enough, is the same on every walk. */
  lemma SufficesInAnyOrder(st: State, id: string, gb: real, a: seq<string>, b: seq<string>, gone: set<string>)
    requires Inv(st) && multiset(a) == multiset(st.keys) && multiset(b) == multiset(st.keys)
    ensures var need := ModelReq(id, RequestGb(st, id, gb));
            && (OnlyEligible(Entries(a, st.models, id), gone) <==> OnlyEligible(Entries(b, st.models, id), gone))
            && (Suffices(RequestSnapshot(st, id, a), need, gone) <==> Suffices(RequestSnapshot(st, id, b), need, gone))
  {
    SameEntries(st, id, a, b);
    SnapshotOccupies(a, st.models, id, gone);
    SnapshotOccupies(b, st.models, id, gone);
    SumsInAnyOrder(a, b, st.models, st.covered, {id} + gone);
  }

  /** Ties or not, a request is turned away on one walk exactly when it is on every other. */
  lemma RefusalInAnyOrder(st: State, id: string, gb: real, a: seq<string>, b: seq<string>)
    requires Inv(st) && st.poisoned.None? && gb >= 0.0
    requires multiset(a) == multiset(st.keys) && multiset(b) == multiset(st.keys)
    requires EffectiveReservedGb(st, {}) <= st.settings.budgetGb
    ensures var need := ModelReq(id, RequestGb(st, id, gb));
            PlanEviction(RequestSnapshot(st, id, a), need).Failure?
            <==> PlanEviction(RequestSnapshot(st, id, b), need).Failure?
  {
    var need := ModelReq(id, RequestGb(st, id, gb));
    RequestIsPlannable(st, id, gb, a);
    RequestIsPlannable(st, id, gb, b);
    PlanIsComplete(RequestSnapshot(st, id, a), need);
    PlanIsComplete(RequestSnapshot(st, id, b), need);
    forall gone: set<string> ensures
      && (OnlyEligible(Entries(a, st.models, id), gone) <==> OnlyEligible(Entries(b, st.models, id), gone))
      && (Suffices(RequestSnapshot(st, id, a), need, gone) <==> Suffices(RequestSnapshot(st, id, b), need, gone))
    {
      SufficesInAnyOrder(st, id, gb, a, b, gone);
    }
  }

  // ------------------------------------------------------------------- a tie

  const IDLE_A := ModelEntry("a", 0.5, Error, false, 0, 0)
  const IDLE_B := ModelEntry("b", 0.5, Error, false, 0, 0)

  /** Two models that never became ready carry the same stamp: which one goes is a matter of the walk. */
  lemma TiesFollowTheWalk()
    ensures PlanEviction(Snapshot(1.0, [IDLE_A, IDLE_B]), ModelReq("c", 0.5)) == Success(Evict(["a"]))
    ensures PlanEviction(Snapshot(1.0, [IDLE_B, IDLE_A]), ModelReq("c", 0.5)) == Success(Evict(["b"]))
  {
    FirstOfTwoGoes(IDLE_A, IDLE_B, 1.0, ModelReq("c", 0.5));
    FirstOfTwoGoes(IDLE_B, IDLE_A, 1.0, ModelReq("c", 0.5));
  }

  /** Of two candidates with one stamp the first on the walk goes, if it is large enough. */
  lemma FirstOfTwoGoes(x: ModelEntry, y: ModelEntry, budgetGb: real, need: ModelReq)
    requires Eligible(x) && Eligible(y) && x.lastUsedSeq == y.lastUsedSeq
    requires x.id != y.id && x.id != need.id && y.id != need.id
    requires budgetGb >= 0.0 && need.memoryGb >= 0.0
    requires CAPACITY_EPSILON_GB < need.memoryGb - (budgetGb - (x.memoryGb + y.memoryGb)) <= x.memoryGb
    ensures PlanEviction(Snapshot(budgetGb, [x, y]), need) == Success(Evict([x.id]))
  {
    var ms, s := [x, y], Snapshot(budgetGb, [x, y]);
    assert ms[1..] == [y] && [y][1..] == [] && [x][1..] == [];
    assert Candidates([y]) == [y] && Candidates(ms) == ms;
    assert LruSort([y]) == [y];
    assert LruSort(ms) == ms;
    assert OccupiedWithout([y], {}) == y.memoryGb;
    assert OccupiedWithout(ms, {}) == x.memoryGb + y.memoryGb;
    var shortfall := ShortfallGb(s, need);
    assert SumGb([x]) == x.memoryGb;
    assert Choose([y], x.memoryGb, shortfall) == [];
    assert Choose(ms, 0.0, shortfall) == [x];
    assert IdsOf([x]) == [x.id];
    assert Chosen(s, need) == [x];
    PlanFrom(s, need);
  }
}
