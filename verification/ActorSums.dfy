/**
 * The actor sums over a map of slots in whatever order the map yields them. Here:
 * none of its four sums depends on that order.
 */
module ActorSums {
  import opened Wrappers
  import opened Backend
  import opened CapacityUnits
  import opened Eviction
  import opened Actor
  import L = CapacityLedger

  function Sum(keys: seq<string>, term: string -> real): real {
    if keys == [] then 0.0 else term(keys[0]) + Sum(keys[1..], term)
  }

  lemma {:induction false} SumSplits(a: seq<string>, b: seq<string>, term: string -> real)
    ensures Sum(a + b, term) == Sum(a, term) + Sum(b, term)
  {
    if a == [] {
      assert a + b == b;
    } else {
      assert (a + b)[1..] == a[1..] + b;
      SumSplits(a[1..], b, term);
    }
  }

  lemma RemoveFromBoth(a: seq<string>, b: seq<string>, i: nat)
    requires multiset(a) == multiset(b) && a != [] && i < |b| && b[i] == a[0]
    ensures multiset(a[1..]) == multiset(b[..i] + b[i + 1..])
  {
    assert a == [a[0]] + a[1..];
    assert b == b[..i] + [b[i]] + b[i + 1..];
    assert multiset(a) == multiset{a[0]} + multiset(a[1..]);
    assert multiset(b) == multiset(b[..i]) + multiset{a[0]} + multiset(b[i + 1..]);
    var rest := b[..i] + b[i + 1..];
    assert multiset(rest) == multiset(b[..i]) + multiset(b[i + 1..]);
    assert multiset(a[1..]) == multiset(a) - multiset{a[0]};
    assert multiset(rest) == multiset(b) - multiset{a[0]};
  }

  lemma SumWithout(b: seq<string>, i: nat, term: string -> real)
    requires i < |b|
    ensures Sum(b, term) == term(b[i]) + Sum(b[..i] + b[i + 1..], term)
  {
    var head, one, tail := b[..i], [b[i]], b[i + 1..];
    assert b == head + (one + tail);
    SumSplits(head, one + tail, term);
    SumSplits(one, tail, term);
    SumSplits(head, tail, term);
    assert one[1..] == [];
  }

  lemma {:induction false} SumInAnyOrder(a: seq<string>, b: seq<string>, term: string -> real)
    requires multiset(a) == multiset(b)
    ensures Sum(a, term) == Sum(b, term)
  {
    if a == [] {
      assert |b| == |multiset(b)| == 0;
    } else {
      assert a[0] in multiset(b);
      var i :| 0 <= i < |b| && b[i] == a[0];
      RemoveFromBoth(a, b, i);
      SumInAnyOrder(a[1..], b[..i] + b[i + 1..], term);
      SumWithout(b, i, term);
    }
  }

  // ---------------------------------------------------------- the four sums

  /** Only a model that was never launched, or is known to have stopped, holds nothing. */
  predicate Charged(models: Models, k: string) {
    k in models && models[k].state != Launching && models[k].state != Stopped
  }

  predicate Confirmed(models: Models, covered: map<string, real>, k: string) {
    Charged(models, k) && k in covered && !models[k].loadUnconfirmed
  }

  function OccupiedTerm(models: Models, skip: set<string>): string -> real {
    k => if k !in skip && Charged(models, k) then models[k].memoryGb else 0.0
  }

  function CoveredTerm(models: Models, covered: map<string, real>, skip: set<string>): string -> real {
    k => if k in skip || !Confirmed(models, covered, k) then 0.0
         else if models[k].memoryGb <= covered[k] then models[k].memoryGb
         else covered[k]
  }

  function ChargeTerm(models: Models, skip: set<string>): string -> real {
    k => if k !in skip && Charged(models, k) then models[k].charge as real else 0.0
  }

  /** A credit that does not convert to units. */
  predicate BadCredit(models: Models, covered: map<string, real>, k: string) {
    Confirmed(models, covered, k) && Units(covered[k], Up).Failure?
  }

  function CreditTerm(models: Models, covered: map<string, real>): string -> real {
    k => if !Confirmed(models, covered, k) || BadCredit(models, covered, k) then 0.0
         else if models[k].charge <= Units(covered[k], Up).value then models[k].charge as real
         else Units(covered[k], Up).value as real
  }

  lemma {:induction false} OccupiedIsSum(keys: seq<string>, models: Models, skip: set<string>)
    ensures OccupiedGb(keys, models, skip) == Sum(keys, OccupiedTerm(models, skip))
  {
    if keys != [] { OccupiedIsSum(keys[1..], models, skip); }
  }

  lemma {:induction false} CoveredIsSum(keys: seq<string>, models: Models, covered: map<string, real>,
                                        skip: set<string>)
    ensures CoveredGb(keys, models, covered, skip) == Sum(keys, CoveredTerm(models, covered, skip))
  {
    if keys != [] { CoveredIsSum(keys[1..], models, covered, skip); }
  }

  lemma {:induction false} ChargeIsSum(keys: seq<string>, models: Models, skip: set<string>)
    ensures OccupiedCharge(keys, models, skip) as real == Sum(keys, ChargeTerm(models, skip))
  {
    if keys != [] { ChargeIsSum(keys[1..], models, skip); }
  }

  ghost predicate AllConvert(keys: seq<string>, models: Models, covered: map<string, real>) {
    forall k :: k in keys ==> !BadCredit(models, covered, k)
  }

  lemma ConvertFromFirst(keys: seq<string>, models: Models, covered: map<string, real>)
    requires keys != []
    ensures AllConvert(keys, models, covered)
            <==> !BadCredit(models, covered, keys[0]) && AllConvert(keys[1..], models, covered)
  {
    assert forall k :: k in keys <==> k == keys[0] || k in keys[1..];
  }

  lemma {:induction false} CreditIsSum(keys: seq<string>, models: Models, covered: map<string, real>)
    ensures CoveredCharge(keys, models, covered).Success? <==> AllConvert(keys, models, covered)
    ensures CoveredCharge(keys, models, covered).Success?
            ==> CoveredCharge(keys, models, covered).value as real == Sum(keys, CreditTerm(models, covered))
    ensures CoveredCharge(keys, models, covered).Failure?
            ==> CoveredCharge(keys, models, covered) == Failure(InvalidRequest)
  {
    if keys != [] {
      CreditIsSum(keys[1..], models, covered);
      ConvertFromFirst(keys, models, covered);
    }
  }

  /** Each of the four sums adds one term a model: what it holds, or what of that the last sample counted. */
  lemma SumsAreOfTerms(keys: seq<string>, models: Models, covered: map<string, real>, skip: set<string>)
    ensures OccupiedGb(keys, models, skip) == Sum(keys, OccupiedTerm(models, skip))
    ensures CoveredGb(keys, models, covered, skip) == Sum(keys, CoveredTerm(models, covered, skip))
    ensures OccupiedCharge(keys, models, skip) as real == Sum(keys, ChargeTerm(models, skip))
    ensures CoveredCharge(keys, models, covered)
            == if exists k :: k in keys && BadCredit(models, covered, k) then Failure(InvalidRequest)
               else Success(Sum(keys, CreditTerm(models, covered)).Floor)
  {
    OccupiedIsSum(keys, models, skip);
    CoveredIsSum(keys, models, covered, skip);
    ChargeIsSum(keys, models, skip);
    CreditIsSum(keys, models, covered);
  }

  /** The order in which a map yields its keys does not matter to any sum over them. */
  lemma SumsInAnyOrder(a: seq<string>, b: seq<string>, models: Models, covered: map<string, real>, skip: set<string>)
    requires multiset(a) == multiset(b)
    ensures OccupiedGb(a, models, skip) == OccupiedGb(b, models, skip)
    ensures CoveredGb(a, models, covered, skip) == CoveredGb(b, models, covered, skip)
    ensures OccupiedCharge(a, models, skip) == OccupiedCharge(b, models, skip)
    ensures CoveredCharge(a, models, covered) == CoveredCharge(b, models, covered)
  {
    OccupiedIsSum(a, models, skip);
    OccupiedIsSum(b, models, skip);
    SumInAnyOrder(a, b, OccupiedTerm(models, skip));
    CoveredIsSum(a, models, covered, skip);
    CoveredIsSum(b, models, covered, skip);
    SumInAnyOrder(a, b, CoveredTerm(models, covered, skip));
    ChargeIsSum(a, models, skip);
    ChargeIsSum(b, models, skip);
    SumInAnyOrder(a, b, ChargeTerm(models, skip));
    CreditsInAnyOrder(a, b, models, covered);
  }

  lemma CreditsInAnyOrder(a: seq<string>, b: seq<string>, models: Models, covered: map<string, real>)
    requires multiset(a) == multiset(b)
    ensures CoveredCharge(a, models, covered) == CoveredCharge(b, models, covered)
  {
    CreditIsSum(a, models, covered);
    CreditIsSum(b, models, covered);
    SumInAnyOrder(a, b, CreditTerm(models, covered));
    assert forall k :: k in a <==> k in multiset(a);
    assert forall k :: k in b <==> k in multiset(b);
  }
}
