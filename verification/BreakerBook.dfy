/**
 * A book of breakers, one per credential class and key. A request that needs two
 * of them claims both or neither.
 */
module BreakerBooks {
  import opened Wrappers
  import opened Breakers

  datatype Key<K> = Key(class_: CredentialClass, name: K)
  type Gates<K(==)> = map<Key<K>, BreakerState>

  /** The book as a value: its gates and the next issuer number in the process. */
  datatype Book<K(==)> = Book(gates: Gates<K>, nextIssuer: nat)

  datatype PairReject = Duplicate | Gate(first: Admission, second: Admission)

  /** Entries outside `named` are the same before and after, and none appears. */
  predicate OthersUntouched<K(==)>(before: Gates<K>, after: Gates<K>, named: set<Key<K>>) {
    before - named == after - named
  }

  function BookReadiness<K(==)>(b: Book<K>, k: Key<K>, now: U64): Admission {
    if k in b.gates then Readiness(b.gates[k], now) else Allowed
  }

  /** The entry a request works on, made on demand. */
  function WithEntry<K(==)>(b: Book<K>, k: Key<K>): (r: Book<K>)
    ensures k in r.gates
  {
    if k in b.gates then b else Book(b.gates[k := Fresh(b.nextIssuer, k.class_)], b.nextIssuer + 1)
  }

  /** One admission: the entry is made if missing, then asked. */
  function BookAdmit<K(==)>(b: Book<K>, k: Key<K>, now: U64): (Book<K>, Admit) {
    Ask(WithEntry(b, k), k, now)
  }

  function Ask<K(==)>(b: Book<K>, k: Key<K>, now: U64): (Book<K>, Admit)
    requires k in b.gates
  {
    var (after, admit) := Admitting(b.gates[k], now);
    (b.(gates := b.gates[k := after]), admit)
  }

  /** A report reaches the entry of its key; a missing one is not made for it. */
  function Told<K(==)>(b: Book<K>, k: Key<K>, report: BreakerState -> BreakerState): Book<K> {
    if k in b.gates then b.(gates := b.gates[k := report(b.gates[k])]) else b
  }

  /** Two admissions one after the other. */
  function AdmitBoth<K(==)>(b: Book<K>, first: Key<K>, second: Key<K>, now: U64): (Book<K>, (Admit, Admit)) {
    var (one, a) := BookAdmit(b, first, now);
    var (two, c) := BookAdmit(one, second, now);
    (two, (a, c))
  }

  lemma BookReadinessPredictsAdmit<K>(b: Book<K>, k: Key<K>, now: U64)
    ensures BookAdmit(b, k, now).1.admission == BookReadiness(b, k, now)
    ensures BookAdmit(b, k, now).1.ticket.Some? <==> BookReadiness(b, k, now).Admitted()
  {
    ReadinessPredictsAdmit(WithEntry(b, k).gates[k], now);
  }

  lemma EntriesMayComeFirst<K>(b: Book<K>, first: Key<K>, second: Key<K>, now: U64)
    requires first != second
    ensures var prepared := WithEntry(WithEntry(b, first), second);
            var (one, a) := Ask(prepared, first, now);
            var (two, c) := Ask(one, second, now);
            (two, (a, c)) == AdmitBoth(b, first, second, now)
  {
    var prepared := WithEntry(WithEntry(b, first), second);
    var one := Ask(prepared, first, now).0;
    var oneInOrder := BookAdmit(b, first, now).0;
    assert WithEntry(oneInOrder, second) == one;
  }

  lemma PairTouchesOnlyItself<K>(b: Book<K>, first: Key<K>, second: Key<K>, now: U64)
    requires first != second && BookReadiness(b, first, now).Admitted() && BookReadiness(b, second, now).Admitted()
    ensures var (after, admits) := AdmitBoth(b, first, second, now);
            && admits.0.ticket.Some? && admits.1.ticket.Some?
            && admits.0.admission == BookReadiness(b, first, now) && admits.1.admission == BookReadiness(b, second, now)
            && OthersUntouched(b.gates, after.gates, {first, second})
  {
    BookReadinessPredictsAdmit(b, first, now);
    var one := BookAdmit(b, first, now).0;
    BookReadinessPredictsAdmit(one, second, now);
    assert OthersUntouched(b.gates, AdmitBoth(b, first, second, now).0.gates, {first, second});
  }

  class BreakerBook<K(==)> {
    var breakers: map<Key<K>, Breaker>
    var nextIssuer: nat

    ghost predicate Valid()
      reads this, breakers.Values
    {
      && (forall k :: k in breakers ==> breakers[k].class_ == k.class_)
      && (forall j, k :: j in breakers && k in breakers && j != k ==> breakers[j] != breakers[k])
    }

    ghost function View(): Book<K>
      reads this, breakers.Values
    {
      Book(map k | k in breakers :: breakers[k].View(), nextIssuer)
    }

    constructor ()
      ensures Valid() && View() == Book(map[], 0) && fresh(breakers.Values)
    {
      breakers, nextIssuer := map[], 0;
    }

    method CheckReadiness(k: Key<K>, now: U64) returns (r: Admission)
      requires Valid()
      ensures r == BookReadiness(View(), k, now)
    {
      if k in breakers {
        r := breakers[k].CheckReadiness(now);
      } else {
        r := Allowed;
      }
    }

    method EnsureEntry(k: Key<K>)
      requires Valid()
      modifies this
      ensures Valid() && View() == WithEntry(old(View()), k)
      ensures k in breakers && fresh(breakers.Values - old(breakers.Values))
      ensures forall j :: j in old(breakers) ==> j in breakers && breakers[j] == old(breakers[j])
    {
      if k !in breakers {
        ghost var before := View();
        var made := new Breaker(nextIssuer, k.class_);
        breakers, nextIssuer := breakers[k := made], nextIssuer + 1;
        assert View().gates == before.gates[k := made.View()];
      }
    }

    method EnsureBoth(first: Key<K>, second: Key<K>)
      requires Valid()
      modifies this
      ensures Valid() && View() == WithEntry(WithEntry(old(View()), first), second)
      ensures first in breakers && second in breakers && fresh(breakers.Values - old(breakers.Values))
    {
      EnsureEntry(first);
      EnsureEntry(second);
    }

    /** Asks an entry that is there; only its own gate can change. */
    method AskEntry(k: Key<K>, now: U64) returns (r: Admit)
      requires Valid() && k in breakers
      modifies breakers[k]
      ensures Valid()
      ensures breakers == old(breakers) && nextIssuer == old(nextIssuer)
      ensures (View(), r) == Ask(old(View()), k, now)
    {
      ghost var before := View();
      r := breakers[k].RequestAdmission(now);
      assert View().gates == before.gates[k := breakers[k].View()];
    }

    method RequestAdmission(k: Key<K>, now: U64) returns (r: Admit)
      requires Valid()
      modifies this, breakers.Values
      ensures Valid() && fresh(breakers.Values - old(breakers.Values))
      ensures (View(), r) == BookAdmit(old(View()), k, now)
    {
      EnsureEntry(k);
      r := AskEntry(k, now);
    }

    /**
     * Claims two gates or neither. A refusal leaves the book as it was; a success is
     * exactly the two admissions one after the other, each with its ticket.
     */
    method AdmitPair(first: Key<K>, second: Key<K>, now: U64) returns (r: Result<(Admit, Admit), PairReject>)
      requires Valid()
      modifies this, breakers.Values
      ensures Valid() && fresh(breakers.Values - old(breakers.Values))
      ensures r.Failure? ==> View() == old(View()) && breakers == old(breakers)
      ensures r == Failure(Duplicate) <==> first == second
      ensures r.Success? <==> first != second && BookReadiness(old(View()), first, now).Admitted()
                              && BookReadiness(old(View()), second, now).Admitted()
      ensures r.Failure? && r.error.Gate?
              ==> r.error == Gate(BookReadiness(old(View()), first, now), BookReadiness(old(View()), second, now))
      ensures r.Success? ==> (View(), r.value) == AdmitBoth(old(View()), first, second, now)
      ensures r.Success? ==> r.value.0.ticket.Some? && r.value.1.ticket.Some?
      ensures OthersUntouched(old(View()).gates, View().gates, {first, second})
    {
      if first == second {
        return Failure(Duplicate);
      }
      var one := CheckReadiness(first, now);
      var two := CheckReadiness(second, now);
      if !one.Admitted() || !two.Admitted() {
        return Failure(Gate(one, two));
      }
      BookReadinessPredictsAdmit(View(), first, now);
      PairTouchesOnlyItself(View(), first, second, now);
      var both := ClaimBoth(first, second, now);
      return Success(both);
    }

    /** Both entries are made before either is asked. */
    method ClaimBoth(first: Key<K>, second: Key<K>, now: U64) returns (r: (Admit, Admit))
      requires Valid() && first != second
      modifies this, breakers.Values
      ensures Valid() && fresh(breakers.Values - old(breakers.Values))
      ensures (View(), r) == AdmitBoth(old(View()), first, second, now)
    {
      ghost var before := View();
      EnsureBoth(first, second);
      ghost var prepared := View();
      var a := AskEntry(first, now);
      ghost var between := View();
      assert between == Ask(prepared, first, now).0;
      var c := AskEntry(second, now);
      assert View() == Ask(between, second, now).0;
      EntriesMayComeFirst(before, first, second, now);
      r := (a, c);
    }

    method ReportSuccess(k: Key<K>, t: Ticket)
      requires Valid()
      modifies breakers.Values
      ensures Valid() && breakers == old(breakers)
      ensures View() == Told(old(View()), k, gate => OnSuccess(gate, t))
    {
      if k in breakers {
        ghost var before := View();
        breakers[k].ReportSuccess(t);
        assert View().gates == before.gates[k := breakers[k].View()];
      }
    }

    method ReportFailure(k: Key<K>, t: Ticket, now: U64)
      requires Valid()
      modifies breakers.Values
      ensures Valid() && breakers == old(breakers)
      ensures View() == Told(old(View()), k, gate => OnFailure(gate, t, now))
    {
      if k in breakers {
        ghost var before := View();
        breakers[k].ReportFailure(t, now);
        assert View().gates == before.gates[k := breakers[k].View()];
      }
    }

    method ReportFailureWithRetryAfter(k: Key<K>, t: Ticket, now: U64, ms: Option<U64>)
      requires Valid()
      modifies breakers.Values
      ensures Valid() && breakers == old(breakers)
      ensures View() == Told(old(View()), k, gate => OnFailureWithRetryAfter(gate, t, now, ms))
    {
      if k in breakers {
        ghost var before := View();
        breakers[k].ReportFailureWithRetryAfter(t, now, ms);
        assert View().gates == before.gates[k := breakers[k].View()];
      }
    }

    method ReportRetryAfter(k: Key<K>, t: Ticket, now: U64, ms: U64)
      requires Valid()
      modifies breakers.Values
      ensures Valid() && breakers == old(breakers)
      ensures View() == Told(old(View()), k, gate => OnRetryAfter(gate, t, now, ms))
    {
      if k in breakers {
        ghost var before := View();
        breakers[k].ReportRetryAfter(t, now, ms);
        assert View().gates == before.gates[k := breakers[k].View()];
      }
    }
  }
}
