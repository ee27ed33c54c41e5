/**
 * A book of breakers over whole runs: its entries are told apart by their issuers,
 * so each behaves as if it were alone, whatever tickets are reported under its key.
 */
module BookRuns {
  import opened Wrappers
  import opened Breakers
  import opened BreakerBooks
  import R = BreakerRuns

  datatype Call<K> =
    | Request(key: Key<K>, now: U64)
    | Tell(key: Key<K>, ticket: Ticket, report: R.Report)

  function Do<K(==)>(b: Book<K>, c: Call<K>): Book<K> {
    match c
    case Request(k, now) => BookAdmit(b, k, now).0
    case Tell(k, t, report) => Told(b, k, gate => R.Reporting(gate, t, report))
  }

  function Run<K(==)>(b: Book<K>, calls: seq<Call<K>>): Book<K> {
    if calls == [] then b else Do(Run(b, calls[..|calls| - 1]), calls[|calls| - 1])
  }

  function Empty<K(==)>(first: nat): Book<K> { Book(map[], first) }

  // ---------------------------------------------------------------- issuers

  /** No two entries share an issuer, and no future one will. */
  ghost predicate Distinct<K>(b: Book<K>) {
    && (forall k :: k in b.gates ==> b.gates[k].issuer < b.nextIssuer)
    && (forall j, k :: j in b.gates && k in b.gates && j != k ==> b.gates[j].issuer != b.gates[k].issuer)
  }

  /** Entries are never dropped and keep their issuers. */
  ghost predicate Keeps<K>(b: Book<K>, after: Book<K>) {
    forall k :: k in b.gates ==> k in after.gates && after.gates[k].issuer == b.gates[k].issuer
  }

  lemma EntryKeepsDistinct<K>(b: Book<K>, k: Key<K>)
    requires Distinct(b)
    ensures Distinct(WithEntry(b, k)) && Keeps(b, WithEntry(b, k))
  {
  }

  lemma ReportKeepsIssuer(gate: BreakerState, t: Ticket, report: R.Report)
    ensures R.Reporting(gate, t, report).issuer == gate.issuer
    ensures t.issuer != gate.issuer ==> R.Reporting(gate, t, report) == gate
  {
  }

  lemma OneGateMoves<K>(b: Book<K>, k: Key<K>, gate: BreakerState)
    requires Distinct(b) && k in b.gates && gate.issuer == b.gates[k].issuer
    ensures var after := b.(gates := b.gates[k := gate]); Distinct(after) && Keeps(b, after)
  {
  }

  lemma RequestKeepsDistinct<K>(b: Book<K>, k: Key<K>, now: U64)
    requires Distinct(b)
    ensures var (after, admit) := BookAdmit(b, k, now);
            && Distinct(after) && Keeps(b, after) && k in after.gates
            && (admit.ticket.Some? ==> admit.ticket.value.issuer == after.gates[k].issuer)
  {
    EntryKeepsDistinct(b, k);
    OneGateMoves(WithEntry(b, k), k, Admitting(WithEntry(b, k).gates[k], now).0);
  }

  lemma StepKeepsDistinct<K>(b: Book<K>, c: Call<K>)
    requires Distinct(b)
    ensures Distinct(Do(b, c)) && Keeps(b, Do(b, c))
  {
    match c
    case Request(k, now) => RequestKeepsDistinct(b, k, now);
    case Tell(k, t, report) =>
      if k in b.gates {
        ReportKeepsIssuer(b.gates[k], t, report);
        OneGateMoves(b, k, R.Reporting(b.gates[k], t, report));
      }
  }

  lemma {:induction false} RunKeepsDistinct<K>(b: Book<K>, calls: seq<Call<K>>)
    requires Distinct(b)
    ensures Distinct(Run(b, calls)) && Keeps(b, Run(b, calls))
    decreases |calls|
  {
    if calls != [] {
      RunKeepsDistinct(b, calls[..|calls| - 1]);
      StepKeepsDistinct(Run(b, calls[..|calls| - 1]), calls[|calls| - 1]);
    }
  }

  lemma ForeignTicketIsIgnored<K>(b: Book<K>, j: Key<K>, t: Ticket, report: R.Report)
    requires j in b.gates ==> b.gates[j].issuer != t.issuer
    ensures Do(b, Tell(j, t, report)) == b
  {
    if j in b.gates {
      ReportKeepsIssuer(b.gates[j], t, report);
      assert b.gates[j := b.gates[j]] == b.gates;
    }
  }

  /**
   * A ticket counts for the entry that gave it out and no other: however long it is
   * kept and whatever entries are made meanwhile, reporting it elsewhere changes nothing.
   */
  lemma TicketsStayHome<K>(first: nat, earlier: seq<Call<K>>, k: Key<K>, now: U64, later: seq<Call<K>>, j: Key<K>,
                           report: R.Report)
    requires j != k && BookAdmit(Run(Empty(first), earlier), k, now).1.ticket.Some?
    ensures var (asked, admit) := BookAdmit(Run(Empty(first), earlier), k, now);
            Do(Run(asked, later), Tell(j, admit.ticket.value, report)) == Run(asked, later)
  {
    var found := Run(Empty(first), earlier);
    var (asked, admit) := BookAdmit(found, k, now);
    RunKeepsDistinct(Empty(first), earlier);
    RequestKeepsDistinct(found, k, now);
    RunKeepsDistinct(asked, later);
    ForeignTicketIsIgnored(Run(asked, later), j, admit.ticket.value, report);
  }

  // ----------------------------------------------------------- independence

  /** One breaker alone, made by the first request and told nothing before. */
  function Alone<K(==)>(issuer: nat, k: Key<K>, calls: seq<Call<K>>): Option<BreakerState> {
    if calls == [] then None
    else
      var before, last := Alone(issuer, k, calls[..|calls| - 1]), calls[|calls| - 1];
      if last.key != k then before
      else
        match last
        case Request(_, now) =>
          Some(Admitting(if before.Some? then before.value else Fresh(issuer, k.class_), now).0)
        case Tell(_, t, report) =>
          if before.Some? then Some(R.Reporting(before.value, t, report)) else None
  }

  /** Each entry is what one breaker alone becomes of the calls under its key. */
  lemma {:induction false} EntriesAreIndependent<K>(first: nat, calls: seq<Call<K>>, k: Key<K>)
    ensures var b := Run(Empty(first), calls);
            if k in b.gates then Alone(b.gates[k].issuer, k, calls) == Some(b.gates[k])
            else forall issuer :: Alone(issuer, k, calls) == None
    decreases |calls|
  {
    if calls != [] {
      var before, last := Run(Empty(first), calls[..|calls| - 1]), calls[|calls| - 1];
      EntriesAreIndependent(first, calls[..|calls| - 1], k);
      RunKeepsDistinct(Empty(first), calls[..|calls| - 1]);
      StepKeepsDistinct(before, last);
    }
  }
}
