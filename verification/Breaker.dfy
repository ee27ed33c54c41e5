/**
 * A circuit breaker: CLOSED counts consecutive failures, OPEN refuses until a
 * deadline, HALF_OPEN lets one probe through. Every admission hands out a ticket
 * that is moved into exactly one report; a report counts only by its ticket.
 */
module Breakers {
  import opened Wrappers

  const U64_MAX: nat := 0xFFFF_FFFF_FFFF_FFFF
  type U64 = n: nat | n <= U64_MAX

  function SaturatingAdd(a: U64, b: U64): U64 { if a + b <= U64_MAX then a + b else U64_MAX }
  function Later(a: U64, b: U64): U64 { if a <= b then b else a }

  datatype CredentialClass = OAuth | ApiKey | Local {
    function FailureThreshold(): nat {
      match this
      case OAuth => 3
      case ApiKey => 5
      case Local => 2
    }

    function RecoveryMs(): U64 {
      match this
      case OAuth => 60_000
      case ApiKey => 30_000
      case Local => 15_000
    }
  }

  datatype Gate = Closed(failures: nat) | Open(untilMs: U64) | HalfOpen(probing: bool)
  datatype Admission = Allowed | Probe | Rejected(retryAfterMs: U64) {
    predicate Admitted() { !Rejected? }
  }
  datatype Ticket = Ticket(issuer: nat, generation: U64, probe: bool)
  datatype Admit = Admit(admission: Admission, ticket: Option<Ticket>)

  datatype BreakerState = BreakerState(
    issuer: nat, class_: CredentialClass, gate: Gate, generation: U64, openCohort: Option<U64>)

  function Fresh(issuer: nat, class_: CredentialClass): BreakerState {
    BreakerState(issuer, class_, Closed(0), 0, None)
  }

  function Readiness(b: BreakerState, now: U64): Admission {
    match b.gate
    case Closed(_) => Allowed
    case Open(until) => if now < until then Rejected(until - now) else Probe
    case HalfOpen(probing) => if probing then Rejected(0) else Probe
  }

  function Admitting(b: BreakerState, now: U64): (BreakerState, Admit) {
    match b.gate
    case Closed(_) => (b, Admit(Allowed, Some(Ticket(b.issuer, b.generation, false))))
    case Open(until) => if now < until then (b, Admit(Rejected(until - now), None)) else Probing(b)
    case HalfOpen(probing) => if probing then (b, Admit(Rejected(0), None)) else Probing(b)
  }

  function Probing(b: BreakerState): (BreakerState, Admit) {
    (b.(gate := HalfOpen(true)), Admit(Probe, Some(Ticket(b.issuer, b.generation, true))))
  }

  function OnSuccess(b: BreakerState, t: Ticket): BreakerState {
    if t.issuer != b.issuer || t.generation != b.generation then b
    else
      match b.gate
      case HalfOpen(_) =>
        if t.probe then b.(gate := Closed(0), openCohort := None, generation := SaturatingAdd(b.generation, 1)) else b
      case Closed(_) => b.(gate := Closed(0))
      case Open(_) => b
  }

  function OnFailure(b: BreakerState, t: Ticket, now: U64): BreakerState {
    if t.issuer != b.issuer || t.generation != b.generation || (b.gate.HalfOpen? && !t.probe) then b
    else if b.gate.Closed? && b.gate.failures + 1 < b.class_.FailureThreshold() then
      b.(gate := Closed(b.gate.failures + 1))
    else if b.gate.Open? then b
    else
      b.(openCohort := Some(t.generation), generation := SaturatingAdd(b.generation, 1),
         gate := Open(SaturatingAdd(now, b.class_.RecoveryMs())))
  }

  /** What one Retry-After asks for; a probe's is never less than a full recovery window. */
  function Deadline(class_: CredentialClass, probe: bool, now: U64, ms: U64): U64 {
    var asked := SaturatingAdd(now, ms);
    if probe then Later(asked, SaturatingAdd(now, class_.RecoveryMs())) else asked
  }

  function OnRetryAfter(b: BreakerState, t: Ticket, now: U64, ms: U64): BreakerState {
    if t.issuer != b.issuer || (b.gate.HalfOpen? && !t.probe) then b
    else
      var current := t.generation == b.generation;
      if !current && !(b.gate.Open? && b.openCohort == Some(t.generation)) then b
      else
        var asked := Deadline(b.class_, t.probe, now, ms);
        var reopened := b.(gate := Open(if b.gate.Open? then Later(b.gate.untilMs, asked) else asked));
        if current then
          reopened.(openCohort := Some(t.generation), generation := SaturatingAdd(b.generation, 1))
        else reopened
  }

  function OnFailureWithRetryAfter(b: BreakerState, t: Ticket, now: U64, ms: Option<U64>): BreakerState {
    var failed := OnFailure(b, t, now);
    if ms.Some? then OnRetryAfter(failed, t, now, ms.value) else failed
  }

  lemma ReadinessPredictsAdmit(b: BreakerState, now: U64)
    ensures Admitting(b, now).1.admission == Readiness(b, now)
    ensures Admitting(b, now).1.ticket.Some? <==> Readiness(b, now).Admitted()
    ensures !Readiness(b, now).Admitted() ==> Admitting(b, now).0 == b
    ensures Readiness(b, now).Probe? <==> Admitting(b, now).1.ticket.Some? && Admitting(b, now).1.ticket.value.probe
  {
  }

  class Breaker {
    const issuer: nat
    const class_: CredentialClass
    var gate: Gate
    var generation: U64
    var openCohort: Option<U64>

    function View(): BreakerState
      reads this
    {
      BreakerState(issuer, class_, gate, generation, openCohort)
    }

    constructor (issuer: nat, class_: CredentialClass)
      ensures View() == Fresh(issuer, class_)
    {
      this.issuer, this.class_ := issuer, class_;
      gate, generation, openCohort := Closed(0), 0, None;
    }

    /** Inspects admission without claiming a probe. */
    method CheckReadiness(now: U64) returns (r: Admission)
      ensures r == Readiness(View(), now)
    {
      match gate
      case Closed(_) => r := Allowed;
      case Open(until) => r := if now < until then Rejected(until - now) else Probe;
      case HalfOpen(probing) => r := if probing then Rejected(0) else Probe;
    }

    method RequestAdmission(now: U64) returns (r: Admit)
      modifies this`gate
      ensures (View(), r) == Admitting(old(View()), now)
    {
      var probe := false;
      if gate.Open? && now < gate.untilMs {
        return Admit(Rejected(gate.untilMs - now), None);
      } else if gate.HalfOpen? && gate.probing {
        return Admit(Rejected(0), None);
      } else if !gate.Closed? {
        gate := HalfOpen(true);
        probe := true;
      }
      r := Admit(if probe then Probe else Allowed, Some(Ticket(issuer, generation, probe)));
    }

    method ReportSuccess(t: Ticket)
      modifies this
      ensures View() == OnSuccess(old(View()), t)
    {
      if t.issuer != issuer || t.generation != generation {
        return;
      }
      if gate.HalfOpen? && t.probe {
        gate, openCohort, generation := Closed(0), None, SaturatingAdd(generation, 1);
      } else if gate.Closed? {
        gate := Closed(0);
      }
    }

    method ReportFailure(t: Ticket, now: U64)
      modifies this
      ensures View() == OnFailure(old(View()), t, now)
    {
      if t.issuer != issuer || t.generation != generation {
        return;
      }
      if gate.HalfOpen? && !t.probe {
        return;
      }
      if gate.Closed? && gate.failures + 1 < class_.FailureThreshold() {
        gate := Closed(gate.failures + 1);
      } else if !gate.Open? {
        openCohort := Some(t.generation);
        generation := SaturatingAdd(generation, 1);
        gate := Open(SaturatingAdd(now, class_.RecoveryMs()));
      }
    }

    method ReportRetryAfter(t: Ticket, now: U64, ms: U64)
      modifies this
      ensures View() == OnRetryAfter(old(View()), t, now, ms)
    {
      if t.issuer != issuer {
        return;
      }
      if gate.HalfOpen? && !t.probe {
        return;
      }
      var current := t.generation == generation;
      var cohortExtend := gate.Open? && openCohort == Some(t.generation);
      if !current && !cohortExtend {
        return;
      }
      var until := SaturatingAdd(now, ms);
      if t.probe {
        until := Later(until, SaturatingAdd(now, class_.RecoveryMs()));
      }
      if gate.Open? {
        until := Later(gate.untilMs, until);
      }
      gate := Open(until);
      if current {
        openCohort := Some(t.generation);
        generation := SaturatingAdd(generation, 1);
      }
    }

    /** A failure and its header, from one ticket. */
    method ReportFailureWithRetryAfter(t: Ticket, now: U64, ms: Option<U64>)
      modifies this
      ensures View() == OnFailureWithRetryAfter(old(View()), t, now, ms)
    {
      ReportFailure(t, now);
      if ms.Some? {
        ReportRetryAfter(t, now, ms.value);
      }
    }
  }
}
