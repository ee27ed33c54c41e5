/** Names shared with the engine adapter: errors and the residency sample. */
module Backend {
  datatype BackendError =
    | ModelNotFound
    | ModelLoading
    | ModelUnavailable
    | EvictionImpossible
    | EvictionFailed
    | Oom
    | HeadroomConfirmationRequired
    | AdapterTimedOut
    | AdapterPanicked
    | LoadUnconfirmed
    | LoadPostconditionFailed
    | ProbeTimedOut
    | Busy
    | InvalidRequest
    | InvariantViolation
    | Internal

  /** What an engine reports about itself; nothing here is trusted before it is checked. */
  datatype BackendStatus = BackendStatus(usedGb: real, loaded: seq<string>)
}

/** The load policy a caller asks for; two requests merge only when theirs are equal. */
module LoadPolicies {
  datatype LoadMode = Resident | OnDemand | EvictToLoad
  datatype Keepalive = Pinned(pinned: bool) | IdleTtl(idleTtlS: nat)
  datatype Admission = Coexist | RequiresEviction
  datatype LoadPolicy = LoadPolicy(mode: LoadMode, keepalive: Keepalive, admission: Admission)
}
