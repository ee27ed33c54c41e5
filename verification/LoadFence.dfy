/**
 * The durable marker that forbids loads after a possibly interrupted one, and the
 * lock that gives one owner at a time the right to move it.
 *
 * A disk is reduced to what the protocol rests on: whether the marker is there
 * now, and whether it will be there after a crash.
 */
module LoadFences {
  import opened Wrappers
  import opened Backend

  datatype Marker = Marker(visible: bool, durable: bool)

  /** How the file system treats one `begin`; a failure after creation leaves the file behind. */
  datatype BeginIo = Begins | FailsBeforeCreate | FailsAfterCreate(durable: bool)
  /** How it treats one `clear`; the directory sync may fail after the removal. */
  datatype ClearIo = Clears | RemoveFails | SyncFails(stillDurable: bool)

  datatype FenceStep = FenceStep(marker: Marker, ok: bool)

  /** `create_new` refuses a marker that is already there, whoever left it. */
  function BeginStep(m: Marker, io: BeginIo): FenceStep {
    if io.FailsBeforeCreate? || m.visible then FenceStep(m, false)
    else if io.FailsAfterCreate? then FenceStep(Marker(true, io.durable), false)
    else FenceStep(Marker(true, true), true)
  }

  function ClearStep(m: Marker, io: ClearIo): FenceStep {
    match io
    case RemoveFails => FenceStep(m, false)
    case Clears => FenceStep(if m.visible then Marker(false, false) else m, true)
    case SyncFails(still) =>
      if m.visible then FenceStep(Marker(false, still && m.durable), false) else FenceStep(m, true)
  }

  function AfterCrash(m: Marker): Marker { Marker(m.durable, m.durable) }

  /** Why a new actor may not load: the lock is not its own, or a marker stands or cannot be ruled out. */
  function StartupRefusal(lockHeld: bool, claimFails: bool, checkFails: bool, m: Marker): Option<BackendError> {
    if claimFails || lockHeld || checkFails || m.visible then Some(Internal) else None
  }

  /** The marker and the owner lock, as every process on the machine sees them. */
  class FenceFiles {
    var marker: Marker
    var lockedBy: Option<nat>

    constructor ()
      ensures marker == Marker(false, false) && lockedBy == None
    {
      marker := Marker(false, false);
      lockedBy := None;
    }
  }

  class LoadFence {
    const files: FenceFiles
    const owner: nat

    constructor (files: FenceFiles, owner: nat)
      ensures this.files == files && this.owner == owner
    {
      this.files := files;
      this.owner := owner;
    }

    /** Ownership is exclusive: a claim succeeds only when nobody holds the lock. */
    static method Claim(files: FenceFiles, owner: nat, ioFails: bool) returns (r: Result<LoadFence, BackendError>)
      modifies files
      ensures r.Success? <==> !ioFails && old(files.lockedBy).None?
      ensures r.Success? ==> fresh(r.value) && r.value.files == files && r.value.owner == owner
      ensures files.lockedBy == if r.Success? then Some(owner) else old(files.lockedBy)
      ensures files.marker == old(files.marker)
    {
      if ioFails || files.lockedBy.Some? {
        return Failure(Internal);
      }
      files.lockedBy := Some(owner);
      var fence := new LoadFence(files, owner);
      return Success(fence);
    }

    /** Clear exactly when a begin on a working disk would be let through; unreadable counts as present. */
    method CheckClear(ioFails: bool) returns (ok: bool)
      ensures ok ==> BeginStep(files.marker, Begins).ok
      ensures !ioFails && !ok ==> forall io :: !BeginStep(files.marker, io).ok
      ensures ioFails ==> !ok
    {
      if ioFails {
        return false;
      }
      ok := !files.marker.visible;
    }

    /**
     * Success means a marker that was not there before now stands and survives a
     * crash; failure never takes a marker away, and leaves one only if its file was created.
     */
    method Begin(io: BeginIo) returns (ok: bool)
      modifies files
      ensures ok <==> io.Begins? && !old(files.marker.visible)
      ensures ok ==> files.marker == AfterCrash(files.marker) == Marker(true, true)
      ensures old(files.marker.visible) ==> files.marker == old(files.marker)
      ensures !ok && files.marker != old(files.marker) ==> io.FailsAfterCreate? && files.marker.visible
      ensures FenceStep(files.marker, ok) == BeginStep(old(files.marker), io)
      ensures files.lockedBy == old(files.lockedBy)
    {
      if io.FailsBeforeCreate? || files.marker.visible {
        return false;
      }
      // Created; whether it will survive a crash is settled by the syncs.
      files.marker := Marker(true, io.FailsAfterCreate? && io.durable);
      if io.FailsAfterCreate? {
        return false;
      }
      files.marker := Marker(true, true);
      return true;
    }

    /**
     * Success means no marker stands, and none that stood comes back after a crash,
     * so a begin would be let through; a marker removed without success is gone for
     * now only because the directory could not be synced.
     */
    method Clear(io: ClearIo) returns (ok: bool)
      modifies files
      ensures ok ==> BeginStep(files.marker, Begins).ok
      ensures ok && old(files.marker.visible) ==> files.marker == AfterCrash(files.marker) == Marker(false, false)
      ensures !ok && files.marker != old(files.marker)
              ==> io.SyncFails? && old(files.marker.visible) && !files.marker.visible
      ensures FenceStep(files.marker, ok) == ClearStep(old(files.marker), io)
      ensures files.lockedBy == old(files.lockedBy)
    {
      if io.RemoveFails? {
        return false;
      }
      if !files.marker.visible {
        return true;
      }
      // Removed; the directory sync decides whether a crash brings it back.
      files.marker := Marker(false, io.SyncFails? && io.stillDurable && files.marker.durable);
      return io.Clears?;
    }

    /** Dropping the last holder gives the lock up, never the marker. */
    method Drop()
      modifies files
      ensures files.lockedBy == if old(files.lockedBy) == Some(owner) then None else old(files.lockedBy)
      ensures files.marker == old(files.marker)
    {
      if files.lockedBy == Some(owner) {
        files.lockedBy := None;
      }
    }
  }
}
