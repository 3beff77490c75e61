/** The persisted authentication state and the file that holds it
    (authd/src/store.rs). The hash is ideal: a PHC string produced by the hasher
    carries its secret, and nothing else passes `is_valid_phc`. */
module AuthStore {
  import opened Durable
  import opened Prelude

  datatype Phc = Phc(secret: string, salt: seq<nat>) | Malformed(text: string)

  datatype Persisted =
    | Unenrolled
    | EnrolledUnconfirmed(passwordHash: Phc, recoveryKeyHash: Phc, confirmationDeadline: nat)
    | Enrolled(passwordHash: Phc, recoveryKeyHash: Phc)

  datatype StateFile = StateFile(version: nat, state: string, passwordHash: Option<Phc>,
                                 recoveryKeyHash: Option<Phc>, confirmationDeadline: Option<nat>)

  /** What `state.json` may hold; JSON text is injective. */
  datatype Content = Missing | Unreadable | NotJson | Json(file: StateFile)

  datatype Loaded = Ok(persisted: Persisted) | Err

  const FORMAT_VERSION: nat := 1

  predicate ValidHash(hash: Option<Phc>) {
    hash.Some? && hash.value.Phc?
  }

  /** store.rs `load`. */
  function Load(content: Content): Loaded {
    match content
    case Missing => Ok(Unenrolled)
    case Unreadable => Err
    case NotJson => Err
    case Json(file) =>
      if file.version != FORMAT_VERSION then Err
      else if file.state == "unenrolled" && file.passwordHash.None? && file.recoveryKeyHash.None?
              && file.confirmationDeadline.None? then Ok(Unenrolled)
      else if file.state == "enrolled_unconfirmed" && file.confirmationDeadline.Some?
              && ValidHash(file.passwordHash) && ValidHash(file.recoveryKeyHash) then
        Ok(EnrolledUnconfirmed(file.passwordHash.value, file.recoveryKeyHash.value, file.confirmationDeadline.value))
      else if file.state == "enrolled" && file.confirmationDeadline.None?
              && ValidHash(file.passwordHash) && ValidHash(file.recoveryKeyHash) then
        Ok(Enrolled(file.passwordHash.value, file.recoveryKeyHash.value))
      else Err
  }

  function ToFile(state: Persisted): Content {
    Json(match state
         case Unenrolled => StateFile(FORMAT_VERSION, "unenrolled", None, None, None)
         case EnrolledUnconfirmed(p, r, d) => StateFile(FORMAT_VERSION, "enrolled_unconfirmed", Some(p), Some(r), Some(d))
         case Enrolled(p, r) => StateFile(FORMAT_VERSION, "enrolled", Some(p), Some(r), None))
  }

  predicate HasValidHashes(state: Persisted) {
    state.Unenrolled? || (state.passwordHash.Phc? && state.recoveryKeyHash.Phc?)
  }

  /** A written state reads back, and only states with valid hashes are read. */
  lemma LoadsWhatWasEncoded(state: Persisted)
    ensures Load(ToFile(state)) == if HasValidHashes(state) then Ok(state) else Err
  {
    assert "unenrolled"[0] == 'u' && "enrolled_unconfirmed"[0] == 'e' && "enrolled"[0] == 'e';
    assert |"enrolled_unconfirmed"| != |"enrolled"|;
  }

  /** Exactly the missing file and what `write` writes are loaded. */
  lemma LoadsExactly(content: Content, state: Persisted)
    ensures Load(content) == Ok(state) <==>
            (content == Missing && state == Unenrolled) || (content == ToFile(state) && HasValidHashes(state))
  {
    LoadsWhatWasEncoded(state);
  }

  lemma LoadedHashesAreValid(content: Content)
    ensures Load(content).Ok? ==> HasValidHashes(Load(content).persisted)
  {
  }

  // ----- Writing -----

  datatype Faults = Faults(create: Fault, write: Fault, fileSync: Fault, rename: Fault, directorySync: Fault,
                           removeFails: bool)

  datatype Written = Done | FailedBeforeRename | FailedAfterRename | Halted

  /** The outcome of a write, whether its rename took place, and whether it
      leaves a temporary file, given whether one was left before. */
  datatype Effect = Effect(written: Written, renamed: bool, temporary: bool)

  function WriteEffect(faults: Faults, temporary: bool): Effect {
    if faults.create == Halt then Effect(Halted, false, temporary)
    else if faults.create == Fail || temporary then
      Effect(FailedBeforeRename, false, temporary && faults.removeFails)
    else if faults.write == Halt || (faults.write == Pass && faults.fileSync == Halt)
            || (faults.write == Pass && faults.fileSync == Pass && faults.rename == Halt) then
      Effect(Halted, false, true)
    else if faults.write == Fail || faults.fileSync == Fail || faults.rename == Fail then
      Effect(FailedBeforeRename, false, faults.removeFails)
    else
      Effect(match faults.directorySync case Halt => Halted case Fail => FailedAfterRename case Pass => Done,
             true, false)
  }

  function Rewritten<C>(disk: Disk<C>, content: C, effect: Effect): Disk<C> {
    if effect.written == Done then disk.Renamed(content).Synced()
    else if effect.renamed then disk.Renamed(content)
    else disk
  }

  class Store {
    var disk: Disk<Content>
    var temporary: bool

    constructor (disk: Disk<Content>, temporary: bool)
      ensures this.disk == disk && this.temporary == temporary
    {
      this.disk, this.temporary := disk, temporary;
    }

    /** store.rs `remove_stale_temporary`. */
    method RemoveStaleTemporary(fails: bool) returns (ok: bool)
      modifies this`temporary
      ensures ok == !fails && temporary == (fails && old(temporary))
    {
      if fails {
        return false;
      }
      temporary := false;
      return true;
    }

    /** `fs::remove_file` after a failure, whose own failure is ignored. */
    method TryRemoveTemporary(fails: bool)
      modifies this`temporary
      ensures temporary == (old(temporary) && fails)
    {
      temporary := temporary && fails;
    }

    /** store.rs `write_temporary`: Pass once the file is written and synced. */
    method WriteTemporary(faults: Faults) returns (r: Fault)
      modifies this`temporary
      ensures r == if faults.create != Pass then faults.create
                   else if old(temporary) then Fail
                   else if faults.write != Pass then faults.write
                   else faults.fileSync
      ensures temporary == (old(temporary) || faults.create == Pass)
    {
      if faults.create != Pass {
        return faults.create;
      }
      if temporary {
        return Fail;
      }
      temporary := true;
      if faults.write != Pass {
        return faults.write;
      }
      return faults.fileSync;
    }

    /** store.rs `write`: temporary file, sync, rename, directory sync. */
    method Write(state: Persisted, faults: Faults) returns (r: Written)
      modifies this
      ensures var effect := WriteEffect(faults, old(temporary));
              && r == effect.written && temporary == effect.temporary
              && disk == Rewritten(old(disk), ToFile(state), effect)
    {
      var step := WriteTemporary(faults);
      if step == Halt {
        return Halted;
      }
      if step == Fail {
        TryRemoveTemporary(faults.removeFails);
        return FailedBeforeRename;
      }
      if faults.rename == Halt {
        return Halted;
      }
      if faults.rename == Fail {
        TryRemoveTemporary(faults.removeFails);
        return FailedBeforeRename;
      }
      disk, temporary := disk.Renamed(ToFile(state)), false;
      match faults.directorySync
      case Halt => return Halted;
      case Fail => return FailedAfterRename;
      case Pass =>
        disk := disk.Synced();
        return Done;
    }

    /** A power cut, which keeps some prefix of the unsynced renames and may or
        may not keep a temporary file. */
    method LosePower(kept: nat, temporary: bool)
      requires kept <= |disk.unsynced|
      modifies this
      ensures disk == old(disk).AfterCut(kept) && this.temporary == temporary
    {
      disk, this.temporary := disk.AfterCut(kept), temporary;
    }
  }
}
