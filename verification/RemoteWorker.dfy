/** The worker itself: the operations of remote-worker/src/worker.rs, one change
    of the directory after the other, with each early return. */
module RemoteWorker {
  import opened Durable
  import opened Prelude
  import opened RemoteState
  import RemoteRuns
  import RemoteTheorems

  class Worker {
    var fs: Fs
    var faults: seq<Fault>
    var enrolled: bool
    ghost var past: seq<Fs>
    ghost var synced: nat

    ghost function Abs(): World
      reads this
    {
      World(past, fs, synced, faults, enrolled)
    }

    constructor (fs: Fs, faults: seq<Fault>, enrolled: bool)
      ensures Abs() == World([], fs, 0, faults, enrolled)
    {
      this.fs, this.faults, this.enrolled, past, synced := fs, faults, enrolled, [], 0;
    }

    method MeetFault() returns (fault: Fault)
      modifies this`faults
      ensures (Abs(), fault) == Meet(old(Abs()))
    {
      if faults == [] {
        return Pass;
      }
      fault := faults[0];
      faults := faults[1..];
    }

    /** A log and a directory as they can be. */
    ghost predicate Sane()
      reads this
    {
      Abs().Valid() && RemoteTheorems.WellFormed(fs)
    }

    /** One change of the directory. */
    method Change(next: Fs) returns (r: Exit)
      modifies this
      ensures (Abs(), r) == Act(old(Abs()), next)
    {
      var fault := MeetFault();
      if fault != Pass {
        return if fault == Halt then Stopped else Failed;
      }
      past := past + [fs];
      fs := next;
      return Ok;
    }

    method SyncAll() returns (r: Exit)
      modifies this
      ensures (Abs(), r) == Sync(old(Abs()))
    {
      var fault := MeetFault();
      if fault != Pass {
        return if fault == Halt then Stopped else Failed;
      }
      synced := |past|;
      return Ok;
    }

    method Check() returns (r: Exit)
      modifies this
      ensures (Abs(), r) == Look(old(Abs()))
    {
      var fault := MeetFault();
      return if fault == Halt then Stopped else if fault == Fail then Failed else Ok;
    }

    /** The ignored removal of a temporary after a failure. */
    method Tidy(exit: Exit, t: Temporary) returns (r: Exit)
      modifies this
      ensures (Abs(), r) == Undo((old(Abs()), exit), old(fs).(temporaries := old(fs).temporaries - {t}))
    {
      if exit != Failed {
        return exit;
      }
      var tidied: Exit;
      if t in fs.temporaries {
        tidied := Change(fs.(temporaries := fs.temporaries - {t}));
      } else {
        assert fs.temporaries - {t} == fs.temporaries;
        tidied := Check();
      }
      return if tidied == Stopped then Stopped else Failed;
    }

    /** worker.rs `create_marker`. */
    method CreateMarkerFile(m: Marker) returns (r: Exit)
      modifies this
      ensures (Abs(), r) == CreateMarker(old(Abs()), m)
      ensures old(Sane()) && m.ResetPending? ==> RemoteTheorems.OnlyMarker(m, old(fs), fs)
      ensures r == Ok ==> fs.Has(m)
    {
      if Sane() && m.ResetPending? {
        RemoteTheorems.CreateMarkerFollows(Abs(), m);
      }
      r := Check();
      if r != Ok || fs.Has(m) {
        return;
      }
      r := WriteMarkerFile(m);
      r := Tidy(r, TemporaryOf(m));
    }

    method WriteMarkerFile(m: Marker) returns (r: Exit)
      modifies this
      ensures (Abs(), r) == WriteMarker(old(Abs()), m)
    {
      if TemporaryOf(m) in fs.temporaries {
        return Failed;
      }
      r := Change(fs.(temporaries := fs.temporaries + {TemporaryOf(m)}));
      if r != Ok {
        return;
      }
      r := SyncAll();
      if r != Ok {
        return;
      }
      r := Change(fs.With(m, true).(temporaries := fs.temporaries - {TemporaryOf(m)}));
      if r == Ok {
        r := SyncAll();
      }
    }

    /** worker.rs `remove_marker`. */
    method RemoveMarkerFile(m: Marker) returns (r: Exit)
      modifies this
      ensures (Abs(), r) == RemoveMarker(old(Abs()), m)
    {
      r := Check();
      if r != Ok || !fs.Has(m) {
        return;
      }
      r := Change(fs.With(m, false));
      if r == Ok {
        r := SyncAll();
      }
    }

    method RemoveTemporaryFile(t: Temporary) returns (r: Exit)
      modifies this
      ensures (Abs(), r) == RemoveTemporary(old(Abs()), t)
    {
      if t in fs.temporaries {
        r := Change(fs.(temporaries := fs.temporaries - {t}));
      } else {
        r := Check();
      }
    }

    /** worker.rs `remove_stale_temporaries`. */
    method RemoveStale() returns (r: Exit)
      modifies this
      ensures (Abs(), r) == RemoveStaleTemporaries(old(Abs()))
    {
      r := RemoveTemporaryFile(EnabledTemporary);
      if r == Ok {
        r := RemoveTemporaryFile(ResetPendingTemporary);
      }
      if r == Ok {
        r := RemoveTemporaryFile(CurrentTemporary);
      }
    }

    /** `fs::remove_dir_all` of a generation. */
    method RemoveDirectory(name: string) returns (r: Exit)
      modifies this
      ensures (Abs(), r) == RemoveGeneration(old(Abs()), name)
    {
      r := Change(Put(fs, Generation(name, Missing, Missing, Missing)));
      if r == Ok {
        r := Change(Without(fs, name));
      }
    }

    /** worker.rs `remove_unreferenced_generations`. */
    method Cleanup() returns (r: Exit)
      modifies this
      ensures (Abs(), r) == RemoveUnreferenced(old(Abs()))
      ensures old(Sane()) ==> RemoteTheorems.OnlyGenerations(old(fs), fs)
      ensures old(Sane()) && r == Ok ==> forall g :: g in fs.generations ==> Some(g.name) == CurrentGeneration(fs)
    {
      if Sane() {
        RemoteTheorems.RemoveUnreferencedFollows(Abs());
      }
      r := Check();
      if r != Ok || !fs.tls {
        return;
      }
      var referenced := CurrentGeneration(fs);
      var names := Names(fs.generations);
      var removed := false;
      for i := 0 to |names|
        invariant RemoveEach(Abs(), names[i..], removed) == RemoveUnreferenced(old(Abs()))
        invariant CurrentGeneration(fs) == referenced
      {
        assert names[i..][0] == names[i] && names[i..][1..] == names[i + 1..];
        if Some(names[i]) != referenced {
          r := RemoveDirectory(names[i]);
          if r != Ok {
            return;
          }
          removed := true;
        }
      }
      assert names[|names|..] == [];
      r := Ok;
      if removed {
        r := SyncAll();
      }
    }

    method EnsureDirectory() returns (r: Exit)
      modifies this
      ensures (Abs(), r) == EnsureTls(old(Abs()))
    {
      if fs.tls {
        r := Check();
        return;
      }
      r := Change(fs.(tls := true));
      if r == Ok {
        r := SyncAll();
      }
    }

    /** worker.rs `fill_generation`. */
    method FillDirectory(name: string) returns (r: Exit)
      modifies this
      ensures (Abs(), r) == FillFrom(old(Abs()), name, 0)
    {
      for k := 0 to STAGES
        invariant FillFrom(Abs(), name, k) == FillFrom(old(Abs()), name, 0)
      {
        r := Change(Put(fs, Stage(name, k + 1)));
        if r != Ok {
          return;
        }
        if k + 1 == 4 {
          r := SyncAll();
          if r != Ok {
            return;
          }
        }
      }
      r := SyncAll();
    }

    /** worker.rs `generate_identity`. */
    method Generate(name: string) returns (r: Exit)
      modifies this
      ensures (Abs(), r) == GenerateIdentity(old(Abs()), name)
      ensures old(Sane()) && RemoteTheorems.Fresh(old(fs), name) ==>
                RemoteTheorems.OnlyTls(old(fs), fs)
                && (r == Ok ==> RemoteTheorems.Settled(Abs()) && Stage(name, STAGES) in fs.generations)
    {
      if Sane() && RemoteTheorems.Fresh(fs, name) {
        RemoteTheorems.GenerateFollows(Abs(), name);
      }
      r := EnsureDirectory();
      if r != Ok {
        return;
      }
      r := Cleanup();
      if r != Ok {
        return;
      }
      if Listed(fs, name) {
        return Failed;
      }
      r := Change(Put(fs, Stage(name, 0)));
      if r != Ok {
        return;
      }
      r := FillDirectory(name);
      if r == Failed {
        var removed := RemoveDirectory(name);
        if removed == Stopped {
          r := Stopped;
        }
      }
    }

    method LinkAndRename(name: string) returns (r: Exit)
      modifies this
      ensures var w := old(Abs());
              var (w1, linked) := if CurrentTemporary in w.now.temporaries then (w, Failed)
                                  else Act(w, w.now.(temporaries := w.now.temporaries + {CurrentTemporary}));
              var (w2, renamed) := Act(w1, w1.now.(temporaries := w1.now.temporaries - {CurrentTemporary}, current := To(name)));
              (Abs(), r) == if linked != Ok then (w1, linked) else if renamed != Ok then (w2, renamed) else Sync(w2)
    {
      if CurrentTemporary in fs.temporaries {
        return Failed;
      }
      r := Change(fs.(temporaries := fs.temporaries + {CurrentTemporary}));
      if r != Ok {
        return;
      }
      r := Change(fs.(temporaries := fs.temporaries - {CurrentTemporary}, current := To(name)));
      if r == Ok {
        r := SyncAll();
      }
    }

    /** worker.rs `swap_current`. */
    method Swap(name: string) returns (r: Exit)
      modifies this
      ensures (Abs(), r) == SwapCurrent(old(Abs()), name)
    {
      r := LinkAndRename(name);
      r := Tidy(r, CurrentTemporary);
    }

    /** worker.rs `remove_current`. */
    method Unlink() returns (r: Exit)
      modifies this
      ensures (Abs(), r) == RemoveCurrent(old(Abs()))
    {
      if fs.current.Absent? {
        r := Check();
        return;
      }
      r := Change(fs.(current := Absent));
      if r == Ok {
        r := SyncAll();
      }
    }

    /** worker.rs `rotate`. */
    method RotateIdentity(name: string) returns (r: Exit)
      modifies this
      ensures (Abs(), r) == Rotate(old(Abs()), name)
      ensures old(Sane()) && RemoteTheorems.Fresh(old(fs), name) ==>
                RemoteTheorems.Follows(old(Abs()), Abs(), RemoteTheorems.ROTATION)
                && (r == Ok ==> RemoteTheorems.Settled(Abs()) && RemoteTheorems.Rotated(old(fs), fs, name))
    {
      if Sane() && RemoteTheorems.Fresh(fs, name) {
        RemoteTheorems.RotateFollows(Abs(), name);
      }
      r := Generate(name);
      if r == Ok {
        r := Swap(name);
      }
      if r == Ok {
        r := Cleanup();
      }
    }

    /** worker.rs `enable`. */
    method EnableRemote(name: string) returns (r: Exit)
      modifies this
      ensures (Abs(), r) == EnableMode(old(Abs()), name)
      ensures old(Sane()) && r == Ok ==> fs.enabled && CurrentIdentity(fs).Identity? && !old(fs).pending
    {
      if Sane() {
        RemoteTheorems.EnableFollows(Abs(), name);
      }
      r := Check();
      if r != Ok {
        return;
      }
      if fs.pending {
        return Failed;
      }
      match CurrentIdentity(fs) {
        case InvalidIdentity => return Failed;
        case Identity(_) =>
        case NoIdentity =>
          r := RotateIdentity(name);
          if r != Ok {
            return;
          }
      }
      r := CreateMarkerFile(Enabled);
    }

    method ResetAuth(lost: bool) returns (r: Exit)
      modifies this
      ensures (Abs(), r) == ResetEnrollment(old(Abs()), lost)
    {
      r := Check();
      if r == Ok || lost {
        enrolled := false;
      }
    }

    /** worker.rs `boot_reset`: commit the marker, remove `current`, reset the
        enrollment, remove the generations, clear the marker. */
    method ResetAtBoot(lost: bool) returns (r: Exit)
      modifies this
      ensures (Abs(), r) == BootResetMode(old(Abs()), lost)
      ensures old(Sane()) ==> RemoteTheorems.PendingUntilClean(old(Abs()), Abs())
      ensures old(Sane()) && r == Ok ==> !fs.pending && RemoteTheorems.Clean(fs) && !enrolled && RemoteTheorems.Settled(Abs())
    {
      if Sane() {
        RemoteTheorems.BootResetFollows(Abs(), lost);
      }
      r := CreateMarkerFile(ResetPending);
      if r == Ok {
        r := Unlink();
      } else {
        return;
      }
      if r == Ok {
        r := ResetAuth(lost);
      }
      if r == Ok {
        r := Cleanup();
      }
      if r == Ok {
        r := RemoveMarkerFile(ResetPending);
      }
    }

    /** worker.rs `run`. */
    method RunMode(mode: Mode, name: string, lost: bool) returns (r: Exit)
      modifies this
      ensures (Abs(), r) == Run(old(Abs()), mode, name, lost)
      ensures old(Sane()) && (mode.RotateTls? ==> RemoteTheorems.Fresh(old(fs), name)) ==>
                RemoteTheorems.Follows(old(Abs()), Abs(), RemoteRuns.KindsOf(mode)) && Sane()
    {
      if Sane() && (mode.RotateTls? ==> RemoteTheorems.Fresh(fs, name)) {
        RemoteRuns.RunFollows(Abs(), mode, name, lost);
        RemoteTheorems.FollowsValid(Abs(), Run(Abs(), mode, name, lost).0, RemoteRuns.KindsOf(mode));
      }
      r := RemoveStale();
      if r != Ok {
        return;
      }
      match mode
      case Enable => r := EnableRemote(name);
      case Disable => r := RemoveMarkerFile(Enabled);
      case RotateTls => r := RotateIdentity(name);
      case BootReset => r := ResetAtBoot(lost);
      case ClearResetPending => r := RemoveMarkerFile(ResetPending);
    }
  }
}
