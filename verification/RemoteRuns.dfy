/** Runs of the worker, with power cuts anywhere: the identity is sound at every
    point at which the machine can stop, a reset that has begun is not
    forgotten, and it is finished by running it again. */
module RemoteRuns {
  import opened Durable
  import opened Prelude
  import opened RemoteState
  import opened RemoteTheorems

  const EVERYTHING := ROTATION + {SetEnabled, ClearEnabled, SetPending, ClearPending, DropCurrent}

  /** The changes that a mode can make. */
  function KindsOf(mode: Mode): set<Kind> {
    match mode
    case Enable => ROTATION + {SetEnabled}
    case Disable => {Tidy, ClearEnabled}
    case RotateTls => ROTATION
    case BootReset => BOOT_RESET + {ClearPending}
    case ClearResetPending => {Tidy, ClearPending}
  }

  lemma RunFollows(w: World, mode: Mode, name: string, lost: bool)
    requires w.Valid() && WellFormed(w.now) && (mode.RotateTls? ==> Fresh(w.now, name))
    ensures Follows(w, Run(w, mode, name, lost).0, KindsOf(mode)) && WellFormed(Run(w, mode, name, lost).0.now)
  {
    hide KindsOf;
    RemoveStaleFollows(w);
    var (w1, tidied) := RemoveStaleTemporaries(w);
    TidyIsAllowed(mode);
    Widens(w, w1, {Tidy}, KindsOf(mode));
    FollowsValid(w, w1, {Tidy});
    if tidied == Ok {
      ModeFollows(w1, mode, name, lost);
      Chains(w, w1, Run(w, mode, name, lost).0, KindsOf(mode));
    }
  }

  lemma TidyIsAllowed(mode: Mode)
    ensures Tidy in KindsOf(mode)
  {
  }

  function RunTidied(w: World, mode: Mode, name: string, lost: bool): (World, Exit) {
    match mode
    case Enable => EnableMode(w, name)
    case Disable => RemoveMarker(w, Enabled)
    case RotateTls => Rotate(w, name)
    case BootReset => BootResetMode(w, lost)
    case ClearResetPending => RemoveMarker(w, ResetPending)
  }

  lemma ModeFollows(w: World, mode: Mode, name: string, lost: bool)
    requires w.Valid() && WellFormed(w.now) && (mode.RotateTls? ==> Fresh(w.now, name))
    ensures Follows(w, RunTidied(w, mode, name, lost).0, KindsOf(mode)) && WellFormed(RunTidied(w, mode, name, lost).0.now)
  {
    match mode
    case Enable => EnableFollows(w, name);
    case RotateTls => RotateFollows(w, name);
    case BootReset => BootResetFollows(w, lost);
    case Disable =>
      RemoveMarkerFollows(w, Enabled);
      Widens(w, RemoveMarker(w, Enabled).0, {ClearEnabled}, KindsOf(mode));
    case ClearResetPending =>
      RemoveMarkerFollows(w, ResetPending);
      Widens(w, RemoveMarker(w, ResetPending).0, {ClearPending}, KindsOf(mode));
  }

  // ----- The identity at every point -----

  ghost predicate Sound(fs: Fs) {
    Good(fs) && WellFormed(fs)
  }

  lemma StepKeepsSound(kinds: set<Kind>, a: Fs, b: Fs)
    requires Sound(a) && Allowed(kinds, a, b)
    ensures Sound(b)
  {
    var kind :| kind in kinds && By(kind, a, b);
    if kind == Rewrite && a.current.To? {
      var g :| g in a.generations && g.name == a.current.name && Complete(g);
      assert g in b.generations;
    }
  }

  lemma {:induction false} FollowsKeepsSound(w: World, v: World, kinds: set<Kind>, k: nat)
    requires Follows(w, v, kinds) && Sound(w.now) && |w.past| <= k <= |v.past|
    ensures Sound(v.History()[k])
  {
    if k == |w.past| {
      assert v.History()[k] == w.History()[k];
    } else {
      FollowsKeepsSound(w, v, kinds, k - 1);
      StepKeepsSound(kinds, v.History()[k - 1], v.History()[k]);
    }
  }

  /** All the states that a power cut can leave are sound. */
  ghost predicate SoundWorld(w: World) {
    w.Valid() && forall k :: w.synced <= k <= |w.past| ==> Sound(w.History()[k])
  }

  lemma FollowsKeepsSoundWorld(w: World, v: World, kinds: set<Kind>)
    requires Follows(w, v, kinds) && SoundWorld(w)
    ensures SoundWorld(v)
  {
    assert w.History()[|w.past|] == w.now;
    forall k | v.synced <= k <= |v.past| ensures Sound(v.History()[k]) {
      if k < |w.past| {
        assert v.History()[k] == w.History()[k];
      } else {
        FollowsKeepsSound(w, v, kinds, k);
      }
    }
  }

  /** A run of the worker with the faults it meets, or a power cut that keeps
      the log up to an index. */
  datatype Event =
    | Work(mode: Mode, name: string, lost: bool, faults: seq<Fault>)
    | PowerCut(kept: nat)
    | Enrolls

  ghost predicate Possible(w: World, e: Event) {
    e.PowerCut? ==> w.synced <= e.kept <= |w.past|
  }

  function Next(w: World, e: Event): World
    requires Possible(w, e)
  {
    match e
    case Work(mode, name, lost, faults) => Run(w.(faults := faults), mode, name, lost).0
    case PowerCut(kept) => World([], w.History()[kept], 0, [], w.enrolled)
    case Enrolls => w.(enrolled := true)
  }

  lemma NextKeepsSound(w: World, e: Event)
    requires SoundWorld(w) && Possible(w, e)
    ensures SoundWorld(Next(w, e))
  {
    assert w.History()[|w.past|] == w.now;
    match e
    case Work(mode, name, lost, faults) =>
      var u := w.(faults := faults);
      assert u.History() == w.History();
      RunFollows(u, mode, name, lost);
      FollowsKeepsSoundWorld(u, Next(w, e), KindsOf(mode));
    case PowerCut(kept) =>
    case Enrolls =>
      assert Next(w, e).History() == w.History();
  }

  ghost predicate IsRun(worlds: seq<World>, events: seq<Event>) {
    && |worlds| == |events| + 1
    && forall i :: 0 <= i < |events| ==> Possible(worlds[i], events[i]) && worlds[i + 1] == Next(worlds[i], events[i])
  }

  /** At every point of every run, `tls/current` is absent or names a complete
      generation. */
  lemma {:induction false} IdentityIsSound(worlds: seq<World>, events: seq<Event>, i: nat, k: nat)
    requires IsRun(worlds, events) && SoundWorld(worlds[0]) && i < |worlds|
    ensures SoundWorld(worlds[i])
    ensures worlds[i].synced <= k <= |worlds[i].past| ==> Good(worlds[i].History()[k])
  {
    if i > 0 {
      IdentityIsSound(worlds, events, i - 1, 0);
      NextKeepsSound(worlds[i - 1], events[i - 1]);
    }
  }

  // ----- A pending reset -----

  /** Whatever a power cut keeps, the marker is there. */
  ghost predicate DurablyPending(w: World) {
    w.Valid() && forall k :: w.synced <= k <= |w.past| ==> w.History()[k].pending
  }

  /** In the states that a power cut can leave, the reset is pending or done. */
  ghost predicate PendingOrDone(w: World) {
    && w.Valid()
    && forall k :: w.synced <= k <= |w.past| ==> w.History()[k].pending || (Clean(w.History()[k]) && !w.enrolled)
  }

  lemma FollowsKeepsPending(w: World, v: World, kinds: set<Kind>)
    requires Follows(w, v, kinds) && ClearPending !in kinds && DurablyPending(w)
    ensures DurablyPending(v)
  {
    assert w.History()[|w.past|] == w.now;
    forall k | v.synced <= k <= |v.past| ensures v.History()[k].pending {
      if k < |w.past| {
        assert v.History()[k] == w.History()[k];
      } else {
        assert v.History()[|w.past|] == w.now;
        PendingStays(w, v, kinds, |w.past|, k);
      }
    }
  }

  /** A durable reset marker outlasts every mode but the boot reset and the one
      that clears it on purpose. */
  lemma PendingOutlasts(w: World, mode: Mode, name: string, lost: bool)
    requires DurablyPending(w) && WellFormed(w.now) && (mode.RotateTls? ==> Fresh(w.now, name))
    requires !mode.ClearResetPending? && !mode.BootReset?
    ensures DurablyPending(Run(w, mode, name, lost).0)
  {
    RunFollows(w, mode, name, lost);
    FollowsKeepsPending(w, Run(w, mode, name, lost).0, KindsOf(mode));
  }

  /** In the states that a power cut can leave, the reset is pending, or neither
      link nor generations are left. */
  ghost predicate PendingOrClean(w: World) {
    && w.Valid()
    && forall k :: w.synced <= k <= |w.past| ==> w.History()[k].pending || Clean(w.History()[k])
  }

  /** A boot reset that resumes a pending one keeps its promise, wherever it
      stops: once it has reset the enrollment, every state that a power cut can
      leave is pending or done. For all faults this is so exactly if there is a
      link, whose removal is synced first, or no such state at its start shows
      an identity without the marker. */
  lemma BootResetKeepsPending(w: World)
    requires w.Valid() && WellFormed(w.now) && w.now.pending && w.enrolled
    ensures (forall faults, lost ::
               var v := Run(w.(faults := faults), BootReset, "", lost).0; !v.enrolled ==> PendingOrDone(v))
            <==> (!w.now.current.Absent? || PendingOrClean(w))
  {
    if !w.now.current.Absent? || PendingOrClean(w) {
      forall faults, lost
        ensures var v := Run(w.(faults := faults), BootReset, "", lost).0; !v.enrolled ==> PendingOrDone(v)
      {
        ResumedKeepsPending(w, faults, lost);
      }
    } else {
      ResumedLosesMarker(w);
    }
  }

  lemma ResumedKeepsPending(w: World, faults: seq<Fault>, lost: bool)
    requires w.Valid() && WellFormed(w.now) && w.now.pending && w.enrolled
    requires !w.now.current.Absent? || PendingOrClean(w)
    ensures var v := Run(w.(faults := faults), BootReset, "", lost).0; !v.enrolled ==> PendingOrDone(v)
  {
    hide PendingOrDone, PendingOrClean;
    var w0 := w.(faults := faults);
    SameStates(w, w0);
    RemoveStaleFollows(w0);
    var (u, tidied) := RemoveStaleTemporaries(w0);
    FollowsValid(w0, u, {Tidy});
    if tidied == Ok {
      LookFollows(u, {});
      var (u1, looked) := CreateMarker(u, ResetPending);
      if looked == Ok {
        if PendingOrClean(w) { TidyKeepsClean(w0, u); SameStates(u, u1); }
        FinishKeepsPending(u1, lost);
      }
    }
  }

  lemma SameStates(w: World, v: World)
    requires v.past == w.past && v.now == w.now && v.synced == w.synced
    ensures PendingOrClean(w) <==> PendingOrClean(v)
  {
    assert w.History() == v.History();
  }

  lemma TidyKeepsClean(w: World, u: World)
    requires PendingOrClean(w) && w.now.pending && Follows(w, u, {Tidy})
    ensures PendingOrClean(u)
  {
    assert u.History()[|w.past|] == w.now;
    forall k | u.synced <= k <= |u.past| ensures u.History()[k].pending || Clean(u.History()[k]) {
      if k < |w.past| {
        assert u.History()[k] == w.History()[k];
      } else {
        PendingStays(w, u, {Tidy}, |w.past|, k);
      }
    }
  }

  /** What a boot reset does once its marker is there. */
  function Finish(w: World, lost: bool): (World, Exit) {
    var (w1, discarded) := Discard(w, lost);
    if discarded != Ok then (w1, discarded) else RemoveMarker(w1, ResetPending)
  }

  const FINISH := DISCARD + {ClearPending}

  lemma FinishFollows(w: World, lost: bool)
    requires w.Valid() && WellFormed(w.now) && w.now.pending
    ensures var v := Finish(w, lost).0;
            Follows(w, v, FINISH) && PendingUntilClean(w, v) && (v.enrolled ==> w.enrolled)
  {
    hide PendingUntilClean;
    DiscardFollows(w, lost);
    var (u, discarded) := Discard(w, lost);
    FollowsValid(w, u, DISCARD);
    Widens(w, u, DISCARD, BOOT_RESET);
    Widens(w, u, DISCARD, FINISH);
    PendingBefore(w, u);
    if discarded == Ok {
      RemoveMarkerFollows(u, ResetPending);
      var v := RemoveMarker(u, ResetPending).0;
      Widens(u, v, {ClearPending}, FINISH);
      Chains(w, u, v, FINISH);
      PendingAtLast(w, u, v);
    }
  }

  /** The enrollment is reset only after the link is gone, and synced if it was
      there. */
  lemma FinishKeepsPending(w: World, lost: bool)
    requires w.Valid() && WellFormed(w.now) && w.now.pending && w.enrolled
    requires !w.now.current.Absent? || PendingOrClean(w)
    ensures var v := Finish(w, lost).0; !v.enrolled ==> PendingOrDone(v)
  {
    hide PendingOrDone, PendingOrClean, PendingUntilClean;
    FinishFollows(w, lost);
    var v := Finish(w, lost).0;
    if PendingOrClean(w) {
      CleanUntilDone(w, v);
    } else {
      RemoveCurrentFollows(w);
      var (w1, removed) := RemoveCurrent(w);
      if removed == Ok {
        FollowsValid(w, w1, DISCARD);
        RemovalSettles(w);
        UnlinkedFollows(w1, lost);
        CleanUntilDone(w1, v);
      }
    }
  }

  lemma RemovalSettles(w: World)
    requires w.Valid() && !w.now.current.Absent? && w.now.pending && RemoveCurrent(w).1 == Ok
    ensures PendingOrClean(RemoveCurrent(w).0) && RemoveCurrent(w).0.now.pending && RemoveCurrent(w).0.now.current.Absent?
  {
  }

  /** The same, from where the link is gone. */
  lemma UnlinkedFollows(w1: World, lost: bool)
    requires w1.Valid() && WellFormed(w1.now) && w1.now.pending && w1.now.current.Absent?
    ensures var (w2, reset) := ResetEnrollment(w1, lost);
            var (u, discarded) := if reset != Ok then (w2, reset) else RemoveUnreferenced(w2);
            var v := if discarded != Ok then u else RemoveMarker(u, ResetPending).0;
            Follows(w1, v, FINISH) && PendingUntilClean(w1, v) && (v.enrolled ==> w1.enrolled)
  {
    hide PendingUntilClean;
    ResetEnrollmentFollows(w1, lost, FINISH);
    ResetEnrollmentFollows(w1, lost, BOOT_RESET);
    var (w2, reset) := ResetEnrollment(w1, lost);
    FollowsValid(w1, w2, FINISH);
    PendingBefore(w1, w2);
    if reset == Ok {
      RemoveUnreferencedFollows(w2);
      var (u, discarded) := RemoveUnreferenced(w2);
      Widens(w2, u, {Rewrite}, FINISH);
      Widens(w2, u, {Rewrite}, BOOT_RESET);
      Chains(w1, w2, u, FINISH);
      Chains(w1, w2, u, BOOT_RESET);
      FollowsValid(w1, u, FINISH);
      PendingBefore(w1, u);
      if discarded == Ok {
        FirstIsListed(u.now.generations);
        RemoveMarkerFollows(u, ResetPending);
        var v := RemoveMarker(u, ResetPending).0;
        Widens(u, v, {ClearPending}, FINISH);
        Chains(w1, u, v, FINISH);
        PendingAtLast(w1, u, v);
      }
    }
  }

  lemma CleanUntilDone(w: World, v: World)
    requires PendingOrClean(w) && w.now.pending && Follows(w, v, FINISH) && PendingUntilClean(w, v)
    ensures !v.enrolled ==> PendingOrDone(v)
  {
    assert v.History()[|w.past|] == w.now;
    forall k | v.synced <= k <= |v.past| && !v.enrolled ensures v.History()[k].pending || Clean(v.History()[k]) {
      if k < |w.past| {
        assert v.History()[k] == w.History()[k];
      }
    }
  }

  /** Without a link nothing is synced before the enrollment is reset. */
  lemma ResumedLosesMarker(w: World)
    requires w.Valid() && w.now.pending && w.enrolled && w.now.current.Absent? && !PendingOrClean(w)
    ensures exists faults, lost ::
              var v := Run(w.(faults := faults), BootReset, "", lost).0; !v.enrolled && !PendingOrDone(v)
  {
    var faults := [Pass, Pass, Pass, Pass, Pass, Halt];
    var w0 := w.(faults := faults);
    TidyPasses(w0, [Pass, Pass, Halt]);
    var u := RemoveStaleTemporaries(w0).0;
    ResetThenStop(u);
    assert Run(w0, BootReset, "", true) == BootResetMode(u, true);
    StillLacking(w, u, u.(faults := [], enrolled := false));
  }

  lemma ResetThenStop(u: World)
    requires u.faults == [Pass, Pass, Halt] && u.now.pending && u.now.current.Absent?
    ensures BootResetMode(u, true).0 == u.(faults := [], enrolled := false)
  {
    var u1 := CreateMarker(u, ResetPending).0;
    assert u1 == u.(faults := [Pass, Halt]);
    var u2 := RemoveCurrent(u1).0;
    assert u2 == u.(faults := [Halt]);
    assert u2.faults[1..] == [];
  }

  lemma StillLacking(w: World, u: World, v: World)
    requires w.Valid() && !PendingOrClean(w) && w.History() <= u.History() && u.synced == w.synced
    requires v.past == u.past && v.now == u.now && v.synced == u.synced
    ensures !PendingOrDone(v)
  {
    var k :| w.synced <= k <= |w.past| && !w.History()[k].pending && !Clean(w.History()[k]);
    assert v.History() == u.History();
    assert v.History()[k] == w.History()[k];
  }

  lemma TidyPasses(w: World, rest: seq<Fault>)
    requires w.Valid() && w.faults == [Pass, Pass, Pass] + rest
    ensures var (u, exit) := RemoveStaleTemporaries(w);
            && exit == Ok && u.faults == rest && u.synced == w.synced && u.enrolled == w.enrolled && u.Valid()
            && w.History() <= u.History() && u.now == w.now.(temporaries := u.now.temporaries)
  {
    PassesOnce(w, EnabledTemporary, [Pass, Pass] + rest);
    var w1 := RemoveTemporary(w, EnabledTemporary).0;
    PassesOnce(w1, ResetPendingTemporary, [Pass] + rest);
    PassesOnce(RemoveTemporary(w1, ResetPendingTemporary).0, CurrentTemporary, rest);
  }

  lemma PassesOnce(w: World, t: Temporary, rest: seq<Fault>)
    requires w.Valid() && w.faults == [Pass] + rest
    ensures var (u, exit) := RemoveTemporary(w, t);
            && exit == Ok && u.faults == rest && u.synced == w.synced && u.enrolled == w.enrolled && u.Valid()
            && w.History() <= u.History() && u.now == w.now.(temporaries := u.now.temporaries)
  {
  }

  /** After a power cut one state is left, so that a resumed reset that finds the
      marker keeps its promise, whatever happened before. */
  lemma ResumedAfterPowerCut(w: World, kept: nat, faults: seq<Fault>, lost: bool)
    requires w.synced <= kept <= |w.past| && w.enrolled
    requires var c := Next(w, PowerCut(kept)); WellFormed(c.now) && c.now.pending
    ensures var v := Run(Next(w, PowerCut(kept)).(faults := faults), BootReset, "", lost).0; !v.enrolled ==> PendingOrDone(v)
  {
    var c := Next(w, PowerCut(kept));
    assert c.History() == [c.now];
    ResumedKeepsPending(c, faults, lost);
  }

  /** A boot reset that begins with the marker either stops before it has reset
      anything, or has its marker durable first; from then on every state that a
      power cut can leave is pending or done, wherever it stops. */
  lemma BootResetIsDurable(w: World, lost: bool)
    requires w.Valid() && WellFormed(w.now) && !w.now.pending
    ensures var v := Run(w, BootReset, "", lost).0;
            NothingReset(w, v) || PendingOrDone(v)
  {
    hide NothingReset, PendingOrDone, PendingUntilClean, Finish;
    RemoveStaleFollows(w);
    var (u, tidied) := RemoveStaleTemporaries(w);
    FollowsValid(w, u, {Tidy});
    Widens(w, u, {Tidy}, {Tidy, SetPending});
    if tidied != Ok {
      MarkerResetsNothing(w, u);
    } else {
      CreateMarkerFollows(u, ResetPending);
      BootResetMarksFirst(u, lost);
      MarkedFinishes(u, lost);
      var (u1, created) := CreateMarker(u, ResetPending);
      Chains(w, u, u1, {Tidy, SetPending});
      FollowsValid(w, u1, {Tidy, SetPending});
      if created != Ok {
        MarkerResetsNothing(w, u1);
      } else {
        FinishFollows(u1, lost);
        SettledUntilDone(u1, Finish(u1, lost).0);
      }
    }
  }

  lemma MarkedFinishes(u: World, lost: bool)
    ensures var (u1, created) := CreateMarker(u, ResetPending);
            created == Ok ==> BootResetMode(u, lost) == Finish(u1, lost)
  {
  }

  /** The enrollment and the identity are as before in all states since. */
  ghost predicate NothingReset(w: World, v: World) {
    && v.enrolled == w.enrolled && |w.past| <= |v.past|
    && forall k :: |w.past| <= k <= |v.past| ==>
         v.History()[k].current == w.now.current && v.History()[k].generations == w.now.generations
  }

  lemma MarkerResetsNothing(w: World, v: World)
    requires Follows(w, v, {Tidy, SetPending}) && v.enrolled == w.enrolled
    ensures NothingReset(w, v)
  {
    FollowsValid(w, v, {Tidy, SetPending});
    forall k | |w.past| <= k <= |v.past|
      ensures v.History()[k].current == w.now.current && v.History()[k].generations == w.now.generations
    {
      MarkerKeepsIdentity(w, v, k);
    }
  }

  lemma {:induction false} MarkerKeepsIdentity(w: World, v: World, k: nat)
    requires Follows(w, v, {Tidy, SetPending}) && |w.past| <= k <= |v.past|
    ensures v.History()[k].current == w.now.current && v.History()[k].generations == w.now.generations
  {
    if k == |w.past| {
      assert v.History()[k] == w.History()[k];
    } else {
      MarkerKeepsIdentity(w, v, k - 1);
      assert Allowed({Tidy, SetPending}, v.History()[k - 1], v.History()[k]);
    }
  }

  lemma SettledUntilDone(w: World, v: World)
    requires Settled(w) && w.now.pending && Follows(w, v, FINISH) && PendingUntilClean(w, v)
    ensures PendingOrDone(v)
  {
    assert v.History()[|w.past|] == w.now;
  }

  /** A resumed reset whose start is pending or done stays so, wherever it stops. */
  lemma BootResetFrom(w: World, lost: bool)
    requires w.Valid() && PendingOrDone(w) && WellFormed(w.now) && w.now.pending
    ensures PendingOrDone(Run(w, BootReset, "", lost).0)
  {
    hide PendingOrDone;
    RemoveStaleFollows(w);
    var (u, tidied) := RemoveStaleTemporaries(w);
    TidyKeepsPending(w, u);
    FollowsValid(w, u, {Tidy});
    if tidied == Ok {
      BootResetFollows(u, lost);
      UntilCleanIsDone(u, BootResetMode(u, lost).0);
    }
  }

  lemma TidyKeepsPending(w: World, u: World)
    requires PendingOrDone(w) && w.now.pending && Follows(w, u, {Tidy}) && u.enrolled == w.enrolled
    ensures PendingOrDone(u)
  {
    assert u.History()[|w.past|] == w.now;
    forall k | u.synced <= k <= |u.past| ensures u.History()[k].pending || (Clean(u.History()[k]) && !u.enrolled) {
      if k < |w.past| {
        assert u.History()[k] == w.History()[k];
      } else {
        PendingStays(w, u, {Tidy}, |w.past|, k);
      }
    }
  }

  lemma UntilCleanIsDone(u: World, v: World)
    requires PendingOrDone(u) && u.now.pending && (v.enrolled ==> u.enrolled)
    requires Follows(u, v, BOOT_RESET + {ClearPending}) && PendingUntilClean(u, v)
    ensures PendingOrDone(v)
  {
    assert v.History()[|u.past|] == u.now;
    forall k | v.synced <= k <= |v.past| ensures v.History()[k].pending || (Clean(v.History()[k]) && !v.enrolled) {
      if k < |u.past| {
        assert v.History()[k] == u.History()[k];
      }
    }
  }

  /** A boot reset that begins with the marker creates it durably before it
      resets anything: until then the directory is as before. */
  lemma BootResetMarksFirst(w: World, lost: bool)
    requires w.Valid() && WellFormed(w.now) && !w.now.pending
    ensures var (w1, created) := CreateMarker(w, ResetPending);
            && (created == Ok ==> w1.now.pending && Settled(w1))
            && (created != Ok ==> BootResetMode(w, lost).0 == w1) && w1.enrolled == w.enrolled
            && w1.now.current == w.now.current && w1.now.generations == w.now.generations
  {
    CreateMarkerFollows(w, ResetPending);
  }

  /** A marker whose own sync has failed is not enough: if the reset is run
      again without a restart, resets the enrollment and then loses power, the
      directory is as it was before, with its old generation and no marker. */
  lemma UnsyncedMarkerIsLost() returns (w: World, faults: seq<Fault>)
    ensures w.Valid() && WellFormed(w.now) && w.now.pending && w.enrolled
    ensures var (v, exit) := Run(w.(faults := faults), BootReset, "", false);
            && exit == Stopped && !v.enrolled && v.synced == 0
            && !v.History()[0].pending && v.History()[0].generations != []
  {
    var fs := Fs(false, false, {}, true, Absent, [Stage("gen-0123456789abcdef", STAGES)]);
    w := World([fs], fs.(pending := true), 0, [], true);
    faults := [Pass, Pass, Pass, Pass, Pass, Pass, Halt];
    var u := RemoveStaleTemporaries(w.(faults := faults)).0;
    assert u == w.(faults := [Pass, Pass, Pass, Halt]);
    var u1 := CreateMarker(u, ResetPending).0;
    assert u1 == w.(faults := [Pass, Pass, Halt]);
    var u2 := RemoveCurrent(u1).0;
    assert u2 == w.(faults := [Pass, Halt]);
    var u3 := ResetEnrollment(u2, false).0;
    assert u3 == w.(faults := [Halt], enrolled := false);
    assert u3.faults[1..] == [];
    assert RemoveUnreferenced(u3) == (w.(faults := [], enrolled := false), Stopped);
    assert Discard(u1, false) == RemoveUnreferenced(u3);
    assert BootResetMode(u, false) == Discard(u1, false);
    assert Run(w.(faults := faults), BootReset, "", false) == (w.(faults := [], enrolled := false), Stopped);
    assert w.(faults := [], enrolled := false).History()[0] == fs;
  }

  /** While a reset is pending, enabling fails and changes no state but stale
      temporaries: no identity and no enabled marker is made. */
  lemma EnableWhilePending(w: World, name: string, lost: bool)
    requires w.Valid() && w.now.pending
    ensures var (v, exit) := Run(w, Enable, name, lost);
            exit != Ok && Follows(w, v, {Tidy}) && By(Tidy, w.now, v.now) && v.enrolled == w.enrolled
  {
    RemoveStaleFollows(w);
    var (u, tidied) := RemoveStaleTemporaries(w);
    FollowsValid(w, u, {Tidy});
    if tidied == Ok {
      LookFollows(u, {Tidy});
      Chains(w, u, Look(u).0, {Tidy});
    }
  }

  // ----- Runs that meet no fault -----

  lemma NoFault(w: World, next: Fs)
    requires w.faults == []
    ensures Look(w) == (w, Ok) && Sync(w) == (w.(synced := |w.past|), Ok)
    ensures Act(w, next) == (w.(past := w.past + [w.now], now := next), Ok)
  {
  }

  lemma {:induction false} RemoveEachSucceeds(w: World, names: seq<string>, removed: bool)
    requires w.faults == []
    ensures RemoveEach(w, names, removed).1 == Ok && RemoveEach(w, names, removed).0.faults == []
    decreases |names|
  {
    if names != [] && Some(names[0]) != CurrentGeneration(w.now) {
      RemoveEachSucceeds(RemoveGeneration(w, names[0]).0, names[1..], true);
    } else if names != [] {
      RemoveEachSucceeds(w, names[1..], removed);
    }
  }

  lemma RemoveUnreferencedSucceeds(w: World)
    requires w.faults == []
    ensures RemoveUnreferenced(w).1 == Ok && RemoveUnreferenced(w).0.faults == []
  {
    NoFault(w, w.now);
    RemoveEachSucceeds(w, Names(w.now.generations), false);
  }

  lemma MarkersSucceed(w: World, m: Marker)
    requires w.faults == []
    ensures RemoveMarker(w, m).1 == Ok && RemoveMarker(w, m).0.faults == []
    ensures TemporaryOf(m) !in w.now.temporaries ==> CreateMarker(w, m).1 == Ok && CreateMarker(w, m).0.faults == []
  {
  }

  lemma DiscardSucceeds(w: World, lost: bool)
    requires w.faults == []
    ensures Discard(w, lost).1 == Ok && Discard(w, lost).0.faults == []
  {
    var w1 := RemoveCurrent(w).0;
    RemoveUnreferencedSucceeds(ResetEnrollment(w1, lost).0);
  }

  lemma RemoveStaleSucceeds(w: World)
    requires w.faults == []
    ensures RemoveStaleTemporaries(w).1 == Ok && RemoveStaleTemporaries(w).0.faults == []
  {
  }

  /** From whatever state earlier attempts have left, an uninterrupted boot
      reset ends with nothing left and its marker cleared. */
  lemma BootResetFinishes(w: World, lost: bool)
    requires w.Valid() && WellFormed(w.now) && w.faults == []
    ensures var (v, exit) := Run(w, BootReset, "", lost);
            exit == Ok && Clean(v.now) && !v.now.pending && !v.enrolled
  {
    RemoveStaleSucceeds(w);
    RemoveStaleFollows(w);
    var u := RemoveStaleTemporaries(w).0;
    FollowsValid(w, u, {Tidy});
    MarkersSucceed(u, ResetPending);
    DiscardSucceeds(CreateMarker(u, ResetPending).0, lost);
    MarkersSucceed(Discard(CreateMarker(u, ResetPending).0, lost).0, ResetPending);
    BootResetFollows(u, lost);
  }

  lemma {:induction false} FillSucceeds(w: World, name: string, k: nat)
    requires w.faults == [] && k <= STAGES
    ensures FillFrom(w, name, k).1 == Ok && FillFrom(w, name, k).0.faults == []
    decreases STAGES - k
  {
    if k < STAGES {
      var w1 := Act(w, Put(w.now, Stage(name, k + 1))).0;
      FillSucceeds(if k + 1 == 4 then Sync(w1).0 else w1, name, k + 1);
    }
  }

  lemma GenerateSucceeds(w: World, name: string)
    requires w.Valid() && WellFormed(w.now) && w.faults == [] && Some(name) != CurrentGeneration(w.now)
    ensures GenerateIdentity(w, name).1 == Ok && GenerateIdentity(w, name).0.faults == []
  {
    EnsureTlsFollows(w);
    var w1 := EnsureTls(w).0;
    FollowsValid(w, w1, {Rewrite});
    RemoveUnreferencedSucceeds(w1);
    RemoveUnreferencedFollows(w1);
    var w2 := RemoveUnreferenced(w1).0;
    assert !Listed(w2.now, name);
    FillSucceeds(Act(w2, Put(w2.now, Stage(name, 0))).0, name, 0);
  }

  lemma SwapSucceeds(w: World, name: string)
    requires w.faults == [] && CurrentTemporary !in w.now.temporaries
    ensures SwapCurrent(w, name).1 == Ok && SwapCurrent(w, name).0.faults == []
  {
  }

  /** A rotation that meets no fault and draws a new name succeeds, and any
      rotation that succeeds leaves exactly the new, complete generation,
      durably; even from a broken identity. */
  lemma RotationReplaces(w: World, name: string, lost: bool)
    requires w.Valid() && WellFormed(w.now) && Fresh(w.now, name)
    ensures var (v, exit) := Run(w, RotateTls, name, lost);
            && (exit == Ok ==> Settled(v) && Rotated(w.now, v.now, name) && Good(v.now))
            && (w.faults == [] && Some(name) != CurrentGeneration(w.now) ==> exit == Ok && v.faults == [])
  {
    RemoveStaleFollows(w);
    var (u, tidied) := RemoveStaleTemporaries(w);
    FollowsValid(w, u, {Tidy});
    if tidied == Ok {
      RotateFollows(u, name);
    }
    if w.faults == [] && Some(name) != CurrentGeneration(w.now) {
      RemoveStaleSucceeds(w);
      RotateSucceeds(u, name);
    }
  }

  lemma RotateSucceeds(w: World, name: string)
    requires w.Valid() && WellFormed(w.now) && w.faults == [] && w.now.temporaries == {}
    requires Some(name) != CurrentGeneration(w.now)
    ensures Rotate(w, name).1 == Ok && Rotate(w, name).0.faults == []
  {
    GenerateSucceeds(w, name);
    GenerateFollows(w, name);
    SwapSucceeds(GenerateIdentity(w, name).0, name);
    RemoveUnreferencedSucceeds(SwapCurrent(GenerateIdentity(w, name).0, name).0);
  }

  /** The link names a generation with its key and certificate, and a fingerprint
      that is valid. */
  ghost predicate Usable(fs: Fs) {
    exists g :: g in fs.generations && fs.current == To(g.name)
                && g.key != Missing && g.certificate != Missing && g.fingerprint == Whole
  }

  lemma TidiedWithoutFault(w: World)
    requires w.Valid() && w.faults == []
    ensures var (u, exit) := RemoveStaleTemporaries(w);
            && exit == Ok && u.faults == [] && u.Valid() && u.now == w.now.(temporaries := {}) && u.enrolled == w.enrolled
  {
    RemoveStaleSucceeds(w);
    RemoveStaleFollows(w);
    FollowsValid(w, RemoveStaleTemporaries(w).0, {Tidy});
  }

  /** An enabling that meets no fault succeeds exactly if no reset is pending and
      there is no identity yet or a usable one; it then leaves the marker, and the
      identity that was there or a new one. */
  lemma EnableDecides(w: World, name: string, lost: bool)
    requires w.Valid() && WellFormed(w.now) && w.faults == []
    ensures var (v, exit) := Run(w, Enable, name, lost);
            && exit == (if !w.now.pending && (w.now.current.Absent? || Usable(w.now)) then Ok else Failed)
            && v.faults == [] && !exit.Stopped?
            && (exit == Ok ==> v.now.enabled && v.now.current == if w.now.current.Absent? then To(name) else w.now.current)
  {
    TidiedWithoutFault(w);
    var u := RemoveStaleTemporaries(w).0;
    UsableMeans(u.now);
    UsableMeans(w.now);
    if !u.now.pending && u.now.current.Absent? {
      EnablesAnew(u, name);
    } else if !u.now.pending && Usable(u.now) {
      MarkersSucceed(u, Enabled);
      MarkerSetWithoutFault(u, Enabled);
    }
  }

  lemma EnablesAnew(w: World, name: string)
    requires w.Valid() && WellFormed(w.now) && w.faults == [] && w.now.temporaries == {}
    requires !w.now.pending && w.now.current.Absent?
    ensures var (v, exit) := EnableMode(w, name);
            exit == Ok && v.faults == [] && v.now.enabled && v.now.current == To(name)
  {
    RotateSucceeds(w, name);
    RotateFollows(w, name);
    var u := Rotate(w, name).0;
    EnablesAfterRotation(w, name);
    RotatedTidily(w, name);
    MarkersSucceed(u, Enabled);
    MarkerSetWithoutFault(u, Enabled);
  }

  lemma RotatedTidily(w: World, name: string)
    requires w.Valid() && WellFormed(w.now) && w.faults == [] && w.now.temporaries == {} && w.now.current.Absent?
    ensures Rotate(w, name).0.now.temporaries == {}
  {
    GenerateSucceeds(w, name);
    GenerateFollows(w, name);
    var w1 := GenerateIdentity(w, name).0;
    FollowsValid(w, w1, {Rewrite});
    SwapsTidily(w1, name);
    var w2 := SwapCurrent(w1, name).0;
    RemoveUnreferencedFollows(w2);
    assert Rotate(w, name) == RemoveUnreferenced(w2);
  }

  lemma SwapsTidily(w: World, name: string)
    requires w.Valid() && w.faults == [] && w.now.temporaries == {} && WellFormed(w.now)
    ensures var (v, exit) := SwapCurrent(w, name);
            exit == Ok && v.Valid() && v.now == w.now.(current := To(name)) && v.faults == []
  {
  }

  lemma EnablesAfterRotation(w: World, name: string)
    requires w.faults == [] && !w.now.pending && w.now.current.Absent? && Rotate(w, name).1 == Ok
    ensures EnableMode(w, name) == CreateMarker(Rotate(w, name).0, Enabled)
  {
  }

  lemma UsableMeans(fs: Fs)
    ensures Usable(fs) <==> CurrentIdentity(fs).Identity?
    ensures fs.current.Absent? <==> CurrentIdentity(fs).NoIdentity?
  {
  }

  lemma MarkerSetWithoutFault(w: World, m: Marker)
    requires w.faults == [] && TemporaryOf(m) !in w.now.temporaries
    ensures CreateMarker(w, m).0.now.Has(m) && CreateMarker(w, m).0.now.current == w.now.current
  {
  }

  /** A disabling that meets no fault always succeeds, and nothing but the marker
      and stale temporaries goes; whenever one succeeds the removal is durable. */
  lemma DisableDecides(w: World, name: string, lost: bool)
    requires w.Valid()
    ensures var (v, exit) := Run(w, Disable, name, lost);
            && (w.faults == [] ==> exit == Ok && v.faults == [])
            && (exit == Ok ==> v.now == w.now.(enabled := false, temporaries := {}) && (w.now.enabled ==> Settled(v)))
            && v.enrolled == w.enrolled && v.now == w.now.(enabled := v.now.enabled, temporaries := v.now.temporaries)
  {
    RemoveStaleFollows(w);
    var (u, tidied) := RemoveStaleTemporaries(w);
    FollowsValid(w, u, {Tidy});
    if w.faults == [] {
      RemoveStaleSucceeds(w);
      MarkersSucceed(u, Enabled);
    }
    RemoveMarkerFollows(u, Enabled);
  }

  // ----- Runs in which one step fails -----

  /** A single failure ahead. */
  predicate OneFault(faults: seq<Fault>) {
    faults != [] && if faults[0] == Pass then OneFault(faults[1..]) else faults == [Fail]
  }

  /** A step, a sync or a check either passes, with the failure still ahead, or
      was the one that failed. */
  lemma OneStep(w: World, next: Fs)
    requires OneFault(w.faults)
    ensures var (v, exit) := Act(w, next);
            if exit == Ok then OneFault(v.faults) && v.now == next else exit == Failed && v.faults == [] && v.now == w.now
    ensures var (v, exit) := Sync(w);
            v.now == w.now && if exit == Ok then OneFault(v.faults) else exit == Failed && v.faults == []
    ensures var (v, exit) := Look(w);
            v.now == w.now && if exit == Ok then OneFault(v.faults) else exit == Failed && v.faults == []
  {
  }

  /** What was undone without a further fault. */
  lemma UndoneWithoutFault(r: (World, Exit), next: Fs)
    requires r.1 == Failed && r.0.faults == []
    ensures Undo(r, next).1 == Failed && Undo(r, next).0.now == next && Undo(r, next).0.faults == []
  {
  }

  lemma WriteMeetsOneFault(w: World, m: Marker)
    requires OneFault(w.faults) && TemporaryOf(m) !in w.now.temporaries
    ensures var (v, exit) := WriteMarker(w, m);
            && (if exit == Ok then OneFault(v.faults) else exit == Failed && v.faults == [])
            && v.now.temporaries - {TemporaryOf(m)} == w.now.temporaries
            && (exit == Ok ==> v.now.temporaries == w.now.temporaries)
  {
    var next := w.now.(temporaries := w.now.temporaries + {TemporaryOf(m)});
    OneStep(w, next);
    var (w1, created) := Act(w, next);
    if created == Ok {
      OneStep(w1, w1.now);
      var (w2, synced) := Sync(w1);
      if synced == Ok {
        var final := w2.now.With(m, true).(temporaries := w2.now.temporaries - {TemporaryOf(m)});
        OneStep(w2, final);
        var (w3, renamed) := Act(w2, final);
        if renamed == Ok { OneStep(w3, w3.now); }
      }
    }
  }

  /** A marker that could not be created leaves no temporary. */
  lemma CreateMarkerTidies(w: World, m: Marker)
    requires OneFault(w.faults) && TemporaryOf(m) !in w.now.temporaries
    ensures var (v, exit) := CreateMarker(w, m);
            && v.now.temporaries == w.now.temporaries && (if exit == Ok then OneFault(v.faults) else exit == Failed && v.faults == [])
  {
    OneStep(w, w.now);
    var (w1, looked) := Look(w);
    if looked == Ok && !w1.now.Has(m) {
      WriteMeetsOneFault(w1, m);
      var r := WriteMarker(w1, m);
      if r.1 == Failed {
        UndoneWithoutFault(r, r.0.now.(temporaries := r.0.now.temporaries - {TemporaryOf(m)}));
      }
    }
  }

  /** Nor does a link that could not be replaced. */
  lemma SwapTidies(w: World, name: string)
    requires OneFault(w.faults) && CurrentTemporary !in w.now.temporaries
    ensures var (v, exit) := SwapCurrent(w, name);
            && v.now.temporaries == w.now.temporaries && (if exit == Ok then OneFault(v.faults) else exit == Failed && v.faults == [])
            && v.now.generations == w.now.generations && v.now.current in {w.now.current, To(name)}
  {
    var next := w.now.(temporaries := w.now.temporaries + {CurrentTemporary});
    OneStep(w, next);
    var (w1, linked) := Act(w, next);
    if linked == Ok {
      var swapped := w1.now.(temporaries := w1.now.temporaries - {CurrentTemporary}, current := To(name));
      OneStep(w1, swapped);
      var (w2, renamed) := Act(w1, swapped);
      if renamed == Ok { OneStep(w2, w2.now); }
    }
  }

  /** Filling a generation meets the failure or not, and touches no other name. */
  lemma {:induction false} FillMeetsOneFault(w: World, name: string, k: nat)
    requires OneFault(w.faults) && k <= STAGES && Distinct(w.now)
    ensures var (v, exit) := FillFrom(w, name, k);
            && (if exit == Ok then OneFault(v.faults) else exit == Failed && v.faults == [])
            && Distinct(v.now)
    decreases STAGES - k
  {
    if k < STAGES {
      var next := Put(w.now, Stage(name, k + 1));
      PutKeepsDistinct(w.now, Stage(name, k + 1));
      OneStep(w, next);
      var (w1, grown) := Act(w, next);
      if grown == Ok {
        if k + 1 == 4 { OneStep(w1, w1.now); }
        var (w2, synced) := if k + 1 == 4 then Sync(w1) else (w1, Ok);
        if synced == Ok { FillMeetsOneFault(w2, name, k + 1); }
      }
    } else {
      OneStep(w, w.now);
    }
  }

  lemma RemovedWithoutFault(w: World, name: string)
    requires w.faults == [] && Distinct(w.now)
    ensures var (v, exit) := RemoveGeneration(w, name);
            exit == Ok && v.faults == [] && !Listed(v.now, name)
  {
    var empty := Generation(name, Missing, Missing, Missing);
    PutKeepsDistinct(w.now, empty);
    var fs := Put(w.now, empty);
    WithoutNames(fs, name);
  }

  lemma PutKeepsDistinct(fs: Fs, g: Generation)
    requires Distinct(fs)
    ensures Distinct(Put(fs, g))
  {
  }

  lemma WithoutNames(fs: Fs, name: string)
    requires Distinct(fs)
    ensures !Listed(Without(fs, name), name)
  {
  }

  /** Removing generations brings no name. */
  lemma {:induction false} RemoveEachNames(w: World, names: seq<string>, removed: bool)
    requires w.Valid() && w.now.tls
    ensures forall n :: Listed(RemoveEach(w, names, removed).0.now, n) ==> Listed(w.now, n) || n in names
    decreases |names|
  {
    if names != [] {
      if Some(names[0]) == CurrentGeneration(w.now) {
        RemoveEachNames(w, names[1..], removed);
      } else {
        RemoveGenerationFollows(w, names[0]);
        var (w1, gone) := RemoveGeneration(w, names[0]);
        FollowsValid(w, w1, {Rewrite});
        if gone == Ok { RemoveEachNames(w1, names[1..], true); }
      }
    }
  }

  lemma RemoveUnreferencedNames(w: World, name: string)
    requires w.Valid() && !Listed(w.now, name)
    ensures !Listed(RemoveUnreferenced(w).0.now, name)
  {
    LookFollows(w, {});
    FollowsValid(w, Look(w).0, {});
    if Look(w).0.now.tls {
      RemoveEachNames(Look(w).0, Names(Look(w).0.now.generations), false);
    }
  }

  lemma {:induction false} RemoveEachMeetsOneFault(w: World, names: seq<string>, removed: bool)
    requires OneFault(w.faults)
    ensures var (v, exit) := RemoveEach(w, names, removed); exit == Ok ==> OneFault(v.faults)
    decreases |names|
  {
    if names == [] {
      OneStep(w, w.now);
    } else if Some(names[0]) == CurrentGeneration(w.now) {
      RemoveEachMeetsOneFault(w, names[1..], removed);
    } else {
      var emptied := Put(w.now, Generation(names[0], Missing, Missing, Missing));
      OneStep(w, emptied);
      var w1 := Act(w, emptied).0;
      if Act(w, emptied).1 == Ok {
        OneStep(w1, Without(w1.now, names[0]));
        if RemoveGeneration(w, names[0]).1 == Ok {
          RemoveEachMeetsOneFault(RemoveGeneration(w, names[0]).0, names[1..], true);
        }
      }
    }
  }

  /** Making an identity prepares the directory without the new name. */
  lemma PreparesWithoutName(w: World, name: string)
    requires w.Valid() && WellFormed(w.now) && OneFault(w.faults) && !Listed(w.now, name)
    ensures var (w1, ensured) := EnsureTls(w);
            && !Listed(w1.now, name)
            && (ensured == Ok ==>
                  var (w2, cleaned) := RemoveUnreferenced(w1);
                  !Listed(w2.now, name) && Distinct(w2.now) && (cleaned == Ok ==> OneFault(w2.faults)))
  {
    EnsureTlsFollows(w);
    var (w1, ensured) := EnsureTls(w);
    FollowsValid(w, w1, {Rewrite});
    EnsureMeetsOneFault(w);
    if ensured == Ok {
      RemoveUnreferencedNames(w1, name);
      RemoveUnreferencedFollows(w1);
      OneStep(w1, w1.now);
      if Look(w1).1 == Ok {
        RemoveEachMeetsOneFault(Look(w1).0, Names(Look(w1).0.now.generations), false);
      }
    }
  }

  lemma EnsureMeetsOneFault(w: World)
    requires OneFault(w.faults)
    ensures var (v, exit) := EnsureTls(w);
            v.now.generations == w.now.generations && (exit == Ok ==> OneFault(v.faults))
  {
    OneStep(w, w.now.(tls := true));
    OneStep(w, w.now);
    var (w1, made) := Act(w, w.now.(tls := true));
    if made == Ok {
      OneStep(w1, w1.now);
    }
  }

  /** A generation that could not be completed is removed again: after a single
      failure nothing of the new name is left. */
  lemma GenerateTidies(w: World, name: string)
    requires w.Valid() && WellFormed(w.now) && OneFault(w.faults) && !Listed(w.now, name)
    ensures var (v, exit) := GenerateIdentity(w, name); exit == Ok || !Listed(v.now, name)
  {
    PreparesWithoutName(w, name);
    var (w1, ensured) := EnsureTls(w);
    if ensured == Ok && RemoveUnreferenced(w1).1 == Ok {
      var w2 := RemoveUnreferenced(w1).0;
      var next := Put(w2.now, Stage(name, 0));
      OneStep(w2, next);
      PutKeepsDistinct(w2.now, Stage(name, 0));
      if Act(w2, next).1 == Ok {
        var w3 := Act(w2, next).0;
        FillMeetsOneFault(w3, name, 0);
        if FillFrom(w3, name, 0).1 == Failed {
          RemovedWithoutFault(FillFrom(w3, name, 0).0, name);
        }
      }
    }
  }
}
