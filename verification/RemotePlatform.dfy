/** The remote-management sequences of platformd/src/remote.rs over the worker,
    sl-authd and sl-remoted. */
module RemotePlatform {
  import opened Durable
  import opened Prelude
  import opened RemoteState
  import opened RemoteTheorems
  import opened RemoteRuns
  import RemoteWorker

  /** The directory with its log, whether sl-remoted runs, and whether sl-authd
      has a pending pairing. */
  datatype Platform = Platform(w: World, remoted: bool, paired: bool)

  datatype PlatformError = Busy | ResetIncomplete | RemoteUnavailable | AuthUnavailable

  datatype Reply = Done | Error(error: PlatformError) | Halted

  /** The random name, and whether an effect takes place although its call is
      reported as failed. */
  datatype Inputs = Inputs(name: string, lostReset: bool, stoppedLate: bool, startedLate: bool, lostPairing: bool)

  function Reported(exit: Exit, error: PlatformError): Reply {
    match exit
    case Ok => Done
    case Failed => Error(error)
    case Stopped => Halted
  }

  function Worker(p: Platform, mode: Mode, input: Inputs): (Platform, Reply) {
    var (w, exit) := Run(p.w, mode, input.name, input.lostReset);
    (p.(w := w), Reported(exit, RemoteUnavailable))
  }

  function Probe(p: Platform): (Platform, Reply) {
    var (w, exit) := Look(p.w);
    (p.(w := w), Reported(exit, RemoteUnavailable))
  }

  /** `EnsurePendingPairing` of sl-authd: a pairing for a machine without an
      enrollment. */
  function EnsurePairing(p: Platform, input: Inputs): (Platform, Reply) {
    var (w, exit) := Look(p.w);
    (p.(w := w, paired := p.paired || ((exit == Ok || input.lostPairing) && !p.w.enrolled)), Reported(exit, AuthUnavailable))
  }

  /** `CancelPendingPairing` of sl-authd. */
  function CancelPairing(p: Platform, input: Inputs): (Platform, Reply) {
    var (w, exit) := Look(p.w);
    (p.(w := w, paired := p.paired && exit != Ok && !input.lostPairing), Reported(exit, AuthUnavailable))
  }

  function AuthReset(p: Platform, input: Inputs): (Platform, Reply) {
    var (w, exit) := ResetEnrollment(p.w, input.lostReset);
    (p.(w := w, paired := p.paired && exit != Ok && !input.lostReset), Reported(exit, AuthUnavailable))
  }

  /** The conditions of sl-remoted.service. */
  predicate CanStart(fs: Fs) {
    fs.enabled && !fs.pending && !fs.current.Absent?
  }

  function StartRemoted(p: Platform, input: Inputs): (Platform, Reply) {
    var (w, exit) := Look(p.w);
    if p.remoted then (p.(w := w), Reported(exit, RemoteUnavailable))
    else if !CanStart(p.w.now) then (p.(w := w), if exit == Stopped then Halted else Error(RemoteUnavailable))
    else (p.(w := w, remoted := exit == Ok || input.startedLate), Reported(exit, RemoteUnavailable))
  }

  function StopRemoted(p: Platform, input: Inputs): (Platform, Reply) {
    var (w, exit) := Look(p.w);
    (p.(w := w, remoted := p.remoted && exit != Ok && !input.stoppedLate), Reported(exit, RemoteUnavailable))
  }

  function EnableRemote(p: Platform, input: Inputs): (Platform, Reply) {
    var (p1, probed) := Probe(p);
    if probed != Done then (p1, probed)
    else if p1.w.now.pending then (p1, Error(ResetIncomplete))
    else
      var (p2, worked) := Worker(p1, Enable, input);
      if worked != Done then (p2, worked)
      else
        var (p3, paired) := EnsurePairing(p2, input);
        if paired != Done then (p3, paired) else StartRemoted(p3, input)
  }

  function DisableRemote(p: Platform, input: Inputs): (Platform, Reply) {
    var (p1, worked) := Worker(p, Disable, input);
    if worked != Done then (p1, worked)
    else
      var (p2, stopped) := StopRemoted(p1, input);
      if stopped != Done then (p2, stopped) else CancelPairing(p2, input)
  }

  function Reenroll(p: Platform, input: Inputs): (Platform, Reply) {
    var (p1, stopped) := StopRemoted(p, input);
    if stopped != Done then (p1, stopped)
    else
      var (p2, reset) := AuthReset(p1, input);
      if reset != Done then (p2, reset)
      else
        var (p3, rotated) := Worker(p2, RotateTls, input);
        if rotated != Done then (p3, rotated) else Converge(p3, input)
  }

  /** The rest of `reenroll`: the pairing, the marker, the service. */
  function Converge(p: Platform, input: Inputs): (Platform, Reply) {
    var (p1, probed) := Probe(p);
    if probed != Done then (p1, probed)
    else
      var enabled := p1.w.now.enabled;
      var (p2, paired) := if enabled then EnsurePairing(p1, input) else (p1, Done);
      if paired != Done then (p2, paired)
      else
        var (p3, cleared) := ClearPendingReset(p2, input);
        if cleared != Done || !enabled then (p3, cleared) else StartRemoted(p3, input)
  }

  function ClearPendingReset(p: Platform, input: Inputs): (Platform, Reply) {
    var (p1, probed) := Probe(p);
    if probed != Done || !p1.w.now.pending then (p1, probed) else Worker(p1, ClearResetPending, input)
  }

  class Lifecycle {
    const worker: RemoteWorker.Worker
    var remoted: bool
    var paired: bool
    var permits: nat

    constructor (worker: RemoteWorker.Worker, remoted: bool, paired: bool)
      ensures this.worker == worker && this.remoted == remoted && this.paired == paired && permits == 1
    {
      this.worker, this.remoted, this.paired, permits := worker, remoted, paired, 1;
    }

    ghost function Abs(): Platform
      reads this, worker
    {
      Platform(worker.Abs(), remoted, paired)
    }

    method RunWorker(mode: Mode, input: Inputs) returns (r: Reply)
      modifies worker
      ensures (Abs(), r) == Worker(old(Abs()), mode, input)
    {
      var exit := worker.RunMode(mode, input.name, input.lostReset);
      return Reported(exit, RemoteUnavailable);
    }

    method Call(error: PlatformError) returns (r: Reply)
      modifies worker
      ensures Abs() == old(Abs()).(w := Look(old(worker.Abs())).0)
      ensures r == Reported(Look(old(worker.Abs())).1, error)
    {
      var exit := worker.Check();
      return Reported(exit, error);
    }

    method Pair(input: Inputs) returns (r: Reply)
      modifies this`paired, worker
      ensures (Abs(), r) == EnsurePairing(old(Abs()), input)
    {
      r := Call(AuthUnavailable);
      if (r == Done || input.lostPairing) && !worker.enrolled {
        paired := true;
      }
    }

    method Unpair(input: Inputs) returns (r: Reply)
      modifies this`paired, worker
      ensures (Abs(), r) == CancelPairing(old(Abs()), input)
    {
      r := Call(AuthUnavailable);
      if r == Done || input.lostPairing {
        paired := false;
      }
    }

    method ResetPaired(input: Inputs) returns (r: Reply)
      modifies this`paired, worker
      ensures (Abs(), r) == AuthReset(old(Abs()), input)
    {
      var exit := worker.ResetAuth(input.lostReset);
      if exit == Ok || input.lostReset {
        paired := false;
      }
      return Reported(exit, AuthUnavailable);
    }

    method Start(input: Inputs) returns (r: Reply)
      modifies this`remoted, worker
      ensures (Abs(), r) == StartRemoted(old(Abs()), input)
    {
      r := Call(RemoteUnavailable);
      if remoted {
        return;
      }
      if !CanStart(worker.fs) {
        return if r == Halted then Halted else Error(RemoteUnavailable);
      }
      remoted := r == Done || input.startedLate;
    }

    method Stop(input: Inputs) returns (r: Reply)
      modifies this`remoted, worker
      ensures (Abs(), r) == StopRemoted(old(Abs()), input)
    {
      r := Call(RemoteUnavailable);
      remoted := remoted && r != Done && !input.stoppedLate;
    }

    /** remote.rs `enable`; the permit is held until it returns. */
    method Enable(input: Inputs) returns (r: Reply)
      modifies this, worker
      ensures permits == old(permits)
      ensures old(permits) == 0 ==> r == Error(Busy) && Abs() == old(Abs())
      ensures old(permits) > 0 ==> (Abs(), r) == EnableRemote(old(Abs()), input)
    {
      if permits == 0 {
        return Error(Busy);
      }
      permits := permits - 1;
      r := Call(RemoteUnavailable);
      if r == Done {
        if worker.fs.pending {
          r := Error(ResetIncomplete);
        } else {
          r := RunWorker(RemoteState.Enable, input);
          if r == Done {
            r := Pair(input);
          }
          if r == Done {
            r := Start(input);
          }
        }
      }
      permits := permits + 1;
    }

    /** remote.rs `disable`. */
    method Disable(input: Inputs) returns (r: Reply)
      modifies this, worker
      ensures permits == old(permits)
      ensures old(permits) == 0 ==> r == Error(Busy) && Abs() == old(Abs())
      ensures old(permits) > 0 ==> (Abs(), r) == DisableRemote(old(Abs()), input)
    {
      if permits == 0 {
        return Error(Busy);
      }
      permits := permits - 1;
      r := RunWorker(RemoteState.Disable, input);
      if r == Done {
        r := Stop(input);
        if r == Done {
          r := Unpair(input);
        }
      }
      permits := permits + 1;
    }

    /** remote.rs `reenroll`. */
    method ReenrollAll(input: Inputs) returns (r: Reply)
      modifies this, worker
      ensures permits == old(permits)
      ensures old(permits) == 0 ==> r == Error(Busy) && Abs() == old(Abs())
      ensures old(permits) > 0 ==> (Abs(), r) == Reenroll(old(Abs()), input)
    {
      if permits == 0 {
        return Error(Busy);
      }
      permits := permits - 1;
      r := Stop(input);
      if r == Done {
        r := ResetPaired(input);
        if r == Done {
          r := RunWorker(RotateTls, input);
          if r == Done {
            r := ConvergeAll(input);
          }
        }
      }
      permits := permits + 1;
    }

    method ConvergeAll(input: Inputs) returns (r: Reply)
      modifies this`remoted, this`paired, worker
      ensures (Abs(), r) == Converge(old(Abs()), input)
    {
      r := Call(RemoteUnavailable);
      if r != Done {
        return;
      }
      var enabled := worker.fs.enabled;
      if enabled {
        r := Pair(input);
        if r != Done {
          return;
        }
      }
      r := Call(RemoteUnavailable);
      if r != Done {
        return;
      }
      if worker.fs.pending {
        r := RunWorker(ClearResetPending, input);
        if r != Done {
          return;
        }
      }
      if enabled {
        r := Start(input);
      }
    }
  }

  // ----- What the sequences guarantee -----

  /** Enabling while a reset is pending fails before any side effect. */
  lemma EnableIsRefused(p: Platform, input: Inputs)
    requires p.w.now.pending
    ensures var (q, r) := EnableRemote(p, input);
            r != Done && q == p.(w := p.w.(faults := q.w.faults))
  {
  }

  lemma EnableRunEnds(w: World, input: Inputs)
    requires w.Valid() && WellFormed(w.now)
    ensures var (v, exit) := Run(w, RemoteState.Enable, input.name, input.lostReset);
            && (exit == Ok ==> v.now.enabled && CurrentIdentity(v.now).Identity? && !v.now.pending)
            && (CurrentIdentity(w.now).Identity? ==> v.now.current == w.now.current && v.now.generations == w.now.generations)
  {
    RemoveStaleFollows(w);
    var (u, tidied) := RemoveStaleTemporaries(w);
    FollowsValid(w, u, {Tidy});
    if tidied == Ok {
      EnableFollows(u, input.name);
    }
  }

  /** Enabling ends with the marker, a usable identity, a pairing if there is no
      enrollment, and a running service, which is not started before; it never
      replaces an identity that is there. */
  lemma EnableEnds(p: Platform, input: Inputs)
    requires p.w.Valid() && WellFormed(p.w.now)
    ensures var (q, r) := EnableRemote(p, input);
            && (r == Done ==> q.remoted && q.w.now.enabled && CurrentIdentity(q.w.now).Identity? && !q.w.now.pending)
            && (r == Done || (q.remoted && !p.remoted) ==> q.paired || q.w.enrolled)
            && (CurrentIdentity(p.w.now).Identity? ==> q.w.now.current == p.w.now.current && q.w.now.generations == p.w.now.generations)
  {
    hide Worker, Probe, StartRemoted, EnsurePairing;
    CallFollows(p, input, {});
    var p1 := Probe(p).0;
    EnableRunEnds(p1.w, input);
    WorkerRuns(p1, RemoteState.Enable, input);
    var p2 := Worker(p1, RemoteState.Enable, input).0;
    EnableRunIsValid(p1.w, input);
    CallFollows(p2, input, {});
    PairsUnenrolled(p2, input);
    StartFollows(EnsurePairing(p2, input).0, input, {});
  }

  lemma PairsUnenrolled(p: Platform, input: Inputs)
    ensures var (q, r) := EnsurePairing(p, input); r == Done ==> q.paired || q.w.enrolled
  {
  }

  lemma EnableRunIsValid(w: World, input: Inputs)
    requires w.Valid() && WellFormed(w.now)
    ensures Run(w, RemoteState.Enable, input.name, input.lostReset).0.Valid()
  {
    RunFollows(w, RemoteState.Enable, input.name, input.lostReset);
    FollowsValid(w, Run(w, RemoteState.Enable, input.name, input.lostReset).0, KindsOf(RemoteState.Enable));
  }

  lemma WorkerRuns(p: Platform, mode: Mode, input: Inputs)
    ensures Worker(p, mode, input).0 == p.(w := Run(p.w, mode, input.name, input.lostReset).0)
    ensures Worker(p, mode, input).1 == Done <==> Run(p.w, mode, input.name, input.lostReset).1 == Ok
  {
  }

  /** Without faults, enabling succeeds exactly if no reset is pending and there is
      no identity or a usable one. */
  lemma EnableSucceeds(p: Platform, input: Inputs)
    requires p.w.Valid() && WellFormed(p.w.now) && p.w.faults == []
    ensures EnableRemote(p, input).1 ==
            if p.w.now.pending then Error(ResetIncomplete)
            else if p.w.now.current.Absent? || Usable(p.w.now) then Done else Error(RemoteUnavailable)
  {
    hide Usable;
    EnableDecides(p.w, input.name, input.lostReset);
    EnableRunEnds(p.w, input);
    var p1 := Worker(p, RemoteState.Enable, input).0;
    assert Probe(p) == (p, Done);
  }

  /** Without faults, disabling succeeds from every state. */
  lemma DisableSucceeds(p: Platform, input: Inputs)
    requires p.w.Valid() && p.w.faults == []
    ensures var (q, r) := DisableRemote(p, input);
            r == Done && !q.remoted && !q.paired && q.w.now == p.w.now.(enabled := false, temporaries := {})
  {
    DisableDecides(p.w, input.name, input.lostReset);
  }

  /** Disabling ends with neither marker, service nor pairing, and keeps the link and its
      generations however it ends. */
  lemma DisableEnds(p: Platform, input: Inputs)
    requires p.w.Valid()
    ensures var (q, r) := DisableRemote(p, input);
            && (r == Done ==> !q.remoted && !q.w.now.enabled && !q.paired)
            && q.w.now.current == p.w.now.current && q.w.now.generations == p.w.now.generations
  {
    DisableDecides(p.w, input.name, input.lostReset);
  }

  lemma StopFollows(p: Platform, input: Inputs)
    requires p.w.Valid()
    ensures var (q, r) := StopRemoted(p, input);
            && q.w.Valid() && q.w.now == p.w.now && q.w.past == p.w.past && q.w.synced == p.w.synced && q.w.enrolled == p.w.enrolled
            && (r == Done ==> !q.remoted) && (q.remoted ==> p.remoted) && q.paired == p.paired
  {
  }

  /** The state once `reenroll` has rotated the identity. */
  ghost predicate Renewed(p: Platform, q: Platform, name: string) {
    && Follows(p.w, q.w, ROTATION) && !q.remoted && !q.w.enrolled && !q.paired
    && Rotated(p.w.now, q.w.now, name) && WellFormed(q.w.now) && Settled(q.w)
    && q.w.now.enabled == p.w.now.enabled && q.w.now.pending == p.w.now.pending
  }

  lemma ReenrollRenews(p: Platform, input: Inputs)
    requires p.w.Valid() && WellFormed(p.w.now) && Fresh(p.w.now, input.name)
    ensures var (q, r) := Reenroll(p, input);
            || (r != Done && Follows(p.w, q.w, ROTATION) && (q.remoted ==> p.remoted && q.w.now == p.w.now))
            || (exists m :: Renewed(p, m, input.name) && (q, r) == Converge(m, input))
  {
    StopFollows(p, input);
    var (p1, stopped) := StopRemoted(p, input);
    Stays(p.w, p1.w, ROTATION);
    if stopped == Done {
      ResetEnrollmentFollows(p1.w, input.lostReset, ROTATION);
      var (p2, reset) := AuthReset(p1, input);
      Chains(p.w, p1.w, p2.w, ROTATION);
      if reset == Done {
        RotateRenews(p, p2, input);
      }
    }
  }

  lemma RotateRenews(p: Platform, p2: Platform, input: Inputs)
    requires Follows(p.w, p2.w, ROTATION) && WellFormed(p.w.now) && Fresh(p.w.now, input.name)
    requires p2.w.now == p.w.now && !p2.remoted && !p2.w.enrolled && !p2.paired
    ensures var (p3, rotated) := Worker(p2, RotateTls, input);
            && Follows(p.w, p3.w, ROTATION) && !p3.remoted
            && (rotated == Done ==> Renewed(p, p3, input.name))
  {
    FollowsValid(p.w, p2.w, ROTATION);
    RunFollows(p2.w, RotateTls, input.name, input.lostReset);
    var p3 := Worker(p2, RotateTls, input).0;
    Chains(p.w, p2.w, p3.w, ROTATION);
    RotationReplaces(p2.w, input.name, input.lostReset);
    RotationFrame(p2.w, input);
  }

  lemma RotationFrame(w: World, input: Inputs)
    requires w.Valid() && WellFormed(w.now) && Fresh(w.now, input.name)
    ensures var v := Run(w, RotateTls, input.name, input.lostReset).0;
            v.enrolled == w.enrolled && v.now.enabled == w.now.enabled && v.now.pending == w.now.pending
  {
    RemoveStaleFollows(w);
    var (u, tidied) := RemoveStaleTemporaries(w);
    FollowsValid(w, u, {Tidy});
    if tidied == Ok {
      RotateFollows(u, input.name);
    }
  }

  // ----- The end of a re-enrollment -----

  const CONVERGENCE := {Tidy, ClearPending}

  /** What clearing the marker leaves unchanged. */
  ghost predicate OnlyPending(a: Fs, b: Fs) {
    b == a.(temporaries := b.temporaries, pending := b.pending) && (b.pending ==> a.pending)
  }

  lemma ClearFollows(p: Platform, input: Inputs)
    requires p.w.Valid() && WellFormed(p.w.now)
    ensures var (q, r) := ClearPendingReset(p, input);
            && Follows(p.w, q.w, CONVERGENCE) && OnlyPending(p.w.now, q.w.now) && q.w.enrolled == p.w.enrolled
            && q.remoted == p.remoted && q.paired == p.paired && (r == Done ==> !q.w.now.pending)
  {
    LookFollows(p.w, CONVERGENCE);
    var (p1, probed) := Probe(p);
    FollowsValid(p.w, p1.w, CONVERGENCE);
    if probed == Done && p1.w.now.pending {
      ClearRunFollows(p1.w, input);
      Chains(p.w, p1.w, Worker(p1, ClearResetPending, input).0.w, CONVERGENCE);
    }
  }

  lemma ClearRunFollows(w: World, input: Inputs)
    requires w.Valid() && WellFormed(w.now)
    ensures var (v, exit) := Run(w, ClearResetPending, input.name, input.lostReset);
            && Follows(w, v, CONVERGENCE) && OnlyPending(w.now, v.now) && v.enrolled == w.enrolled
            && (exit == Ok ==> !v.now.pending)
  {
    RunFollows(w, ClearResetPending, input.name, input.lostReset);
    RemoveStaleFollows(w);
    var (u, tidied) := RemoveStaleTemporaries(w);
    FollowsValid(w, u, {Tidy});
    if tidied == Ok {
      RemoveMarkerFollows(u, ResetPending);
    }
  }

  lemma CallFollows(p: Platform, input: Inputs, kinds: set<Kind>)
    requires p.w.Valid()
    ensures Follows(p.w, Probe(p).0.w, kinds) && Probe(p).0.w.now == p.w.now && Probe(p).0.w.enrolled == p.w.enrolled
    ensures Probe(p).0.remoted == p.remoted && Probe(p).0.paired == p.paired && Probe(p).0.w.Valid()
    ensures var (q, r) := EnsurePairing(p, input);
            && q.w == Probe(p).0.w && q.remoted == p.remoted && (p.paired ==> q.paired)
            && (q.paired ==> p.paired || !p.w.enrolled) && (r == Done ==> q.paired || q.w.enrolled)
  {
    LookFollows(p.w, kinds);
    FollowsValid(p.w, Probe(p).0.w, kinds);
  }

  lemma StartFollows(p: Platform, input: Inputs, kinds: set<Kind>)
    requires p.w.Valid()
    ensures var (q, r) := StartRemoted(p, input);
            && q.paired == p.paired && Follows(p.w, q.w, kinds) && q.w.now == p.w.now && q.w.enrolled == p.w.enrolled
            && (q.remoted && !p.remoted ==> CanStart(q.w.now)) && (r == Done ==> q.remoted)
  {
    LookFollows(p.w, kinds);
  }

  /** What the last part of a re-enrollment does. */
  ghost predicate Converged(p: Platform, q: Platform, r: Reply) {
    && Follows(p.w, q.w, CONVERGENCE) && OnlyPending(p.w.now, q.w.now) && q.w.enrolled == p.w.enrolled
    && (q.remoted ==> CanStart(q.w.now) && (q.paired || q.w.enrolled))
    && (r == Done ==> !q.w.now.pending && q.remoted == p.w.now.enabled && (p.w.now.enabled ==> q.paired || q.w.enrolled))
    && (!p.w.now.enabled ==> q.paired == p.paired)
  }

  lemma ConvergeFollows(p: Platform, input: Inputs)
    requires p.w.Valid() && WellFormed(p.w.now) && !p.remoted
    ensures Converged(p, Converge(p, input).0, Converge(p, input).1)
  {
    hide Probe, EnsurePairing, ClearPendingReset, StartRemoted;
    CallFollows(p, input, CONVERGENCE);
    var (p1, probed) := Probe(p);
    FollowsItself(p1.w, CONVERGENCE);
    CallFollows(p1, input, CONVERGENCE);
    var (p2, paired) := if p1.w.now.enabled then EnsurePairing(p1, input) else (p1, Done);
    Chains(p.w, p1.w, p2.w, CONVERGENCE);
    if probed == Done && paired == Done {
      FollowsValid(p1.w, p2.w, CONVERGENCE);
      ClearFollows(p2, input);
      var (p3, cleared) := ClearPendingReset(p2, input);
      Chains(p.w, p2.w, p3.w, CONVERGENCE);
      FollowsValid(p.w, p3.w, CONVERGENCE);
      StartFollows(p3, input, CONVERGENCE);
      Chains(p.w, p3.w, StartRemoted(p3, input).0.w, CONVERGENCE);
    }
  }

  lemma {:induction false} IdentityStays(w: World, v: World, k: nat)
    requires Follows(w, v, CONVERGENCE) && |w.past| <= k <= |v.past|
    ensures v.History()[k].current == w.now.current && v.History()[k].generations == w.now.generations
  {
    if k == |w.past| {
      assert v.History()[k] == w.History()[k];
    } else {
      IdentityStays(w, v, k - 1);
      assert Allowed(CONVERGENCE, v.History()[k - 1], v.History()[k]);
    }
  }

  /** Re-enrolling clears the reset marker only after it has, in this same call,
      reset the enrollment and replaced the identity; and sl-remoted is not
      started before. */
  lemma ReenrollClearsLast(p: Platform, input: Inputs, j: nat, k: nat)
    requires p.w.Valid() && WellFormed(p.w.now) && Fresh(p.w.now, input.name)
    requires var q := Reenroll(p, input).0;
             && |p.w.past| <= j < k <= |q.w.past| && q.w.History()[j].pending && !q.w.History()[k].pending
    ensures var q := Reenroll(p, input).0;
            && !q.w.enrolled && Rotated(p.w.now, q.w.History()[k], input.name)
            && (q.remoted ==> !q.w.now.pending && q.w.now.enabled && !q.w.now.current.Absent? && q.paired)
  {
    hide Reenroll, Converge;
    ReenrollRenews(p, input);
    var (q, r) := Reenroll(p, input);
    if m :| Renewed(p, m, input.name) && (q, r) == Converge(m, input) {
      FollowsValid(p.w, m.w, ROTATION);
      ConvergeFollows(m, input);
      ClearedAfter(p, m, q, j, k);
      IdentityStays(m.w, q.w, k);
    } else {
      PendingStays(p.w, q.w, ROTATION, j, k);
    }
  }

  lemma ClearedAfter(p: Platform, m: Platform, q: Platform, j: nat, k: nat)
    requires Follows(p.w, m.w, ROTATION) && Follows(m.w, q.w, CONVERGENCE)
    requires |p.w.past| <= j < k <= |q.w.past| && q.w.History()[j].pending && !q.w.History()[k].pending
    ensures |m.w.past| <= k
  {
    FollowsValid(m.w, q.w, CONVERGENCE);
    if k < |m.w.past| {
      assert m.w.History()[j] == q.w.History()[j] && m.w.History()[k] == q.w.History()[k];
      PendingStays(p.w, m.w, ROTATION, j, k);
    }
  }

  /** A re-enrollment that succeeds leaves nothing pending, nobody enrolled, one
      new complete identity, and a pairing and the service exactly if enabled. */
  lemma ReenrollEnds(p: Platform, input: Inputs)
    requires p.w.Valid() && WellFormed(p.w.now) && Fresh(p.w.now, input.name)
    ensures var (q, r) := Reenroll(p, input);
            r == Done ==>
              && !q.w.now.pending && !q.w.enrolled && Rotated(p.w.now, q.w.now, input.name)
              && q.w.now.enabled == p.w.now.enabled && q.remoted == p.w.now.enabled && q.paired == p.w.now.enabled
  {
    hide Reenroll, Converge;
    ReenrollRenews(p, input);
    var (q, r) := Reenroll(p, input);
    if m :| Renewed(p, m, input.name) && (q, r) == Converge(m, input) {
      FollowsValid(p.w, m.w, ROTATION);
      ConvergeFollows(m, input);
    }
  }

  /** Without faults, re-enrolling repairs any state: a pending reset, a broken
      identity, leftovers of interrupted runs. */
  lemma ReenrollRepairs(p: Platform, input: Inputs)
    requires p.w.Valid() && WellFormed(p.w.now) && p.w.faults == [] && Some(input.name) != CurrentGeneration(p.w.now)
    ensures Reenroll(p, input).1 == Done
  {
    hide Converge, Worker;
    StopFollows(p, input);
    var p1 := StopRemoted(p, input).0;
    ResetEnrollmentFollows(p1.w, input.lostReset, {});
    var p2 := AuthReset(p1, input).0;
    FollowsValid(p1.w, p2.w, {});
    WorkerRuns(p2, RotateTls, input);
    RotationReplaces(p2.w, input.name, input.lostReset);
    RunFollows(p2.w, RotateTls, input.name, input.lostReset);
    var p3 := Worker(p2, RotateTls, input).0;
    ConvergeSucceeds(p3, input);
  }

  lemma ConvergeSucceeds(p: Platform, input: Inputs)
    requires p.w.faults == [] && !p.w.now.current.Absent?
    ensures Converge(p, input).1 == Done
  {
    hide Worker;
    var p1 := if p.w.now.enabled then EnsurePairing(p, input).0 else p;
    assert p1.w == p.w;
    WorkerRuns(p1, ClearResetPending, input);
    RemoveStaleSucceeds(p.w);
    MarkersSucceed(RemoveStaleTemporaries(p.w).0, ResetPending);
    ClearKeepsIdentity(p.w, input);
  }

  lemma ClearKeepsIdentity(w: World, input: Inputs)
    requires w.faults == []
    ensures var v := Run(w, ClearResetPending, input.name, input.lostReset).0;
            v.faults == [] && v.now.current == w.now.current && v.now.enabled == w.now.enabled && !v.now.pending
  {
    TemporariesGo(w);
    MarkerGoes(RemoveStaleTemporaries(w).0);
  }

  lemma TemporariesGo(w: World)
    requires w.faults == []
    ensures var (u, exit) := RemoveStaleTemporaries(w);
            exit == Ok && u.faults == [] && u.now == w.now.(temporaries := u.now.temporaries)
  {
    TemporaryGoes(w, EnabledTemporary);
    var w1 := RemoveTemporary(w, EnabledTemporary).0;
    TemporaryGoes(w1, ResetPendingTemporary);
    TemporaryGoes(RemoveTemporary(w1, ResetPendingTemporary).0, CurrentTemporary);
  }

  lemma TemporaryGoes(w: World, t: Temporary)
    requires w.faults == []
    ensures var (u, exit) := RemoveTemporary(w, t);
            exit == Ok && u.faults == [] && u.now == w.now.(temporaries := u.now.temporaries)
  {
  }

  lemma MarkerGoes(w: World)
    requires w.faults == []
    ensures var (u, exit) := RemoveMarker(w, ResetPending);
            exit == Ok && u.faults == [] && u.now == w.now.(pending := false)
  {
  }
}
