/** `Controller` and `Shared` of remoted/src/controller.rs as the code runs them,
    each method at one go, and their agreement with the single steps. */
module ControllerCode {
  import opened Prelude
  import opened Controller
  import Network

  /** `withdraw`, as one change. */
  function WithdrawAll(f: Face, removeFails: bool): Face {
    Face(f.marker && removeFails, f.marker && removeFails, None, f.generation + 1, 0, {}, f.zombies + f.tasks, None, None)
  }

  /** `establish`, as one change, with the sockets that could be bound. */
  function EstablishAll(f: Face, view: View, now: nat, count: nat, createFails: bool, removeFails: bool): Face
    requires count <= |view.listen|
  {
    var complete := count == |view.listen|;
    if count == 0 then
      f.(bound := 0, tasks := {}, zombies := f.zombies + f.tasks, confirmed := Some(now), published := Some((view, complete)))
    else
      var open := f.(confirmed := Some(now), current := Some(Published(f.generation, view)), bound := 0,
                     tasks := f.tasks + {f.generation});
      if createFails then WithdrawAll(open, removeFails)
      else open.(marker := true, stuck := false, published := Some((view, complete)))
  }

  class Code {
    // The marker file; a removal that fails leaves it.
    var marker: bool
    var stuck: bool
    // Shared
    var current: Option<Published>
    var generation: nat
    // Listeners
    var bound: nat
    var tasks: set<nat>
    var zombies: set<nat>
    // Controller
    var published: Option<(View, bool)>
    var confirmedAt: Option<nat>

    ghost function Abs(): Face
      reads this
    {
      Face(marker, stuck, current, generation, bound, tasks, zombies, published, confirmedAt)
    }

    /** `Controller::new` deletes the marker that it may find; `stuck` records that
        this has failed. */
    constructor (left: bool, removeFails: bool)
      ensures Abs() == Face(left && removeFails, left && removeFails, None, 0, 0, {}, {}, None, None)
    {
      marker, stuck := left && removeFails, left && removeFails;
      current, generation, bound, tasks, zombies, published, confirmedAt := None, 0, 0, {}, {}, None, None;
    }

    method RemoveMarkerFile(fails: bool)
      modifies this`marker, this`stuck
      ensures marker == (old(marker) && fails) && stuck == marker
    {
      marker := marker && fails;
      stuck := marker;
    }

    method CloseListeners()
      modifies this`bound, this`tasks, this`zombies
      ensures bound == 0 && tasks == {} && zombies == old(zombies) + old(tasks)
    {
      zombies, tasks := zombies + tasks, {};
      bound := 0;
    }

    /** Marker, eligibility, listeners, in this order. */
    method Withdraw(removeFails: bool)
      modifies this
      ensures Abs() == WithdrawAll(old(Abs()), removeFails)
    {
      RemoveMarkerFile(removeFails);
      current := None;
      generation := generation + 1;
      CloseListeners();
      published := None;
      confirmedAt := None;
    }

    method Establish(view: View, now: nat, count: nat, createFails: bool, removeFails: bool)
      requires count <= |view.listen|
      modifies this
      ensures Abs() == EstablishAll(old(Abs()), view, now, count, createFails, removeFails)
    {
      bound := count;
      var complete := count == |view.listen|;
      confirmedAt := Some(now);
      if count == 0 {
        CloseListeners();
        published := Some((view, complete));
        return;
      }
      current := Some(Published(generation, view));
      tasks, bound := tasks + {generation}, 0;
      if createFails {
        Withdraw(removeFails);
        return;
      }
      marker, stuck := true, false;
      published := Some((view, complete));
    }

    /** `Shared::admits`. */
    method Admits(g: nat, source: Network.IpAddr) returns (admitted: bool)
      ensures admitted == Abs().Admits(g, source)
    {
      admitted := current.Some? && current.value.generation == g && Network.OnLink(current.value.view, source);
    }

    /** `apply`; the next refresh is due after the result's delay. */
    method ApplyRefresh(result: Option<View>, now: nat, count: nat, first: bool, createFails: bool, second: bool)
      returns (next: nat)
      requires result.Some? ==> count <= |result.value.listen|
      modifies this
      ensures (Abs(), next) == ApplyAll(old(Abs()), result, now, count, first, createFails, second)
    {
      match result
      case Some(view) =>
        if published == Some((view, true)) {
          confirmedAt := Some(now);
        } else {
          Withdraw(first);
          Establish(view, now, count, createFails, second);
        }
        return now + RECONCILE;
      case None =>
        if confirmedAt.None? || now >= confirmedAt.value + STALE_AFTER {
          Withdraw(first);
        }
        return now + RETRY;
    }
  }

  function ApplyAll(f: Face, result: Option<View>, now: nat, count: nat, first: bool, createFails: bool, second: bool): (Face, nat)
    requires result.Some? ==> count <= |result.value.listen|
  {
    match result
    case Some(view) =>
      (if f.published == Some((view, true)) then f.(confirmed := Some(now))
       else EstablishAll(WithdrawAll(f, first), view, now, count, createFails, second),
       now + RECONCILE)
    case None =>
      (if f.confirmed.None? || now >= f.confirmed.value + STALE_AFTER then WithdrawAll(f, first) else f, now + RETRY)
  }

  // ----- What a refresh leaves -----

  /** Served under the current generation, with the marker there. */
  ghost predicate Serves(f: Face, view: View) {
    f.current == Some(Published(f.generation, view)) && f.generation in f.tasks && f.marker && !f.stuck
  }

  /** Nothing is served, and only a removal that failed leaves the marker. */
  ghost predicate Silent(f: Face) {
    f.current.None? && f.tasks == {} && f.bound == 0 && (f.marker ==> f.stuck)
  }

  /** A refresh confirms what is published only if it gave just that, completely
      bound. Otherwise it ends the generation, and serves exactly the view that it
      gave if there are sockets and the marker can be made. A failed refresh changes
      nothing before two minutes have passed without a confirmation. */
  lemma RefreshDecides(f: Face, result: Option<View>, now: nat, count: nat, first: bool, createFails: bool, second: bool)
    requires result.Some? ==> count <= |result.value.listen|
    requires Noted(f)
    ensures var (g, next) := ApplyAll(f, result, now, count, first, createFails, second);
            && Noted(g)
            && match result
               case Some(view) =>
                 && next == now + 60_000
                 && (g.current.Some? ==> g.current.value.view == view && g.confirmed == Some(now))
                 && (if f.published == Some((view, true)) then g == f.(confirmed := Some(now))
                     else g.generation > f.generation && if count > 0 && !createFails then Serves(g, view) else Silent(g))
               case None =>
                 && next == now + 5_000
                 && (if f.confirmed.Some? && now < f.confirmed.value + 120_000 then g == f
                     else g.generation > f.generation && Silent(g))
  {
  }

  /** A new controller serves nothing, and a withdrawal leaves nothing served. */
  lemma WithdrawSilences(f: Face, removeFails: bool)
    ensures var g := WithdrawAll(f, removeFails);
            && Silent(g) && Noted(g) && g.generation == f.generation + 1 && g.confirmed.None?
            && (g.marker <==> f.marker && removeFails)
  {
  }

  // ----- The same in single steps -----

  predicate Moving(s: State) {
    s.phase.Withdrawing? || s.phase.Establishing?
  }

  function Distance(phase: Phase): nat {
    match phase
    case Withdrawing(step, after) =>
      (match step case RemoveMarker => 5 case ClearCurrent => 4 case Bump => 3 case Close => 2 case Forget => 1)
      + if after.ToEstablish? then 20 else 0
    case Establishing(step, _, _, _) =>
      (match step case Bind => 12 case CloseUnbound => 7 case Publish => 11 case Serve => 10 case CreateMarker => 9 case Record => 1)
    case _ => 0
  }

  /** The steps until `run` waits again: `first` until the marker is created,
      `second` if that has failed. */
  function Settled(s: State, first: Choice, second: Choice): State
    decreases Distance(s.phase)
  {
    if !Moving(s) then s
    else
      var failed := s.phase.Establishing? && s.phase.establishment.CreateMarker? && first.createFails;
      Settled(Next(s, Proceed(first)), if failed then second else first, second)
  }

  lemma SettlesOn(s: State, first: Choice, second: Choice)
    requires Moving(s) && !(s.phase.Establishing? && s.phase.establishment.CreateMarker? && first.createFails)
    ensures Settled(s, first, second) == Settled(Next(s, Proceed(first)), first, second)
  {
  }

  lemma WithdrawSettles(s: State, first: Choice, second: Choice)
    requires s.phase.Withdrawing? && s.phase.withdrawal.RemoveMarker?
    ensures Settled(s, first, second) ==
            Settled(s.(face := WithdrawAll(s.face, first.removeFails), phase := AfterWithdrawal(Forget, s.phase.after, s.clock)),
                    first, second)
  {
    SettlesOn(s, first, second);
    var s1 := Next(s, Proceed(first));
    SettlesOn(s1, first, second);
    var s2 := Next(s1, Proceed(first));
    SettlesOn(s2, first, second);
    var s3 := Next(s2, Proceed(first));
    SettlesOn(s3, first, second);
    var s4 := Next(s3, Proceed(first));
    SettlesOn(s4, first, second);
    assert Next(s4, Proceed(first)) ==
           s.(face := WithdrawAll(s.face, first.removeFails), phase := AfterWithdrawal(Forget, s.phase.after, s.clock));
  }

  lemma EstablishSettles(s: State, first: Choice, second: Choice)
    requires s.phase.Establishing? && s.phase.establishment.Bind? && first.boundCount <= |s.phase.job.view.listen|
    ensures var t := Settled(s, first, second);
            && t.face == EstablishAll(s.face, s.phase.job.view, s.clock, first.boundCount, first.createFails, second.removeFails)
            && t.phase == Waiting(s.phase.next)
  {
    SettlesOn(s, first, second);
    var s1 := Next(s, Proceed(first));
    SettlesOn(s1, first, second);
    var s2 := Next(s1, Proceed(first));
    SettlesOn(s2, first, second);
    if first.boundCount > 0 {
      MarkerSettles(Next(s2, Proceed(first)), first, second);
    }
  }

  lemma MarkerSettles(s: State, first: Choice, second: Choice)
    requires s.phase.Establishing? && s.phase.establishment.CreateMarker?
    ensures var t := Settled(s, first, second);
            && t.phase == Waiting(s.phase.next)
            && t.face == if first.createFails then WithdrawAll(s.face, second.removeFails)
                         else s.face.(marker := true, stuck := false, published := Some((s.phase.job.view, s.phase.complete)))
  {
    var s1 := Next(s, Proceed(first));
    if first.createFails {
      WithdrawSettles(s1, second, second);
    } else {
      SettlesOn(s, first, second);
      SettlesOn(s1, first, second);
    }
  }

  /** Applying a refresh at one go, as the code does, is what the single steps
      amount to when nothing comes between them. */
  lemma ApplySettles(s: State, result: Option<View>, first: Choice, second: Choice)
    requires s.phase.Fetching? && (result.Some? ==> first.boundCount <= |result.value.listen|)
    ensures var t := Settled(Apply(s, result, s.phase.begun), first, second);
            && (t.face, t.phase) ==
               var (f, next) := ApplyAll(s.face, result, s.clock, first.boundCount, first.removeFails, first.createFails, second.removeFails);
               (f, Waiting(next))
  {
    var u := Apply(s, result, s.phase.begun);
    if u.phase.Withdrawing? {
      WithdrawSettles(u, first, second);
      if result.Some? {
        EstablishSettles(u.(face := WithdrawAll(u.face, first.removeFails),
                            phase := AfterWithdrawal(Forget, u.phase.after, u.clock)), first, second);
      }
    }
  }
}
