/** The listener and eligibility lifecycle (remoted/src/controller.rs) with its
    accept loops and connections (remoted/src/server.rs), as a transition system
    in which every effect is a step of its own. */
module Controller {
  import opened Prelude
  import Network

  type View = Network.View

  // Milliseconds.
  const DEBOUNCE: nat := 500
  const RECONCILE: nat := 60_000
  const STALE_AFTER: nat := 120_000
  const RETRY: nat := 5_000
  const SESSION_TIMEOUT: nat := 20_000

  datatype Published = Published(generation: nat, view: View)

  /** What the controller's steps read and write. `stuck`: a marker whose removal
      has failed. `tasks` are the generations of the accept loops it holds;
      `zombies` have been aborted but may still be at work. */
  datatype Face = Face(marker: bool, stuck: bool, current: Option<Published>, generation: nat, bound: nat,
                       tasks: set<nat>, zombies: set<nat>, published: Option<(View, bool)>, confirmed: Option<nat>) {
    predicate Admits(generation: nat, source: Network.IpAddr) {
      current.Some? && current.value.generation == generation && Network.OnLink(current.value.view, source)
    }
  }

  /** A refresh to apply, with the notifications that had been delivered when
      its fetch began and when its result was taken. */
  datatype Job = Job(view: View, begun: nat, taken: nat)

  datatype Withdrawal = RemoveMarker | ClearCurrent | Bump | Close | Forget

  datatype Establishment = Bind | CloseUnbound | Publish | Serve | CreateMarker | Record

  datatype After = ToEstablish(job: Job, next: nat) | ToWait(next: nat) | ToDebounce | ToEnd

  /** `run` waits, or is at a step of `withdraw` or `establish`. */
  datatype Phase =
    | Waiting(next: nat)
    | Fetching(since: nat, begun: nat)
    | Debouncing(until: nat)
    | Ended
    | Withdrawing(withdrawal: Withdrawal, after: After)
    | Establishing(establishment: Establishment, job: Job, complete: bool, next: nat)

  datatype Stage = Accepted | Admitted | Serving | Finished

  datatype Connection = Connection(generation: nat, source: Network.IpAddr, stage: Stage)

  /** `views` remembers what each generation has published. */
  datatype State = State(face: Face, phase: Phase, clock: nat, delivered: nat, consumed: nat,
                         connections: map<nat, Connection>, views: map<nat, Job>)

  /** What a step cannot decide itself. */
  datatype Choice = Choice(removeFails: bool, boundCount: nat, createFails: bool)

  datatype Event =
    | Tick(elapsed: nat)
    | Notify
    | BeginFetch
    | Consume(broken: bool)
    | Refresh(result: Option<View>)
    | DebounceOver
    | Proceed(choice: Choice)
    | Accept(id: nat, generation: nat, source: Network.IpAddr)
    | Admit(id: nat)
    | Check(id: nat)
    | Finish(id: nat)
    | Reap(generation: nat)

  // ----- The controller's steps -----

  function WithdrawStep(f: Face, step: Withdrawal, choice: Choice): Face {
    match step
    case RemoveMarker => if choice.removeFails then f.(stuck := f.marker) else f.(marker := false, stuck := false)
    case ClearCurrent => f.(current := None)
    case Bump => f.(generation := f.generation + 1)
    case Close => f.(bound := 0, tasks := {}, zombies := f.zombies + f.tasks)
    case Forget => f.(published := None, confirmed := None)
  }

  function AfterWithdrawal(step: Withdrawal, after: After, clock: nat): Phase {
    match step
    case RemoveMarker => Withdrawing(ClearCurrent, after)
    case ClearCurrent => Withdrawing(Bump, after)
    case Bump => Withdrawing(Close, after)
    case Close => Withdrawing(Forget, after)
    case Forget =>
      match after
      case ToEstablish(job, next) => Establishing(Bind, job, false, next)
      case ToWait(next) => Waiting(next)
      case ToDebounce => Debouncing(clock + DEBOUNCE)
      case ToEnd => Ended
  }

  /** One step of `establish`; the sockets that `bind` gets are chosen. */
  function EstablishStep(s: State, choice: Choice): State
    requires s.phase.Establishing?
  {
    var Establishing(step, job, complete, next) := s.phase;
    var f := s.face;
    match step
    case Bind =>
      var count := if choice.boundCount <= |job.view.listen| then choice.boundCount else |job.view.listen|;
      s.(face := f.(bound := count, confirmed := Some(s.clock)),
         phase := Establishing(if count == 0 then CloseUnbound else Publish, job, count == |job.view.listen|, next))
    case CloseUnbound =>
      s.(face := f.(bound := 0, tasks := {}, zombies := f.zombies + f.tasks), phase := Establishing(Record, job, complete, next))
    case Publish =>
      s.(face := f.(current := Some(Published(f.generation, job.view))), views := s.views[f.generation := job],
         phase := Establishing(Serve, job, complete, next))
    case Serve =>
      s.(face := f.(bound := 0, tasks := f.tasks + {f.generation}), phase := Establishing(CreateMarker, job, complete, next))
    case CreateMarker =>
      if choice.createFails then s.(phase := Withdrawing(RemoveMarker, ToWait(next)))
      else s.(face := f.(marker := true, stuck := false), phase := Establishing(Record, job, complete, next))
    case Record =>
      s.(face := f.(published := Some((job.view, complete))), phase := Waiting(next))
  }

  /** controller.rs `apply` of a refresh taken now. */
  function Apply(s: State, result: Option<View>, begun: nat): State {
    match result
    case Some(view) =>
      if s.face.published == Some((view, true)) then
        s.(face := s.face.(confirmed := Some(s.clock)), phase := Waiting(s.clock + RECONCILE))
      else
        s.(phase := Withdrawing(RemoveMarker, ToEstablish(Job(view, begun, s.delivered), s.clock + RECONCILE)))
    case None =>
      if s.face.confirmed.None? || s.clock >= s.face.confirmed.value + STALE_AFTER then
        s.(phase := Withdrawing(RemoveMarker, ToWait(s.clock + RETRY)))
      else s.(phase := Waiting(s.clock + RETRY))
  }

  /** The latest moment at which `run` acts of its own accord, timers being
      prompt; a step that it is taking takes no time. */
  predicate InTime(s: State, clock: nat) {
    match s.phase
    case Waiting(next) => clock <= next
    case Fetching(since, _) => clock <= since + SESSION_TIMEOUT
    case Debouncing(until) => clock <= until
    case Ended => true
    case Withdrawing(_, _) => clock == s.clock
    case Establishing(_, _, _, _) => clock == s.clock
  }

  // ----- The transition system -----

  predicate Enabled(s: State, e: Event) {
    match e
    case Tick(elapsed) => InTime(s, s.clock + elapsed)
    case Notify => true
    case BeginFetch => s.phase.Waiting? && s.delivered == s.consumed && s.clock >= s.phase.next
    case Consume(_) => s.consumed < s.delivered && (s.phase.Waiting? || s.phase.Fetching? || s.phase.Debouncing?)
    case Refresh(_) => s.phase.Fetching? && s.delivered == s.consumed
    case DebounceOver => s.phase.Debouncing? && s.delivered == s.consumed && s.clock >= s.phase.until
    case Proceed(_) => s.phase.Withdrawing? || s.phase.Establishing?
    case Accept(id, generation, _) => id !in s.connections && generation in s.face.tasks + s.face.zombies
    case Admit(id) => id in s.connections && s.connections[id].stage.Accepted?
    case Check(id) => id in s.connections && s.connections[id].stage.Admitted?
    case Finish(id) => id in s.connections
    case Reap(generation) => generation in s.face.zombies
  }

  function Staged(s: State, id: nat, stage: Stage): State
    requires id in s.connections
  {
    s.(connections := s.connections[id := s.connections[id].(stage := stage)])
  }

  function Next(s: State, e: Event): State
    requires Enabled(s, e)
  {
    match e
    case Tick(elapsed) => s.(clock := s.clock + elapsed)
    case Notify => s.(delivered := s.delivered + 1)
    case BeginFetch => s.(phase := Fetching(s.clock, s.delivered))
    case Consume(broken) =>
      var s1 := s.(consumed := s.consumed + 1);
      if s.phase.Debouncing? then s1.(phase := if broken then Ended else Debouncing(s.clock + DEBOUNCE))
      else s1.(phase := Withdrawing(RemoveMarker, if broken then ToEnd else ToDebounce))
    case Refresh(result) => Apply(s, result, s.phase.begun)
    case DebounceOver => s.(phase := Waiting(s.clock))
    case Proceed(choice) =>
      if s.phase.Establishing? then EstablishStep(s, choice)
      else s.(face := WithdrawStep(s.face, s.phase.withdrawal, choice),
              phase := AfterWithdrawal(s.phase.withdrawal, s.phase.after, s.clock))
    case Accept(id, generation, source) =>
      s.(connections := s.connections[id := Connection(generation, source, Accepted)])
    case Admit(id) =>
      var c := s.connections[id];
      Staged(s, id, if s.face.Admits(c.generation, c.source) then Admitted else Finished)
    case Check(id) => Staged(s, id, if s.connections[id].generation == s.face.generation then Serving else Finished)
    case Finish(id) => Staged(s, id, Finished)
    case Reap(generation) => s.(face := s.face.(zombies := s.face.zombies - {generation}))
  }

  // ----- What every step keeps -----

  /** Nothing is published, and the generation has published nothing yet. */
  ghost predicate Withdrawn(f: Face, views: map<nat, Job>) {
    f.current.None? && f.generation !in views && (f.marker ==> f.stuck) && f.tasks == {}
  }

  /** Published means: under the current generation, with its own view. */
  ghost predicate PublishedNow(f: Face, views: map<nat, Job>) {
    f.current.Some? ==>
      && f.current.value.generation == f.generation
      && f.generation in views && views[f.generation].view == f.current.value.view
  }

  /** Open to connections: published, and accepting. */
  ghost predicate Open(f: Face) {
    f.current.Some? && f.generation in f.tasks
  }

  ghost predicate Rest(f: Face, views: map<nat, Job>) {
    Withdrawn(f, views) || Open(f)
  }

  ghost predicate FaceInv(f: Face, phase: Phase, views: map<nat, Job>) {
    && PublishedNow(f, views)
    && (forall g :: g in views ==> g <= f.generation)
    && (f.tasks + f.zombies <= views.Keys)
    && (f.marker && !f.stuck ==> Open(f))
    && match phase
       case Waiting(_) => Rest(f, views)
       case Fetching(_, _) => Rest(f, views)
       case Debouncing(_) => Withdrawn(f, views)
       case Ended => Withdrawn(f, views)
       case Withdrawing(step, _) =>
         && (step.ClearCurrent? || step.Bump? || step.Close? || step.Forget? ==> (f.marker ==> f.stuck))
         && (step.Bump? || step.Close? || step.Forget? ==> f.current.None?)
         && (step.Close? || step.Forget? ==> f.generation !in views)
         && (step.Forget? ==> f.tasks == {})
       case Establishing(step, job, _, _) =>
         && (step.Bind? || step.CloseUnbound? || step.Publish? ==> Withdrawn(f, views))
         && (step.Serve? ==> f.current.Some? && (f.marker ==> f.stuck))
         && (step.CreateMarker? ==> Open(f) && (f.marker ==> f.stuck))
         && (step.Record? ==> Rest(f, views))
  }

  lemma WithdrawKeepsFace(f: Face, step: Withdrawal, after: After, clock: nat, choice: Choice, views: map<nat, Job>)
    requires FaceInv(f, Withdrawing(step, after), views)
    ensures FaceInv(WithdrawStep(f, step, choice), AfterWithdrawal(step, after, clock), views)
  {
  }

  lemma EstablishKeepsFace(s: State, choice: Choice)
    requires s.phase.Establishing? && FaceInv(s.face, s.phase, s.views)
    ensures var t := EstablishStep(s, choice); FaceInv(t.face, t.phase, t.views)
  {
  }

  lemma NextKeepsFace(s: State, e: Event)
    requires Enabled(s, e) && FaceInv(s.face, s.phase, s.views)
    ensures var t := Next(s, e); FaceInv(t.face, t.phase, t.views)
  {
    if e.Proceed? {
      if s.phase.Establishing? {
        EstablishKeepsFace(s, e.choice);
      } else {
        WithdrawKeepsFace(s.face, s.phase.withdrawal, s.phase.after, s.clock, e.choice, s.views);
      }
    }
  }

  /** A connection that was admitted came from an on-link source of the view
      that its own generation has published. */
  ghost predicate AdmittedFromView(c: Connection, views: map<nat, Job>) {
    c.generation in views
    && (c.stage.Admitted? || c.stage.Serving? ==> Network.OnLink(views[c.generation].view, c.source))
  }

  ghost predicate ConnectionsInv(s: State) {
    forall id :: id in s.connections ==> AdmittedFromView(s.connections[id], s.views)
  }

  /** What a generation has published never changes. */
  ghost predicate ViewsKept(s: State, t: State) {
    forall g :: g in s.views ==> g in t.views && t.views[g] == s.views[g]
  }

  lemma NextKeepsViews(s: State, e: Event)
    requires Enabled(s, e) && FaceInv(s.face, s.phase, s.views)
    ensures ViewsKept(s, Next(s, e)) && s.face.generation <= Next(s, e).face.generation && s.clock <= Next(s, e).clock
  {
  }

  lemma NextKeepsConnections(s: State, e: Event)
    requires Enabled(s, e) && FaceInv(s.face, s.phase, s.views) && ConnectionsInv(s)
    ensures ConnectionsInv(Next(s, e))
  {
    hide FaceInv;
    NextKeepsViews(s, e);
    FacePublishes(s);
    forall id | id in Next(s, e).connections
      ensures AdmittedFromView(Next(s, e).connections[id], Next(s, e).views)
    {
      if id in s.connections {
        assert AdmittedFromView(s.connections[id], s.views);
      }
    }
  }

  lemma FacePublishes(s: State)
    requires FaceInv(s.face, s.phase, s.views)
    ensures PublishedNow(s.face, s.views) && s.face.tasks + s.face.zombies <= s.views.Keys
  {
  }

  // ----- Time -----

  /** While eligibility is published it was confirmed less than 145 s ago: the
      age that makes it stale, a retry and a fetch. */
  ghost predicate TimeInv(s: State) {
    && (s.face.current.Some? ==> s.face.confirmed.Some?)
    && (s.face.confirmed.Some? ==>
          var c := s.face.confirmed.value;
          match s.phase
          case Waiting(next) => s.clock <= next < c + STALE_AFTER + RETRY
          case Fetching(since, _) => since < c + STALE_AFTER + RETRY && s.clock <= since + SESSION_TIMEOUT
          case Debouncing(_) => false
          case Ended => false
          case Withdrawing(_, _) => s.clock < c + STALE_AFTER + RETRY + SESSION_TIMEOUT
          case Establishing(step, _, _, next) => step.Bind? || (c == s.clock && s.clock <= next <= s.clock + RECONCILE))
    && (s.phase.Establishing? ==> s.clock <= s.phase.next <= s.clock + RECONCILE)
    && (s.phase.Establishing? ==> (s.face.confirmed.None? <==> s.phase.establishment.Bind?))
    && (s.phase.Withdrawing? && s.phase.after.ToEstablish? ==> s.clock <= s.phase.after.next <= s.clock + RECONCILE)
  }

  lemma NextKeepsTime(s: State, e: Event)
    requires Enabled(s, e) && TimeInv(s) && FaceInv(s.face, s.phase, s.views)
    ensures TimeInv(Next(s, e))
  {
    if e.Proceed? {
      if s.phase.Establishing? { EstablishKeepsTime(s, e.choice); } else { WithdrawKeepsTime(s, e); }
    } else if e.Refresh? {
      RefreshKeepsTime(s, e.result);
    }
  }

  lemma EstablishKeepsTime(s: State, choice: Choice)
    requires s.phase.Establishing? && TimeInv(s)
    ensures TimeInv(EstablishStep(s, choice))
  {
  }

  lemma WithdrawKeepsTime(s: State, e: Event)
    requires e.Proceed? && s.phase.Withdrawing? && TimeInv(s) && FaceInv(s.face, s.phase, s.views)
    ensures TimeInv(Next(s, e))
  {
  }

  lemma RefreshKeepsTime(s: State, result: Option<View>)
    requires s.phase.Fetching? && TimeInv(s)
    ensures TimeInv(Apply(s, result, s.phase.begun))
  {
  }

  // ----- Notifications -----

  /** A refresh is taken only if no notification has been delivered since its
      fetch began. */
  ghost predicate FetchInv(s: State) {
    && s.consumed <= s.delivered
    && (s.phase.Fetching? ==> s.phase.begun == s.consumed)
    && (s.phase.Withdrawing? && s.phase.after.ToEstablish? ==> s.phase.after.job.begun == s.phase.after.job.taken)
    && (s.phase.Establishing? ==> s.phase.job.begun == s.phase.job.taken)
    && (forall g :: g in s.views ==> s.views[g].begun == s.views[g].taken)
  }

  lemma NextKeepsFetch(s: State, e: Event)
    requires Enabled(s, e) && FetchInv(s)
    ensures FetchInv(Next(s, e))
  {
  }

  /** Whatever is published or about to be was taken after the last notification
      that the controller has received. */
  ghost predicate NoticeInv(s: State) {
    match s.phase
    case Waiting(_) => s.face.current.Some? ==> TakenSince(s)
    case Fetching(_, _) => s.face.current.Some? ==> TakenSince(s)
    case Debouncing(_) => true
    case Ended => true
    case Withdrawing(_, after) => after.ToEstablish? ==> after.job.taken == s.consumed
    case Establishing(_, job, _, _) => job.taken == s.consumed && (s.face.current.Some? ==> TakenSince(s))
  }

  ghost predicate TakenSince(s: State) {
    s.face.generation in s.views && s.views[s.face.generation].taken == s.consumed
  }

  lemma NextKeepsNotices(s: State, e: Event)
    requires Enabled(s, e) && FaceInv(s.face, s.phase, s.views) && NoticeInv(s)
    ensures NoticeInv(Next(s, e))
  {
  }

  // ----- What was published -----

  /** The controller's note of what it has published is right. */
  ghost predicate Noted(f: Face) {
    && (f.current.Some? ==> f.published.Some? && f.published.value.0 == f.current.value.view)
    && (f.published.Some? && f.published.value.1 && f.published.value.0.listen != [] ==>
          f.current.Some? && f.marker && f.generation in f.tasks)
  }

  ghost predicate NotedInv(f: Face, phase: Phase) {
    match phase
    case Waiting(_) => Noted(f)
    case Fetching(_, _) => Noted(f)
    case Debouncing(_) => f.published.None?
    case Ended => f.published.None?
    case Withdrawing(_, _) => true
    case Establishing(step, job, complete, _) =>
      && (step.Serve? || step.CreateMarker? || step.Record? ==> (f.current.Some? ==> f.current.value.view == job.view))
      && (step.Publish? || step.Serve? || step.CreateMarker? ==> job.view.listen != [])
      && (step.CloseUnbound? && complete ==> job.view.listen == [])
      && (step.Serve? || step.CreateMarker? ==> f.current.Some?)
      && (step.CreateMarker? ==> f.generation in f.tasks)
      && (step.Record? && complete && job.view.listen != [] ==> f.current.Some? && f.marker && f.generation in f.tasks)
  }

  lemma NextKeepsNoted(s: State, e: Event)
    requires Enabled(s, e) && FaceInv(s.face, s.phase, s.views) && NotedInv(s.face, s.phase)
    ensures NotedInv(Next(s, e).face, Next(s, e).phase)
  {
    hide FaceInv;
    WithdrawnWhenForgetting(s);
    if e.Proceed? && s.phase.Establishing? {
      EstablishKeepsNoted(s, e.choice);
    }
  }

  lemma WithdrawnWhenForgetting(s: State)
    requires FaceInv(s.face, s.phase, s.views)
    ensures s.phase.Withdrawing? && s.phase.withdrawal.Forget? ==> s.face.current.None?
    ensures s.phase.Debouncing? || s.phase.Ended? ==> s.face.current.None?
    ensures s.phase.Establishing? && (s.phase.establishment.Bind? || s.phase.establishment.CloseUnbound?) ==> s.face.current.None?
  {
  }

  lemma EstablishKeepsNoted(s: State, choice: Choice)
    requires s.phase.Establishing? && NotedInv(s.face, s.phase)
    requires s.phase.establishment.Bind? || s.phase.establishment.CloseUnbound? ==> s.face.current.None?
    ensures NotedInv(EstablishStep(s, choice).face, EstablishStep(s, choice).phase)
  {
  }

  // ----- Runs -----

  ghost predicate Inv(s: State) {
    FaceInv(s.face, s.phase, s.views) && ConnectionsInv(s) && TimeInv(s) && FetchInv(s) && NoticeInv(s)
    && NotedInv(s.face, s.phase)
  }

  /** A new controller; a marker that an earlier run has left may be stuck. */
  ghost predicate Initial(s: State) {
    && s.face.current.None? && s.face.generation == 0 && s.face.tasks == {} && s.face.zombies == {}
    && s.face.published.None? && s.face.confirmed.None? && (s.face.marker ==> s.face.stuck)
    && s.phase == Waiting(s.clock) && s.consumed <= s.delivered && s.connections == map[] && s.views == map[]
  }

  ghost predicate IsRun(states: seq<State>, events: seq<Event>) {
    && |states| == |events| + 1 && Initial(states[0])
    && forall i :: 0 <= i < |events| ==> Enabled(states[i], events[i]) && states[i + 1] == Next(states[i], events[i])
  }

  lemma NextKeepsInv(s: State, e: Event)
    requires Enabled(s, e) && Inv(s)
    ensures Inv(Next(s, e))
  {
    hide Enabled, Next, FaceInv, ConnectionsInv, TimeInv, FetchInv, NoticeInv, NotedInv;
    NextKeepsFace(s, e);
    NextKeepsConnections(s, e);
    NextKeepsTime(s, e);
    NextKeepsFetch(s, e);
    NextKeepsNotices(s, e);
    NextKeepsNoted(s, e);
  }

  lemma RunStep(states: seq<State>, events: seq<Event>, i: nat)
    requires IsRun(states, events) && i < |events|
    ensures |states| == |events| + 1 && Enabled(states[i], events[i]) && states[i + 1] == Next(states[i], events[i])
  {
  }

  lemma RunStarts(states: seq<State>, events: seq<Event>)
    requires IsRun(states, events)
    ensures |states| == |events| + 1 && Inv(states[0])
  {
  }

  lemma {:induction false} RunKeepsInv(states: seq<State>, events: seq<Event>, i: nat)
    requires IsRun(states, events) && i < |states|
    ensures Inv(states[i])
  {
    hide IsRun, Inv, Enabled, Next;
    RunStarts(states, events);
    if i > 0 {
      RunKeepsInv(states, events, i - 1);
      RunStep(states, events, i - 1);
      NextKeepsInv(states[i - 1], events[i - 1]);
    }
  }

  /** At every step of every interleaving: a published view carries the current
      generation; the listening marker, unless its removal has failed, means
      that eligibility is published and connections are being accepted; the view
      was confirmed less than 145 seconds ago; and it came from a fetch that no
      notification has overtaken. Whenever the controller is not withdrawing, the
      view was taken after the last notification that it has received. */
  lemma AtEveryStep(states: seq<State>, events: seq<Event>, i: nat)
    requires IsRun(states, events) && i < |states|
    ensures var f := states[i].face;
            && (f.current.Some? ==> f.current.value.generation == f.generation)
            && (f.marker && !f.stuck ==> f.current.Some? && f.generation in f.tasks)
            && (f.current.Some? ==> f.confirmed.Some? && states[i].clock < f.confirmed.value + 145_000)
            && (f.current.Some? ==> f.generation in states[i].views
                                    && states[i].views[f.generation].view == f.current.value.view)
            && (forall g :: g in states[i].views ==> states[i].views[g].begun == states[i].views[g].taken)
            && (f.current.Some? && !states[i].phase.Withdrawing? ==>
                  states[i].views[f.generation].taken == states[i].consumed)
  {
    hide IsRun, Rest, ConnectionsInv, NotedInv;
    RunKeepsInv(states, events, i);
  }

  // ----- What a notification does -----

  /** `withdraw` after a notification that was received in state `s` is at work. */
  ghost predicate Retracting(s: State, t: State, broken: bool) {
    && t.phase.Withdrawing? && t.phase.after == (if broken then ToEnd else ToDebounce) && t.clock == s.clock
    && t.consumed == s.consumed + 1
    && t.face.generation == s.face.generation + if t.phase.withdrawal.Close? || t.phase.withdrawal.Forget? then 1 else 0
  }

  /** It is over: nothing is published, marked or accepting any more. */
  ghost predicate Retracted(s: State, t: State, broken: bool) {
    && t.phase == (if broken then Ended else Debouncing(s.clock + DEBOUNCE)) && t.clock == s.clock
    && t.consumed == s.consumed + 1
    && t.face.current.None? && t.face.generation == s.face.generation + 1 && t.face.tasks == {}
    && (t.face.marker ==> t.face.stuck) && t.face.published.None? && t.face.confirmed.None?
  }

  lemma ConsumeRetracts(s: State, broken: bool)
    requires Enabled(s, Consume(broken)) && !s.phase.Debouncing?
    ensures Retracting(s, Next(s, Consume(broken)), broken)
  {
  }

  lemma RetractingGoesOn(s: State, t: State, e: Event, broken: bool)
    requires Retracting(s, t, broken) && Enabled(t, e) && FaceInv(t.face, t.phase, t.views)
    ensures Retracting(s, Next(t, e), broken) || Retracted(s, Next(t, e), broken)
  {
  }

  /** A notification that arrives while the controller waits or fetches withdraws
      whatever is published: the steps from its receipt on, in no time, are those
      of the withdrawal until nothing is published under a new generation, before
      any other fetch, refresh or wait. */
  lemma {:induction false} ConsumeWithdraws(states: seq<State>, events: seq<Event>, i: nat, j: nat, broken: bool)
    requires IsRun(states, events) && i < j < |states| && i < |events| && events[i] == Consume(broken)
    requires !states[i].phase.Debouncing?
    ensures (forall m :: i < m <= j ==> Retracting(states[i], states[m], broken)) ||
            exists k :: i < k <= j && Retracted(states[i], states[k], broken)
                        && forall m :: i < m < k ==> Retracting(states[i], states[m], broken)
  {
    hide IsRun, Enabled, Next, FaceInv, Retracting, Retracted;
    RunStarts(states, events);
    RunStep(states, events, j - 1);
    if j == i + 1 {
      ConsumeRetracts(states[i], broken);
    } else {
      ConsumeWithdraws(states, events, i, j - 1, broken);
      if forall m :: i < m <= j - 1 ==> Retracting(states[i], states[m], broken) {
        RunKeepsInv(states, events, j - 1);
        RetractingGoesOn(states[i], states[j - 1], events[j - 1], broken);
      }
    }
  }

  /** The debounce: before the next fetch begins, 500 ms pass without another
      notification being received. */
  ghost predicate Quiet(s: State, since: nat) {
    && since <= s.clock
    && match s.phase
       case Waiting(_) => since + DEBOUNCE <= s.clock
       case Fetching(_, _) => since + DEBOUNCE <= s.clock
       case Debouncing(until) => since + DEBOUNCE <= until
       case Ended => true
       case Withdrawing(_, after) => after.ToDebounce? || after.ToEnd? || since + DEBOUNCE <= s.clock
       case Establishing(_, _, _, _) => since + DEBOUNCE <= s.clock
  }

  lemma ConsumeIsQuiet(s: State, broken: bool)
    requires Enabled(s, Consume(broken))
    ensures Quiet(Next(s, Consume(broken)), s.clock)
  {
  }

  lemma NextKeepsQuiet(s: State, e: Event, since: nat)
    requires Enabled(s, e) && Quiet(s, since)
    ensures Quiet(Next(s, e), since)
  {
  }

  lemma {:induction false} StaysQuiet(states: seq<State>, events: seq<Event>, i: nat, j: nat)
    requires IsRun(states, events) && i < j < |states| && i < |events| && events[i].Consume?
    ensures Quiet(states[j], states[i].clock)
  {
    hide IsRun, Enabled, Next, Quiet;
    RunStarts(states, events);
    RunStep(states, events, j - 1);
    if j == i + 1 {
      ConsumeIsQuiet(states[i], events[i].broken);
    } else {
      StaysQuiet(states, events, i, j - 1);
      NextKeepsQuiet(states[j - 1], events[j - 1], states[i].clock);
    }
  }

  /** No fetch begins within 500 ms of a notification. */
  lemma FetchIsDebounced(states: seq<State>, events: seq<Event>, i: nat, j: nat)
    requires IsRun(states, events) && i < j < |events| && events[i].Consume? && events[j].BeginFetch?
    ensures states[i].clock + 500 <= states[j].clock
  {
    StaysQuiet(states, events, i, j);
  }

  /** ... and it begins no later: the timer is due 500 ms after the receipt. */
  ghost predicate Due(t: State, since: nat) {
    match t.phase
    case Withdrawing(_, after) => after.ToDebounce? && t.clock == since
    case Debouncing(until) => until == since + DEBOUNCE && t.clock <= until
    case Waiting(next) => t.clock <= since + DEBOUNCE && next <= since + DEBOUNCE
    case _ => false
  }

  lemma ConsumeIsDue(s: State)
    requires Enabled(s, Consume(false))
    ensures Due(Next(s, Consume(false)), s.clock)
  {
  }

  lemma NextKeepsDue(s: State, e: Event, since: nat)
    requires Enabled(s, e) && Due(s, since) && !e.Consume? && !e.BeginFetch?
    ensures Due(Next(s, e), since)
  {
  }

  /** After the last notification of a burst the next fetch begins within 500 ms:
      time does not pass that moment without it. */
  lemma {:induction false} FetchIsDue(states: seq<State>, events: seq<Event>, i: nat, j: nat)
    requires IsRun(states, events) && i < j < |states| && i < |events| && events[i] == Consume(false)
    requires forall m :: i < m < j ==> !events[m].Consume? && !events[m].BeginFetch?
    ensures Due(states[j], states[i].clock) && states[j].clock <= states[i].clock + 500
  {
    hide IsRun, Enabled, Next;
    RunStarts(states, events);
    RunStep(states, events, j - 1);
    if j == i + 1 {
      ConsumeIsDue(states[i]);
    } else {
      FetchIsDue(states, events, i, j - 1);
      NextKeepsDue(states[j - 1], events[j - 1], states[i].clock);
    }
  }

  /** The controller never hangs: in every state of every run it can go on by
      itself, or time can pass. */
  lemma NeverStuck(states: seq<State>, events: seq<Event>, i: nat)
    requires IsRun(states, events) && i < |states|
    ensures var s := states[i];
            || Enabled(s, Tick(1)) || Enabled(s, Consume(false)) || Enabled(s, BeginFetch) || Enabled(s, Refresh(None))
            || Enabled(s, DebounceOver) || Enabled(s, Proceed(Choice(false, 0, false)))
    ensures states[i].phase.Waiting? && states[i].consumed == states[i].delivered && states[i].clock == states[i].phase.next ==>
              Enabled(states[i], BeginFetch)
  {
    hide IsRun, FaceInv, ConnectionsInv, NoticeInv, NotedInv, TimeInv;
    RunKeepsInv(states, events, i);
  }

  // ----- What a refresh does -----

  /** A refresh that has given `view` is being applied. */
  ghost predicate Applying(t: State, view: View) {
    || (t.phase.Withdrawing? && t.phase.after.ToEstablish? && t.phase.after.job.view == view)
    || (t.phase.Withdrawing? && t.phase.after.ToWait?)
    || (t.phase.Establishing? && t.phase.job.view == view)
  }

  /** It has been applied: no other view is published, and this one is if a
      socket could be bound for it and the marker made. */
  ghost predicate Applied(t: State, view: View) {
    && t.phase.Waiting?
    && (t.face.current.Some? ==> t.face.current.value.view == view && t.face.published.Some? && t.face.published.value.0 == view)
  }

  lemma RefreshApplies(s: State, view: View)
    requires Enabled(s, Refresh(Some(view))) && NotedInv(s.face, s.phase)
    ensures Applying(Next(s, Refresh(Some(view))), view) || Applied(Next(s, Refresh(Some(view))), view)
  {
  }

  lemma ApplyingGoesOn(t: State, e: Event, view: View)
    requires Applying(t, view) && Enabled(t, e) && FaceInv(t.face, t.phase, t.views) && NotedInv(t.face, t.phase)
    ensures Applying(Next(t, e), view) || Applied(Next(t, e), view)
  {
    hide FaceInv;
    WithdrawnWhenForgetting(t);
  }

  /** Once a refresh with `view` has been applied, and before the controller does
      anything else, no other view is published. */
  lemma {:induction false} RefreshPublishes(states: seq<State>, events: seq<Event>, i: nat, j: nat, view: View)
    requires IsRun(states, events) && i < j < |states| && i < |events| && events[i] == Refresh(Some(view))
    ensures (forall m :: i < m <= j ==> Applying(states[m], view)) ||
            exists k :: i < k <= j && Applied(states[k], view) && forall m :: i < m < k ==> Applying(states[m], view)
  {
    hide IsRun, Enabled, Next, FaceInv, NotedInv, Applying, Applied;
    RunStarts(states, events);
    RunStep(states, events, j - 1);
    RunKeepsInv(states, events, j - 1);
    if j == i + 1 {
      RefreshApplies(states[i], view);
    } else {
      RefreshPublishes(states, events, i, j - 1, view);
      if forall m :: i < m <= j - 1 ==> Applying(states[m], view) {
        ApplyingGoesOn(states[j - 1], events[j - 1], view);
      }
    }
  }

  /** The generation has been withdrawn, or is over. */
  ghost predicate Revoked(s: State, g: nat) {
    g < s.face.generation || (g in s.views && s.face.current.None?)
  }

  lemma RevokedStays(s: State, e: Event, g: nat)
    requires Enabled(s, e) && FaceInv(s.face, s.phase, s.views) && Revoked(s, g)
    ensures Revoked(Next(s, e), g)
  {
  }

  /** Once withdrawn, a generation admits no source ever again. */
  lemma {:induction false} WithdrawnForever(states: seq<State>, events: seq<Event>, i: nat, j: nat, g: nat, source: Network.IpAddr)
    requires IsRun(states, events) && i <= j < |states| && Revoked(states[i], g)
    ensures Revoked(states[j], g) && !states[j].face.Admits(g, source)
  {
    hide IsRun, Enabled, Next, FaceInv, Revoked;
    RunStarts(states, events);
    RunKeepsInv(states, events, j);
    if i < j {
      WithdrawnForever(states, events, i, j - 1, g, source);
      RunStep(states, events, j - 1);
      RunKeepsInv(states, events, j - 1);
      RevokedStays(states[j - 1], events[j - 1], g);
    }
    RevokedRefuses(states[j], g, source);
  }

  lemma RevokedRefuses(s: State, g: nat, source: Network.IpAddr)
    requires FaceInv(s.face, s.phase, s.views) && Revoked(s, g)
    ensures !s.face.Admits(g, source)
  {
  }

  /** The connection has not begun its handshake. */
  ghost predicate NotServing(s: State, id: nat) {
    id in s.connections ==> !s.connections[id].stage.Serving?
  }

  lemma StaleNeverServes(s: State, e: Event, id: nat, g: nat)
    requires Enabled(s, e) && FaceInv(s.face, s.phase, s.views) && g < s.face.generation && NotServing(s, id)
    requires id in s.connections && s.connections[id].generation == g
    ensures NotServing(Next(s, e), id) && id in Next(s, e).connections && Next(s, e).connections[id].generation == g
    ensures g < Next(s, e).face.generation
  {
    NextKeepsViews(s, e);
  }

  /** A connection whose check comes after its generation has ended never starts
      a handshake. */
  lemma {:induction false} NoHandshakeAfterWithdrawal(states: seq<State>, events: seq<Event>, i: nat, j: nat, id: nat)
    requires IsRun(states, events) && i <= j < |states| && id in states[i].connections
    requires states[i].connections[id].generation < states[i].face.generation && NotServing(states[i], id)
    ensures NotServing(states[j], id) && id in states[j].connections
    ensures states[j].connections[id].generation == states[i].connections[id].generation < states[j].face.generation
  {
    hide IsRun, Enabled, Next, FaceInv, NotServing;
    RunStarts(states, events);
    if i < j {
      NoHandshakeAfterWithdrawal(states, events, i, j - 1, id);
      RunStep(states, events, j - 1);
      RunKeepsInv(states, events, j - 1);
      StaleNeverServes(states[j - 1], events[j - 1], id, states[i].connections[id].generation);
    }
  }

  /** Who is let in: a connection that was accepted is admitted exactly if its
      generation is the present one, with a published view in which its source is
      on-link; and an admitted one is served exactly if its generation still is. */
  lemma AdmissionDecides(states: seq<State>, events: seq<Event>, i: nat, id: nat)
    requires IsRun(states, events) && i < |events| && id in states[i].connections
    ensures var s, t, c := states[i], states[i + 1], states[i].connections[id];
            && id in t.connections && t.connections[id].source == c.source && t.connections[id].generation == c.generation
            && (events[i] == Admit(id) ==>
                  t.connections[id].stage ==
                  if c.generation == s.face.generation && s.face.current.Some?
                     && c.generation in s.views && Network.OnLink(s.views[c.generation].view, c.source) then Admitted else Finished)
            && (events[i] == Check(id) ==>
                  t.connections[id].stage == if c.generation == s.face.generation then Serving else Finished)
            && (events[i] !in {Admit(id), Check(id), Finish(id)} ==> t.connections[id].stage == c.stage)
  {
    hide IsRun, FaceInv, TimeInv, FetchInv, NoticeInv, NotedInv, ConnectionsInv;
    RunStarts(states, events);
    RunKeepsInv(states, events, i);
    RunStep(states, events, i);
    FacePublishes(states[i]);
  }

  /** Whoever is served came from a source that is on-link in the one view that
      its generation has published. */
  lemma ServedIsOnLink(states: seq<State>, events: seq<Event>, i: nat, id: nat)
    requires IsRun(states, events) && i < |states| && id in states[i].connections && states[i].connections[id].stage.Serving?
    ensures var c := states[i].connections[id];
            c.generation in states[i].views && Network.OnLink(states[i].views[c.generation].view, c.source)
  {
    hide IsRun, FaceInv, TimeInv, FetchInv;
    RunKeepsInv(states, events, i);
    assert AdmittedFromView(states[i].connections[id], states[i].views);
  }

  lemma {:induction false} OneViewPerGeneration(states: seq<State>, events: seq<Event>, i: nat, j: nat)
    requires IsRun(states, events) && i <= j < |states|
    ensures ViewsKept(states[i], states[j])
  {
    hide IsRun, Enabled, Next, FaceInv;
    RunStarts(states, events);
    if i < j {
      OneViewPerGeneration(states, events, i, j - 1);
      RunStep(states, events, j - 1);
      RunKeepsInv(states, events, j - 1);
      NextKeepsViews(states[j - 1], events[j - 1]);
    }
  }
}
