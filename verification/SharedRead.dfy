/** Single-flight reads (platformd/src/shared_read.rs): concurrent callers share
    one observation in progress, and nothing is cached. Every step below is one
    critical section of the slot's mutex, one event of an observation's task, or
    one poll of a caller, in any interleaving. */
module SharedRead {
  import opened Prelude

  /** Where an observation's task is. `Finished` and `Unwinding` tasks still have
      to drop their `EndFlight` and the sender of their channel, in any order. */
  datatype Task = Observing | Finished | Unwinding

  /** One channel: the value sent on it, and when. */
  datatype Flight<T> = Flight(task: Task, value: Option<T>, publishedAt: nat, endDropped: bool, closed: bool)

  /** `Done(None)` is the failure that a panicked observation gives. */
  datatype Outcome<T> = Waiting | Done(result: Option<T>) | Left

  datatype Caller<T> = Caller(flight: nat, joinedAt: nat, outcome: Outcome<T>)

  datatype State<T> = State(now: nat, slot: Option<nat>, flights: seq<Flight<T>>, callers: seq<Caller<T>>)

  function Init<T>(): State<T> {
    State(0, None, [], [])
  }

  datatype Step<T> =
    | Call
    | Complete(flight: nat, value: T)
    | Panic(flight: nat)
    | DropEnd(flight: nat)
    | DropSender(flight: nat)
    | Receive(caller: nat)
    | Leave(caller: nat)

  predicate Enabled<T>(s: State<T>, step: Step<T>) {
    match step
    case Call => true
    case Complete(f, _) => f < |s.flights| && s.flights[f].task == Observing
    case Panic(f) => f < |s.flights| && s.flights[f].task == Observing
    case DropEnd(f) => f < |s.flights| && s.flights[f].task != Observing && !s.flights[f].endDropped
    case DropSender(f) => f < |s.flights| && s.flights[f].task != Observing && !s.flights[f].closed
    case Receive(c) =>
      c < |s.callers| && s.callers[c].outcome == Waiting && s.callers[c].flight < |s.flights|
      && (s.flights[s.callers[c].flight].value.Some? || s.flights[s.callers[c].flight].closed)
    case Leave(c) => c < |s.callers| && s.callers[c].outcome == Waiting
  }

  /** `EndFlight::clear`: only its own channel leaves the slot. */
  function Cleared(slot: Option<nat>, flight: nat): Option<nat> {
    if slot == Some(flight) then None else slot
  }

  function Apply<T>(s: State<T>, step: Step<T>): State<T>
    requires Enabled(s, step)
  {
    var t := s.(now := s.now + 1);
    match step
    case Call =>
      (match s.slot
       case Some(f) => t.(callers := s.callers + [Caller(f, s.now, Waiting)])
       case None =>
         t.(slot := Some(|s.flights|),
            flights := s.flights + [Flight(Observing, None, 0, false, false)],
            callers := s.callers + [Caller(|s.flights|, s.now, Waiting)]))
    case Complete(f, v) =>
      t.(slot := Cleared(s.slot, f),
         flights := s.flights[f := s.flights[f].(task := Finished, value := Some(v), publishedAt := s.now)])
    case Panic(f) => t.(flights := s.flights[f := s.flights[f].(task := Unwinding)])
    case DropEnd(f) =>
      t.(slot := Cleared(s.slot, f), flights := s.flights[f := s.flights[f].(endDropped := true)])
    case DropSender(f) => t.(flights := s.flights[f := s.flights[f].(closed := true)])
    case Receive(c) =>
      t.(callers := s.callers[c := s.callers[c].(outcome := Done(s.flights[s.callers[c].flight].value))])
    case Leave(c) => t.(callers := s.callers[c := s.callers[c].(outcome := Left)])
  }

  /** A run: any interleaving of enabled steps. */
  ghost predicate IsRun<T>(run: seq<State<T>>, steps: seq<Step<T>>) {
    && |run| == |steps| + 1 && run[0] == Init()
    && forall i :: 0 <= i < |steps| ==> Enabled(run[i], steps[i]) && run[i + 1] == Apply(run[i], steps[i])
  }

  // ----- The invariant -----

  ghost predicate FlightOk<T>(s: State<T>, f: nat)
    requires f < |s.flights|
  {
    var flight := s.flights[f];
    && (flight.task == Observing ==> s.slot == Some(f) && !flight.endDropped && !flight.closed)
    && (flight.value.Some? <==> flight.task == Finished)
    && (flight.value.Some? ==> flight.publishedAt < s.now)
    && (s.slot == Some(f) ==> flight.value.None? && !flight.endDropped)
  }

  ghost predicate CallerOk<T>(s: State<T>, c: nat)
    requires c < |s.callers|
  {
    var caller := s.callers[c];
    && caller.flight < |s.flights| && caller.joinedAt < s.now
    && (s.flights[caller.flight].value.Some? ==> caller.joinedAt < s.flights[caller.flight].publishedAt)
    && (caller.outcome.Done? ==>
          && caller.outcome.result == s.flights[caller.flight].value
          && (caller.outcome.result.None? ==> s.flights[caller.flight].task == Unwinding))
  }

  ghost predicate Inv<T>(s: State<T>) {
    && (s.slot.Some? ==> s.slot.value < |s.flights|)
    && (forall f :: 0 <= f < |s.flights| ==> FlightOk(s, f))
    && (forall c :: 0 <= c < |s.callers| ==> CallerOk(s, c))
  }

  lemma StepKeepsInv<T>(s: State<T>, step: Step<T>)
    requires Inv(s) && Enabled(s, step)
    ensures Inv(Apply(s, step))
  {
    var t := Apply(s, step);
    forall f | 0 <= f < |t.flights| ensures FlightOk(t, f) {
      if f < |s.flights| { assert FlightOk(s, f); }
    }
    forall c | 0 <= c < |t.callers| ensures CallerOk(t, c) {
      if c < |s.callers| {
        assert CallerOk(s, c);
        assert FlightOk(s, s.callers[c].flight);
      } else if s.slot.Some? {
        assert FlightOk(s, s.slot.value);
      }
    }
  }

  lemma {:induction false} RunKeepsInv<T>(run: seq<State<T>>, steps: seq<Step<T>>, i: nat)
    requires IsRun(run, steps) && i < |run|
    ensures Inv(run[i])
  {
    if i > 0 {
      RunKeepsInv(run, steps, i - 1);
      StepKeepsInv(run[i - 1], steps[i - 1]);
    }
  }

  // ----- What every run gives -----

  /** At most one observation runs at a time. */
  lemma OneObservation<T>(run: seq<State<T>>, steps: seq<Step<T>>, i: nat, f: nat, g: nat)
    requires IsRun(run, steps) && i < |run| && f < |run[i].flights| && g < |run[i].flights|
    requires run[i].flights[f].task == run[i].flights[g].task == Observing
    ensures f == g
  {
    RunKeepsInv(run, steps, i);
    assert FlightOk(run[i], f) && FlightOk(run[i], g);
  }

  /** Flights are never forgotten, and what one has published never changes. */
  lemma {:induction false} FlightsLast<T>(run: seq<State<T>>, steps: seq<Step<T>>, i: nat, j: nat, f: nat)
    requires IsRun(run, steps) && i <= j < |run| && f < |run[i].flights|
    ensures f < |run[j].flights|
    ensures run[i].flights[f].task == Finished ==>
              run[j].flights[f].task == Finished && run[j].flights[f].value == run[i].flights[f].value
              && run[j].flights[f].publishedAt == run[i].flights[f].publishedAt
    ensures run[i].flights[f].task == Unwinding ==>
              run[j].flights[f].task == Unwinding && run[j].flights[f].value == run[i].flights[f].value
    decreases j
  {
    if i < j {
      FlightsLast(run, steps, i, j - 1, f);
    }
  }

  /** A caller keeps its flight, and its outcome once it has one. */
  lemma {:induction false} CallersLast<T>(run: seq<State<T>>, steps: seq<Step<T>>, i: nat, j: nat, c: nat)
    requires IsRun(run, steps) && i <= j < |run| && c < |run[i].callers|
    ensures c < |run[j].callers| && run[j].callers[c].flight == run[i].callers[c].flight
    ensures run[j].callers[c].joinedAt == run[i].callers[c].joinedAt
    ensures run[i].callers[c].outcome != Waiting ==> run[j].callers[c].outcome == run[i].callers[c].outcome
    decreases j
  {
    if i < j {
      CallersLast(run, steps, i, j - 1, c);
    }
  }

  /** No caller receives a value that was published before it took the lock, and
      a caller fails only if its observation panicked. */
  lemma FreshResult<T>(run: seq<State<T>>, steps: seq<Step<T>>, i: nat, c: nat)
    requires IsRun(run, steps) && i < |run| && c < |run[i].callers| && run[i].callers[c].outcome.Done?
    ensures var caller := run[i].callers[c];
            && caller.flight < |run[i].flights|
            && (caller.outcome.result.Some? ==>
                  && run[i].flights[caller.flight].value == caller.outcome.result
                  && caller.joinedAt < run[i].flights[caller.flight].publishedAt)
            && (caller.outcome.result.None? ==> run[i].flights[caller.flight].task == Unwinding)
  {
    RunKeepsInv(run, steps, i);
    assert CallerOk(run[i], c);
  }

  /** All callers of one flight get the same result, whenever they get it. */
  lemma SameResult<T>(run: seq<State<T>>, steps: seq<Step<T>>, i: nat, j: nat, c: nat, d: nat)
    requires IsRun(run, steps) && i <= j < |run| && c < |run[i].callers| && d < |run[j].callers|
    requires run[i].callers[c].flight == run[j].callers[d].flight
    requires run[i].callers[c].outcome.Done? && run[j].callers[d].outcome.Done?
    ensures run[i].callers[c].outcome == run[j].callers[d].outcome
  {
    RunKeepsInv(run, steps, i);
    RunKeepsInv(run, steps, j);
    var f := run[i].callers[c].flight;
    assert CallerOk(run[i], c) && CallerOk(run[j], d) && FlightOk(run[i], f);
    FlightsLast(run, steps, i, j, f);
  }

  /** The cleanup of an ended flight never removes a newer one from the slot,
      and a caller that finds the slot taken joins a flight that has published
      nothing yet. */
  lemma CleanupSparesNewer<T>(run: seq<State<T>>, steps: seq<Step<T>>, i: nat)
    requires IsRun(run, steps) && i < |steps|
    ensures steps[i].DropEnd? && run[i].slot != Some(steps[i].flight) ==> run[i + 1].slot == run[i].slot
    ensures steps[i].DropEnd? && run[i].slot == Some(steps[i].flight) ==>
              run[i].flights[steps[i].flight].task == Unwinding
    ensures steps[i].Call? && run[i].slot.Some? ==>
              run[i].slot.value < |run[i].flights| && run[i].flights[run[i].slot.value].value.None?
  {
    RunKeepsInv(run, steps, i);
    if run[i].slot.Some? { assert FlightOk(run[i], run[i].slot.value); }
  }

  /** No caller is stranded: once a flight's task is gone, each caller that still
      waits for it can be served, and the slot is free of it. */
  lemma NobodyStranded<T>(run: seq<State<T>>, steps: seq<Step<T>>, i: nat, c: nat)
    requires IsRun(run, steps) && i < |run| && c < |run[i].callers| && run[i].callers[c].outcome == Waiting
    requires run[i].callers[c].flight < |run[i].flights|
    requires var flight := run[i].flights[run[i].callers[c].flight]; flight.endDropped && flight.closed
    ensures Enabled(run[i], Receive(c)) && run[i].slot != Some(run[i].callers[c].flight)
  {
    RunKeepsInv(run, steps, i);
    assert FlightOk(run[i], run[i].callers[c].flight);
  }

  /** What is left to do once the observation of `f` has ended, in this order. */
  function Dropped<T>(s: State<T>, f: nat): State<T>
    requires f < |s.flights| && s.flights[f].task != Observing
  {
    var t := if s.flights[f].endDropped then s else Apply(s, DropEnd(f));
    if t.flights[f].closed then t else Apply(t, DropSender(f))
  }

  /** Once an observation has ended, by its value or by a panic, dropping its end
      and its sender frees the slot of it and serves everyone who waits for it,
      and changes no other flight and no caller. */
  lemma EndServesAll<T>(run: seq<State<T>>, steps: seq<Step<T>>, i: nat, f: nat)
    requires IsRun(run, steps) && i < |run| && f < |run[i].flights| && run[i].flights[f].task != Observing
    ensures var t := Dropped(run[i], f);
            && t.slot == (if run[i].slot == Some(f) then None else run[i].slot) && t.callers == run[i].callers
            && |t.flights| == |run[i].flights| && (forall g :: 0 <= g < |t.flights| && g != f ==> t.flights[g] == run[i].flights[g])
            && t.flights[f].value == run[i].flights[f].value
            && forall c :: 0 <= c < |t.callers| && t.callers[c].flight == f && t.callers[c].outcome == Waiting ==> Enabled(t, Receive(c))
  {
    RunKeepsInv(run, steps, i);
    assert FlightOk(run[i], f);
  }

  // ----- Where a result comes from -----

  /** The step that ends a flight with this result. */
  predicate Ends<T(==)>(step: Step<T>, flight: nat, result: Option<T>) {
    step == if result.Some? then Complete(flight, result.value) else Panic(flight)
  }

  /** The call that starts the flight finds every older one ended. */
  ghost predicate Starts<T>(s: State<T>, step: Step<T>, flight: nat) {
    && step.Call? && s.slot.None? && |s.flights| == flight
    && forall g :: 0 <= g < flight ==> s.flights[g].task != Observing
  }

  /** The call that makes the caller gives it a flight without a result. */
  ghost predicate Joins<T>(s: State<T>, step: Step<T>, t: State<T>, caller: nat, flight: nat) {
    && step.Call? && |s.callers| == caller < |t.callers| && t.callers[caller].flight == flight
    && flight < |t.flights| && t.flights[flight].value.None?
  }

  lemma RunStep<T>(run: seq<State<T>>, steps: seq<Step<T>>, i: nat)
    requires IsRun(run, steps) && i < |run|
    ensures |run| == |steps| + 1 && (i == 0 ==> run[0] == Init())
    ensures i > 0 ==> Inv(run[i - 1]) && Enabled(run[i - 1], steps[i - 1]) && run[i] == Apply(run[i - 1], steps[i - 1])
  {
    if i > 0 {
      RunKeepsInv(run, steps, i - 1);
    }
  }

  lemma StepStarts<T>(s: State<T>, step: Step<T>, f: nat)
    requires Inv(s) && Enabled(s, step) && f < |Apply(s, step).flights|
    ensures f >= |s.flights| ==> Starts(s, step, f)
  {
    if f >= |s.flights| {
      forall g | 0 <= g < f ensures s.flights[g].task != Observing {
        assert FlightOk(s, g);
      }
    }
  }

  /** Every flight was started by a call. */
  lemma {:induction false} FlightStarts<T>(run: seq<State<T>>, steps: seq<Step<T>>, i: nat, f: nat) returns (start: nat)
    requires IsRun(run, steps) && i < |run| && f < |run[i].flights|
    ensures start < i && |run| == |steps| + 1 && Starts(run[start], steps[start], f)
  {
    hide IsRun, Inv, Enabled, Apply, Starts;
    RunStep(run, steps, i);
    if i > 0 && f < |run[i - 1].flights| {
      start := FlightStarts(run, steps, i - 1, f);
    } else {
      start := i - 1;
      StepStarts(run[i - 1], steps[i - 1], f);
    }
  }

  lemma StepEnds<T>(s: State<T>, step: Step<T>, f: nat)
    requires Inv(s) && Enabled(s, step) && f < |Apply(s, step).flights| && Apply(s, step).flights[f].task != Observing
    ensures if f < |s.flights| && s.flights[f].task != Observing then Apply(s, step).flights[f].value == s.flights[f].value
            else Ends(step, f, Apply(s, step).flights[f].value)
  {
    if f < |s.flights| {
      assert FlightOk(s, f);
    }
  }

  /** Every flight that has ended was ended by the step that gave its result. */
  lemma {:induction false} FlightEnds<T>(run: seq<State<T>>, steps: seq<Step<T>>, i: nat, f: nat) returns (end: nat)
    requires IsRun(run, steps) && i < |run| && f < |run[i].flights| && run[i].flights[f].task != Observing
    ensures end < i && |run| == |steps| + 1 && Ends(steps[end], f, run[i].flights[f].value)
  {
    hide IsRun, Inv, Enabled, Apply, Ends;
    RunStep(run, steps, i);
    if i > 0 {
      StepEnds(run[i - 1], steps[i - 1], f);
      if f < |run[i - 1].flights| && run[i - 1].flights[f].task != Observing {
        end := FlightEnds(run, steps, i - 1, f);
      } else {
        end := i - 1;
      }
    }
  }

  lemma StepJoins<T>(s: State<T>, step: Step<T>, c: nat)
    requires Inv(s) && Enabled(s, step) && c < |Apply(s, step).callers|
    ensures if c < |s.callers| then Apply(s, step).callers[c].flight == s.callers[c].flight
            else Joins(s, step, Apply(s, step), c, Apply(s, step).callers[c].flight)
  {
    if s.slot.Some? {
      assert FlightOk(s, s.slot.value);
    }
  }

  /** Every caller was made by a call. */
  lemma {:induction false} CallerJoins<T>(run: seq<State<T>>, steps: seq<Step<T>>, i: nat, c: nat) returns (join: nat)
    requires IsRun(run, steps) && i < |run| && c < |run[i].callers|
    ensures join < i && |run| == |steps| + 1
    ensures Joins(run[join], steps[join], run[join + 1], c, run[i].callers[c].flight)
  {
    hide IsRun, Inv, Enabled, Apply, Joins;
    RunStep(run, steps, i);
    if i > 0 {
      StepJoins(run[i - 1], steps[i - 1], c);
      if c < |run[i - 1].callers| {
        join := CallerJoins(run, steps, i - 1, c);
      } else {
        join := i - 1;
      }
    }
  }

  /** Main result: whatever a caller receives is what its flight observed. Its
      flight was started when all older ones had ended, by its own call or an
      earlier one; the observation gave just this value, after the call; and a
      caller that receives nothing had an observation that panicked. */
  lemma ResultOrigin<T>(run: seq<State<T>>, steps: seq<Step<T>>, i: nat, c: nat)
    returns (start: nat, join: nat, end: nat)
    requires IsRun(run, steps) && i < |run| && c < |run[i].callers| && run[i].callers[c].outcome.Done?
    ensures start <= join < i && end < i && |run| == |steps| + 1
    ensures var caller := run[i].callers[c];
            && Starts(run[start], steps[start], caller.flight)
            && steps[join].Call? && |run[join].callers| == c
            && match caller.outcome.result
               case Some(v) => join < end && steps[end] == Complete(caller.flight, v)
               case None => start < end && steps[end] == Panic(caller.flight)
  {
    hide IsRun, Inv, Enabled, Apply;
    RunKeepsInv(run, steps, i);
    CallerEnded(run[i], c);
    var f := run[i].callers[c].flight;
    start := FlightStarts(run, steps, i, f);
    join := CallerJoins(run, steps, i, c);
    end := FlightEnds(run, steps, i, f);
    StartsFirst(run, steps, start, join + 1, f);
    RunStep(run, steps, end + 1);
    EndsAfterStart(run, steps, start, end, f, run[i].flights[f].value);
    if run[i].flights[f].value.Some? && end <= join {
      CompletedHas(run[end], steps[end], f, run[i].flights[f].value.value);
      FlightsLast(run, steps, end + 1, join + 1, f);
    }
  }

  lemma CallerEnded<T>(s: State<T>, c: nat)
    requires Inv(s) && c < |s.callers| && s.callers[c].outcome.Done?
    ensures var f := s.callers[c].flight;
            f < |s.flights| && s.flights[f].task != Observing && s.flights[f].value == s.callers[c].outcome.result
  {
    assert CallerOk(s, c) && FlightOk(s, s.callers[c].flight);
  }

  /** A flight is not there before it is started. */
  lemma StartsFirst<T>(run: seq<State<T>>, steps: seq<Step<T>>, start: nat, j: nat, f: nat)
    requires IsRun(run, steps) && start < |steps| && j < |run| && f < |run[j].flights|
    requires |run[start].flights| <= f
    ensures start < j
  {
    if j <= start {
      FlightsLast(run, steps, j, start, f);
    }
  }

  lemma EndsAfterStart<T>(run: seq<State<T>>, steps: seq<Step<T>>, start: nat, end: nat, f: nat, result: Option<T>)
    requires IsRun(run, steps) && start < |steps| && end < |steps| && |run[start].flights| <= f
    requires Ends(steps[end], f, result)
    ensures start < end
  {
    RunStep(run, steps, end + 1);
    StartsFirst(run, steps, start, end, f);
  }

  lemma CompletedHas<T>(s: State<T>, step: Step<T>, f: nat, v: T)
    requires Enabled(s, step) && Ends(step, f, Some(v))
    ensures f < |Apply(s, step).flights| && Apply(s, step).flights[f].task == Finished
    ensures Apply(s, step).flights[f].value == Some(v)
  {
  }

  // ----- The slot as the object that callers and tasks share -----

  class Reads<T> {
    var inFlight: Option<nat>
    var flights: seq<Flight<T>>
    var callers: seq<Caller<T>>
    var now: nat

    function Contents(): State<T>
      reads this
    {
      State(now, inFlight, flights, callers)
    }

    constructor ()
      ensures Contents() == Init()
    {
      inFlight, flights, callers, now := None, [], [], 0;
    }

    /** The critical section of `run`: join the flight in the slot, or start one. */
    method Join() returns (caller: nat)
      requires Inv(Contents())
      modifies this
      ensures Contents() == Apply(old(Contents()), Call) && Inv(Contents())
      ensures caller == |old(callers)| < |callers|
      ensures old(inFlight).Some? ==> callers[caller].flight == old(inFlight).value
      ensures old(inFlight).None? ==> inFlight == Some(callers[caller].flight)
    {
      StepKeepsInv(Contents(), Call);
      caller := |callers|;
      if inFlight.None? {
        inFlight := Some(|flights|);
        flights := flights + [Flight(Observing, None, 0, false, false)];
      }
      callers := callers + [Caller(inFlight.value, now, Waiting)];
      now := now + 1;
    }

    /** `EndFlight::clear`, under the lock that the caller holds. */
    method Clear(flight: nat)
      modifies this`inFlight
      ensures inFlight == Cleared(old(inFlight), flight)
    {
      if inFlight == Some(flight) {
        inFlight := None;
      }
    }

    /** The end of the spawned task: clear and publish in one critical section. */
    method Publish(flight: nat, value: T)
      requires Inv(Contents()) && Enabled(Contents(), Complete(flight, value))
      modifies this
      ensures Contents() == Apply(old(Contents()), Complete(flight, value)) && Inv(Contents())
    {
      StepKeepsInv(Contents(), Complete(flight, value));
      Clear(flight);
      flights := flights[flight := flights[flight].(task := Finished, value := Some(value), publishedAt := now)];
      now := now + 1;
    }

    /** `Drop for EndFlight`. */
    method Drop(flight: nat)
      requires Inv(Contents()) && Enabled(Contents(), DropEnd(flight))
      modifies this
      ensures Contents() == Apply(old(Contents()), DropEnd(flight)) && Inv(Contents())
      ensures old(inFlight) != Some(flight) ==> inFlight == old(inFlight)
    {
      StepKeepsInv(Contents(), DropEnd(flight));
      Clear(flight);
      flights := flights[flight := flights[flight].(endDropped := true)];
      now := now + 1;
    }

    /** The rest of `run`: `wait_for(Option::is_some)`. */
    method Await(caller: nat) returns (value: Option<T>)
      requires Inv(Contents()) && Enabled(Contents(), Receive(caller))
      modifies this
      ensures Contents() == Apply(old(Contents()), Receive(caller)) && Inv(Contents())
      ensures Done(value) == callers[caller].outcome
    {
      StepKeepsInv(Contents(), Receive(caller));
      value := flights[callers[caller].flight].value;
      callers := callers[caller := callers[caller].(outcome := Done(value))];
      now := now + 1;
    }
  }
}
