/** The service over one store: scripts of operations on a `Core`, and whole
    histories of such processes with restarts and power cuts between, do what the
    plain machine does. */
module AuthService {
  import opened Durable
  import opened Prelude
  import opened AuthStore
  import opened AuthSpec
  import opened AuthCore
  import opened AuthRuns
  import opened AuthTheorems

  datatype Call = Call(op: Op, env: Env)

  predicate Stops(log: seq<Reply<Value>>) {
    log != [] && log[|log| - 1].Stopped?
  }

  /** The plain machine after a script, and its replies; nothing follows a stop. */
  function Served(m: Machine, script: seq<Call>): (r: (Machine, seq<Reply<Value>>))
    ensures |r.1| <= |script|
  {
    if script == [] then (m, [])
    else
      var (m1, log) := Served(m, script[..|script| - 1]);
      if Stops(log) then (m1, log)
      else
        var call := script[|script| - 1];
        var (m2, reply) := Perform(m1, call.op, call.env);
        (m2, log + [reply])
  }

  method Answer(core: Core, call: Call) returns (r: Reply<Value>)
    requires core.Valid()
    modifies core, core.store
    ensures core.Valid() && (core.Abs(), r) == Perform(old(core.Abs()), call.op, call.env)
  {
    match call.op
    case Verify(uid, password) =>
      var reply := core.Verify(uid, password, call.env);
      r := if reply.Success? then Success(Nothing) else reply.As();
    case Consume(code, password) =>
      var reply := core.Consume(code, password, call.env);
      r := if reply.Success? then Success(Text(reply.value)) else reply.As();
    case Confirm(key) =>
      var reply := core.Confirm(key, call.env);
      r := if reply.Success? then Success(Nothing) else reply.As();
    case Recover(key, password) =>
      var reply := core.Recover(key, password, call.env);
      r := if reply.Success? then Success(Nothing) else reply.As();
    case EnsurePending =>
      var reply := core.EnsurePending(call.env);
      r := if reply.Success? then Success(Nothing) else reply.As();
    case CancelPending =>
      var reply := core.CancelPending(call.env);
      r := if reply.Success? then Success(Nothing) else reply.As();
    case Reset =>
      var reply := core.Reset(call.env);
      r := if reply.Success? then Success(Nothing) else reply.As();
    case GetPending =>
      var reply := core.GetPending(call.env);
      r := if reply.Success? then Success(Pending(reply.value.0, reply.value.1, reply.value.2)) else reply.As();
    case GetEnrollment =>
      var reply := core.GetEnrollment(call.env);
      r := if reply.Success? then Success(Enrollment(reply.value.0, reply.value.1)) else reply.As();
  }

  method Serve(core: Core, script: seq<Call>) returns (log: seq<Reply<Value>>)
    requires core.Valid()
    modifies core, core.store
    ensures core.Valid() && (core.Abs(), log) == Served(old(core.Abs()), script)
  {
    log := [];
    for i := 0 to |script|
      invariant core.Valid() && (core.Abs(), log) == Served(old(core.Abs()), script[..i])
    {
      assert script[..i + 1][..i] == script[..i];
      if !Stops(log) {
        var reply := Answer(core, script[i]);
        log := log + [reply];
      }
    }
    assert script[..|script|] == script;
  }

  // ----- Whole histories -----

  /** The plain world after a history of events, with the replies given; None if
      an event was not possible. */
  function History(w: World, events: seq<Event>): Option<(World, seq<Reply<Value>>)> {
    if events == [] then Some((w, []))
    else
      var e := events[|events| - 1];
      match History(w, events[..|events| - 1])
      case None => None
      case Some((u, log)) =>
        if !Enabled(u, e) then None
        else Some((Next(u, e), if e.Operate? then log + [Perform(u.m, e.op, e.env).1] else log))
  }

  /** A history with a sound start is a run, so that all that is proved of runs
      holds of it. */
  lemma {:induction false} HistoryIsRun(w: World, events: seq<Event>) returns (run: seq<World>)
    requires Initial(w) && History(w, events).Some?
    ensures IsRun(run, events) && run[0] == w && run[|events|] == History(w, events).value.0
  {
    if events == [] {
      run := [w];
    } else {
      var n := |events| - 1;
      var shorter := HistoryIsRun(w, events[..n]);
      run := shorter + [History(w, events).value.0];
      ExtendsRun(shorter, run, events);
    }
  }

  lemma ExtendsRun(shorter: seq<World>, run: seq<World>, events: seq<Event>)
    requires events != [] && IsRun(shorter, events[..|events| - 1])
    requires Enabled(shorter[|events| - 1], events[|events| - 1])
    requires run == shorter + [Next(shorter[|events| - 1], events[|events| - 1])]
    ensures IsRun(run, events)
  {
    forall i | 0 <= i < |events| ensures Enabled(run[i], events[i]) && run[i + 1] == Next(run[i], events[i]) {
      if i < |events| - 1 {
        assert events[..|events| - 1][i] == events[i];
      }
    }
  }

  lemma {:induction false} HistoryHadStart(w: World, events: seq<Event>, i: nat)
    requires i <= |events| && History(w, events).Some?
    ensures History(w, events[..i]).Some?
    decreases |events|
  {
    if i == |events| {
      assert events[..i] == events;
    } else {
      assert events[..|events| - 1][..i] == events[..i];
      HistoryHadStart(w, events[..|events| - 1], i);
    }
  }

  /** The state that a step starts from, in terms of the whole history. */
  lemma HistoryStep(w: World, events: seq<Event>, i: nat)
    requires i < |events| && History(w, events).Some?
    ensures History(w, events[..i]).Some? && Enabled(History(w, events[..i]).value.0, events[i])
    ensures var (u, log) := History(w, events[..i]).value;
            History(w, events[..i + 1]) ==
            Some((Next(u, events[i]), if events[i].Operate? then log + [Perform(u.m, events[i].op, events[i].env).1] else log))
  {
    HistoryHadStart(w, events, i);
    HistoryHadStart(w, events, i + 1);
    assert events[..i + 1][..i] == events[..i];
  }

  /** One event on the store: an operation of the running process, the start of
      a new one, or a power cut and a new one. */
  method Happen(core: Core, ghost down: bool, e: Event) returns (next: Core, log: seq<Reply<Value>>)
    requires core.Valid() && Enabled(World(core.Abs(), down), e)
    modifies core, core.store
    ensures next.Valid() && next.store == core.store && (next == core || fresh(next))
    ensures next.Abs() == Next(World(old(core.Abs()), down), e).m
    ensures log == if e.Operate? then [Perform(old(core.Abs()), e.op, e.env).1] else []
  {
    match e
    case Operate(op, env) =>
      var reply := Answer(core, Call(op, env));
      next, log := core, [reply];
    case Restart(removeFails, readFails, look) =>
      next := new Core(core.store, removeFails, readFails, look);
      log := [];
    case PowerCut(kept, temporary, removeFails, readFails, look) =>
      AccountsOnAfterCut(core.store.disk, kept);
      core.store.LosePower(kept, temporary);
      next := new Core(core.store, removeFails, readFails, look);
      log := [];
  }

  /** Every history of processes over one store, with operations, failed and
      interrupted writes, restarts and power cuts in any order, goes through the
      states of the plain machine and gives its replies. */
  method Live(first: Core, ghost down: bool, events: seq<Event>)
    returns (core: Core, log: seq<Reply<Value>>, ghost w: World)
    requires first.Valid() && History(World(first.Abs(), down), events).Some?
    modifies first, first.store
    ensures core.Valid() && core.store == first.store && w.m == core.Abs()
    ensures History(World(old(first.Abs()), down), events) == Some((w, log))
  {
    core, log, w := first, [], World(first.Abs(), down);
    for i := 0 to |events|
      invariant core.Valid() && core.store == first.store && (core == first || fresh(core)) && w.m == core.Abs()
      invariant History(World(old(first.Abs()), down), events[..i]) == Some((w, log))
    {
      HistoryStep(World(old(first.Abs()), down), events, i);
      ghost var u := w;
      w := Next(u, events[i]);
      assert u == World(core.Abs(), u.down) && log + [] == log;
      var replies;
      core, replies := Happen(core, u.down, events[i]);
      log := log + replies;
    }
    assert events[..|events|] == events;
  }
}
