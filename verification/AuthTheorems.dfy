/** Runs of the authentication machine, with steps in any order, and what every
    run guarantees. */
module AuthTheorems {
  import opened Durable
  import opened Prelude
  import opened Codes
  import opened AuthStore
  import opened AuthSpec
  import opened AuthRuns

  ghost predicate IsRun(run: seq<World>, events: seq<Event>) {
    && |run| == |events| + 1 && Initial(run[0])
    && forall i :: 0 <= i < |events| ==> Enabled(run[i], events[i]) && run[i + 1] == Next(run[i], events[i])
  }

  lemma RunShape(run: seq<World>, events: seq<Event>)
    requires IsRun(run, events)
    ensures |run| == |events| + 1
  {
  }

  lemma {:induction false} RunKeepsInv(run: seq<World>, events: seq<Event>, i: nat)
    requires IsRun(run, events) && i < |run|
    ensures Inv(run[i])
  {
    if i > 0 {
      RunKeepsInv(run, events, i - 1);
      NextKeepsInv(run[i - 1], events[i - 1]);
    }
  }

  // ----- Where an account on disk comes from -----

  ghost predicate OnDisk(disk: Disk<Account>, a: Account) {
    a == disk.base || a in disk.unsynced
  }

  ghost predicate Writes(run: seq<World>, events: seq<Event>, j: nat, a: Account)
    requires j < |events| && |run| == |events| + 1
  {
    events[j].Operate? && Legal(run[j].m, events[j].op, events[j].env, a)
  }

  lemma RewrittenOnDisk(disk: Disk<Account>, b: Account, effect: Effect, a: Account)
    requires OnDisk(Rewritten(disk, b, effect), a)
    ensures OnDisk(disk, a) || (effect != NO_WRITE && a == b)
  {
  }

  lemma NextOnDisk(w: World, e: Event, a: Account)
    requires Inv(w) && Enabled(w, e) && OnDisk(Next(w, e).m.disk, a) && a != NoAccount
    ensures OnDisk(w.m.disk, a) || (e.Operate? && Legal(w.m, e.op, e.env, a))
  {
    match e
    case Operate(op, env) =>
      var b, effect := OpWrites(w, op, env);
      RewrittenOnDisk(w.m.disk, b, effect, a);
    case Restart(removeFails, readFails, look) =>
      ReopenedOnDisk(w.m.disk, w.m.temporary, removeFails, readFails, look, a);
    case PowerCut(kept, temporary, removeFails, readFails, look) =>
      ReopenedOnDisk(w.m.disk.AfterCut(kept), temporary, removeFails, readFails, look, a);
  }

  lemma ReopenedOnDisk(disk: Disk<Account>, temporary: bool, removeFails: bool, readFails: bool, look: Look, a: Account)
    requires OnDisk(Reopened(disk, temporary, removeFails, readFails, look).m.disk, a) && a != NoAccount
    ensures OnDisk(disk, a)
  {
    var loads := !removeFails && !readFails && disk.Visible() != Unloadable;
    var effect := PrepareWrites(Machine(loads, disk, temporary && removeFails, None, false, map[]), look);
    RewrittenOnDisk(disk, NoAccount, effect, a);
  }

  /** Every account that a run's disk may show was there before the run or was
      written by an operation entitled to write it. */
  lemma {:induction false} Origin(run: seq<World>, events: seq<Event>, i: nat, a: Account) returns (j: nat)
    requires IsRun(run, events) && i < |run| && OnDisk(run[i].m.disk, a) && a != NoAccount
    ensures OnDisk(run[0].m.disk, a) || (j < i && Writes(run, events, j, a))
  {
    hide IsRun, Writes, OnDisk;
    j := 0;
    RunShape(run, events);
    if i > 0 {
      OriginStep(run, events, i - 1, a);
      if OnDisk(run[i - 1].m.disk, a) {
        j := Origin(run, events, i - 1, a);
      } else {
        j := i - 1;
      }
    }
  }

  lemma OriginStep(run: seq<World>, events: seq<Event>, k: nat, a: Account)
    requires IsRun(run, events) && k < |events| && OnDisk(run[k + 1].m.disk, a) && a != NoAccount
    ensures OnDisk(run[k].m.disk, a) || Writes(run, events, k, a)
  {
    RunKeepsInv(run, events, k);
    NextOnDisk(run[k], events[k], a);
  }

  /** `c` redeems the pending pairing code and commits an enrollment under `key`. */
  ghost predicate Redeems(run: seq<World>, events: seq<Event>, c: nat, key: string)
    requires c < |events| && |run| == |events| + 1
  {
    && events[c].Operate? && events[c].op.Consume? && run[c].m.Now() == NoAccount
    && Paired(run[c].m, events[c].op.code, events[c].env.first)
    && events[c].env.key.Some? && key == EncodeRecoveryKey(events[c].env.key.value)
    && AcceptablePassword(events[c].op.newPassword, events[c].env.key.value)
  }

  /** `j` presents `key` for the enrollment committed at wall time `committed`,
      and every wall reading of that operation is in the ten minutes after. */
  ghost predicate Confirms(run: seq<World>, events: seq<Event>, j: nat, key: string, committed: nat)
    requires j < |events| && |run| == |events| + 1
  {
    && events[j].Operate? && events[j].op.Confirm? && events[j].op.key == key
    && run[j].m.Now().Provisional? && run[j].m.Now().key == key
    && committed <= events[j].env.first.wall < committed + CONFIRMATION_WINDOW
    && committed <= events[j].env.second.wall < committed + CONFIRMATION_WINDOW
  }

  /** Starting from an empty disk, an enrolled account stems from a redeemed
      pairing and from a confirmation with its key within ten minutes of that
      commit, however the wall clock jumps. */
  lemma {:induction false} EnrollmentHistory(run: seq<World>, events: seq<Event>, i: nat, a: Account)
    returns (c: nat, j: nat)
    requires IsRun(run, events) && i < |run| && run[0].m.disk == Disk(NoAccount, [])
    requires OnDisk(run[i].m.disk, a) && a.Operator?
    ensures c < j < i && Redeems(run, events, c, a.key) && Confirms(run, events, j, a.key, events[c].env.wall)
  {
    j := Origin(run, events, i, a);
    assert OnDisk(run[j].m.disk, run[j].m.Now());
    if events[j].op.Recover? {
      c, j := EnrollmentHistory(run, events, j, run[j].m.Now());
    } else {
      c := Origin(run, events, j, run[j].m.Now());
    }
  }

  /** An account becomes enrolled only by a confirmation with the matching key
      inside its window, or because a power cut lost renames that no directory
      sync had followed. */
  lemma EnrolledOnlyByConfirm(w: World, e: Event)
    requires Inv(w) && Enabled(w, e) && !w.m.Now().Operator? && Next(w, e).m.Now().Operator?
    ensures
      || (e.PowerCut? && w.m.disk.unsynced != [])
      || (&& e.Operate? && e.op.Confirm? && w.m.Now().Provisional? && e.op.key == w.m.Now().key
          && Next(w, e).m.Now() == Operator(w.m.Now().password, w.m.Now().key)
          && !DeadlineExpired(w.m.Now().deadline, e.env.second.wall))
  {
    if !(e.PowerCut? && w.m.disk.unsynced != []) {
      NextNow(w, e);
    }
  }

  /** What one event can make of the visible account. */
  lemma NextNow(w: World, e: Event)
    requires Inv(w) && Enabled(w, e) && !(e.PowerCut? && w.m.disk.unsynced != [])
    ensures
      || Next(w, e).m.Now() == w.m.Now()
      || (e.Operate? && Legal(w.m, e.op, e.env, Next(w, e).m.Now()))
      || (!e.Operate? && Lapsed(w.m.Now(), e.look) && Next(w, e).m.Now() == NoAccount)
  {
    match e
    case Operate(op, env) =>
      var b, effect := OpWrites(w, op, env);
    case Restart(removeFails, readFails, look) =>
      ReopenSettles(w.m.disk, w.m.temporary, removeFails, readFails, look);
    case PowerCut(kept, temporary, removeFails, readFails, look) =>
      ReopenSettles(w.m.disk.AfterCut(kept), temporary, removeFails, readFails, look);
  }

  /** A provisional enrollment that an expiry check with `look` discards. */
  ghost predicate Lapsed(a: Account, look: Look) {
    a.Provisional? && DeadlineExpired(a.deadline, look.wall)
  }

  /** A reopened disk shows what it held, or nothing in place of an enrollment
      that has lapsed. */
  lemma ReopenSettles(disk: Disk<Account>, temporary: bool, removeFails: bool, readFails: bool, look: Look)
    ensures var now := Reopened(disk, temporary, removeFails, readFails, look).m.Now();
            now == disk.Visible() || (Lapsed(disk.Visible(), look) && now == NoAccount)
    ensures disk.unsynced == [] && !Lapsed(disk.Visible(), look) ==>
              Reopened(disk, temporary, removeFails, readFails, look).m.disk == disk
  {
    var loads := !removeFails && !readFails && disk.Visible() != Unloadable;
    var effect := PrepareWrites(Machine(loads, disk, temporary && removeFails, None, false, map[]), look);
  }

  // ----- The recovery key and the password -----

  /** An event that may replace the enrolled account `a`. */
  ghost predicate Disturbs(e: Event, a: Account)
    requires a.Operator?
  {
    e.Operate? && (e.op.Reset? || (e.op.Recover? && e.op.recoveryKey == a.key))
  }

  /** While nothing disturbs it, a durable enrolled account survives every
      operation, failure, restart and power cut. */
  lemma {:induction false} AccountPersists(run: seq<World>, events: seq<Event>, i: nat, j: nat, a: Account)
    requires IsRun(run, events) && i <= j < |run| && a.Operator? && run[i].m.disk == Disk(a, [])
    requires forall k :: i <= k < j ==> !Disturbs(events[k], a)
    ensures run[j].m.disk == Disk(a, [])
  {
    if i < j {
      AccountPersists(run, events, i, j - 1, a);
      RunKeepsInv(run, events, j - 1);
      UndisturbedStep(run[j - 1], events[j - 1], a);
    }
  }

  lemma UndisturbedStep(w: World, e: Event, a: Account)
    requires Inv(w) && Enabled(w, e) && a.Operator? && w.m.disk == Disk(a, []) && !Disturbs(e, a)
    ensures Next(w, e).m.disk == Disk(a, [])
  {
    match e
    case Operate(op, env) =>
      var b, effect := OpWrites(w, op, env);
    case Restart(removeFails, readFails, look) =>
      ReopenSettles(w.m.disk, w.m.temporary, removeFails, readFails, look);
    case PowerCut(kept, temporary, removeFails, readFails, look) =>
      assert w.m.disk.AfterCut(kept) == w.m.disk;
      ReopenSettles(w.m.disk.AfterCut(kept), temporary, removeFails, readFails, look);
  }

  /** The recovery that puts `a` in place, with its key. */
  ghost predicate Chooses(events: seq<Event>, k: nat, a: Account)
    requires k < |events|
  {
    events[k].Operate? && events[k].op.Recover? && a == Operator(events[k].op.replacement, events[k].op.recoveryKey)
  }

  /** Neither a reset nor a power cut that loses renames. */
  ghost predicate Calm(run: seq<World>, events: seq<Event>, k: nat)
    requires k < |events| && |run| == |events| + 1
  {
    !IsReset(events[k]) && !(events[k].PowerCut? && run[k].m.disk.unsynced != [])
  }

  ghost predicate Steady(run: seq<World>, from: nat, to: nat)
    requires from <= to < |run|
  {
    forall k :: from <= k <= to ==> run[k].m.Now() == run[to].m.Now()
  }

  lemma SteadyAt(run: seq<World>, k: nat)
    requires k < |run|
    ensures Steady(run, k, k)
  {
  }

  lemma SteadyGrows(run: seq<World>, from: nat, to: nat)
    requires from <= to < |run| - 1 && Steady(run, from, to) && run[to].m.Now() == run[to + 1].m.Now()
    ensures Steady(run, from, to + 1)
  {
  }

  /** Every account that the disk may show is enrolled under this key. */
  ghost predicate AllUnderKey(disk: Disk<Account>, key: string) {
    forall a :: OnDisk(disk, a) ==> a.Operator? && a.key == key
  }

  /** The recovery key never changes until a reset, through failed syncs,
      restarts and power cuts at any point; and every password that the disk may
      show was there before or was chosen with that key. */
  lemma {:induction false} KeyUntilReset(run: seq<World>, events: seq<Event>, i: nat, j: nat, key: string)
    requires IsRun(run, events) && i <= j < |run| && AllUnderKey(run[i].m.disk, key)
    requires forall k :: i <= k < j ==> !IsReset(events[k])
    ensures AllUnderKey(run[j].m.disk, key)
    ensures forall a :: OnDisk(run[j].m.disk, a) ==>
                          OnDisk(run[i].m.disk, a) || exists k :: i <= k < j && Chooses(events, k, a)
  {
    hide IsRun, Chooses, AllUnderKey, OnDisk, IsReset;
    RunShape(run, events);
    if i < j {
      KeyUntilReset(run, events, i, j - 1, key);
      UnderKeyStep(run, events, j - 1, key);
    }
  }

  ghost predicate IsReset(e: Event) {
    e.Operate? && e.op.Reset?
  }

  lemma UnderKeyStep(run: seq<World>, events: seq<Event>, k: nat, key: string)
    requires IsRun(run, events) && k < |events| && AllUnderKey(run[k].m.disk, key) && !IsReset(events[k])
    ensures AllUnderKey(run[k + 1].m.disk, key)
    ensures forall a :: OnDisk(run[k + 1].m.disk, a) ==> OnDisk(run[k].m.disk, a) || Chooses(events, k, a)
  {
    RunKeepsInv(run, events, k);
    var w := run[k];
    assert OnDisk(w.m.disk, w.m.Now());
    match events[k]
    case Operate(op, env) =>
      var b, effect := OpWrites(w, op, env);
      forall a | OnDisk(run[k + 1].m.disk, a) ensures OnDisk(w.m.disk, a) || (Chooses(events, k, a) && a.key == key) {
        RewrittenOnDisk(w.m.disk, b, effect, a);
      }
    case Restart(removeFails, readFails, look) =>
      ReopenKeepsEnrolled(w.m.disk, w.m.temporary, removeFails, readFails, look);
    case PowerCut(kept, temporary, removeFails, readFails, look) =>
      assert OnDisk(w.m.disk, w.m.disk.AfterCut(kept).Visible());
      ReopenKeepsEnrolled(w.m.disk.AfterCut(kept), temporary, removeFails, readFails, look);
  }

  lemma ReopenKeepsEnrolled(disk: Disk<Account>, temporary: bool, removeFails: bool, readFails: bool, look: Look)
    requires disk.Visible().Operator?
    ensures Reopened(disk, temporary, removeFails, readFails, look).m.disk == disk
  {
    var loads := !removeFails && !readFails && disk.Visible() != Unloadable;
    var effect := PrepareWrites(Machine(loads, disk, temporary && removeFails, None, false, map[]), look);
  }

  /** While no power cut loses a rename either, the visible password is the one
      last chosen. */
  lemma {:induction false} PasswordIsLastChosen(run: seq<World>, events: seq<Event>, i: nat, j: nat)
    returns (chosen: nat)
    requires IsRun(run, events) && i <= j < |run| && run[i].m.Now().Operator?
    requires forall k :: i <= k < j ==> Calm(run, events, k)
    ensures run[j].m.Now().Operator? && run[j].m.Now().key == run[i].m.Now().key
    ensures i <= chosen <= j && Steady(run, chosen, j)
    ensures chosen == i || Chooses(events, chosen - 1, run[j].m.Now())
  {
    hide IsRun, Chooses, Calm, Steady;
    chosen := i;
    RunShape(run, events);
    SteadyAt(run, i);
    if i < j {
      chosen := PasswordIsLastChosen(run, events, i, j - 1);
      KeyStep(run, events, j - 1);
      if run[j].m.Now() != run[j - 1].m.Now() {
        chosen := j;
        SteadyAt(run, j);
      } else {
        SteadyGrows(run, chosen, j - 1);
      }
    }
  }

  lemma KeyStep(run: seq<World>, events: seq<Event>, k: nat)
    requires IsRun(run, events) && k < |events| && run[k].m.Now().Operator? && Calm(run, events, k)
    ensures
      || run[k + 1].m.Now() == run[k].m.Now()
      || (run[k + 1].m.Now().Operator? && run[k + 1].m.Now().key == run[k].m.Now().key
          && Chooses(events, k, run[k + 1].m.Now()))
  {
    RunKeepsInv(run, events, k);
    NextNow(run[k], events[k]);
  }

  // ----- Replies -----

  function ReplyOf(w: World, e: Event): Reply<Value>
    requires e.Operate?
  {
    Perform(w.m, e.op, e.env).1
  }

  /** A success is durable: the account it installs is on disk, synced. */
  lemma SuccessIsDurable(w: World, op: Op, env: Env)
    requires Inv(w) && !w.down && Perform(w.m, op, env).1.Success?
    ensures var (m, r) := Perform(w.m, op, env);
            && (op.Reset? ==> m.disk == Disk(NoAccount, []) && m.backoff == map[] && m.pairing.None?)
            && (op.Consume? ==> r.value.Text? && m.disk == Disk(Provisional(op.newPassword, r.value.text, env.wall + CONFIRMATION_WINDOW), []))
            && (op.Confirm? ==> w.m.Now().Provisional? && op.key == w.m.Now().key
                                && m.disk == Disk(Operator(w.m.Now().password, op.key), []))
            && (op.Recover? ==> w.m.Now().Operator? && op.recoveryKey == w.m.Now().key
                                && m.disk == Disk(Operator(op.replacement, op.recoveryKey), []))
  {
    PrepareEffect(w.m, env.first);
    match op
    case Consume(code, password) => ConsumeSuccess(Prepare(w.m, env.first).0, code, password, env);
    case Confirm(key) => ConfirmSuccess(Prepare(w.m, env.first).0, key, env);
    case Recover(key, password) => RecoverSuccess(Prepare(w.m, env.first).0, key, password, env);
    case _ =>
  }

  lemma ConsumeSuccess(m: Machine, code: string, password: string, env: Env)
    requires ConsumePrepared(m, code, password, env).1.Success?
    ensures var (m1, r) := ConsumePrepared(m, code, password, env);
            m1.disk == Disk(Provisional(password, r.value, env.wall + CONFIRMATION_WINDOW), [])
  {
    RedeemSuccess(m, ParsePairingCode(code).value, password, env);
  }

  lemma RedeemSuccess(m: Machine, submitted: Code, password: string, env: Env)
    requires Redeem(m, submitted, password, env).1.Success?
    ensures var (m1, r) := Redeem(m, submitted, password, env);
            m1.disk == Disk(Provisional(password, r.value, env.wall + CONFIRMATION_WINDOW), [])
  {
    EnrollSuccess(m, submitted, password, env);
  }

  lemma EnrollSuccess(m: Machine, code: Code, password: string, env: Env)
    ensures var (m1, r) := Enroll(m, code, password, env);
            r.Success? ==> m1.disk == Disk(Provisional(password, r.value, env.wall + CONFIRMATION_WINDOW), [])
  {
  }

  lemma ConfirmSuccess(m: Machine, key: string, env: Env)
    requires m.known && ConfirmPrepared(m, key, env).1.Success?
    ensures m.Now().Provisional? && key == m.Now().key
    ensures ConfirmPrepared(m, key, env).0.disk == Disk(Operator(m.Now().password, key), [])
  {
    var b, effect := ConfirmWrites(m, key, env);
    PrepareEffect(m, env.second);
  }

  lemma RecoverSuccess(m: Machine, key: string, password: string, env: Env)
    requires RecoverPrepared(m, key, password, env).1.Success?
    ensures m.Now().Operator? && key == m.Now().key
    ensures RecoverPrepared(m, key, password, env).0.disk == Disk(Operator(password, key), [])
  {
    var b, effect := RecoverWrites(m, key, password, env);
  }

  // ----- Failures and crashes -----

  /** After the operation and a restart or power cut, the account is the one
      before or one that the operation was entitled to write; or nothing, in
      place of such an enrollment that has lapsed. */
  ghost predicate OldOrNew(w: World, op: Op, env: Env, e: Event)
    requires !w.down && !e.Operate? && Enabled(Next(w, Operate(op, env)), e)
  {
    var now := Next(Next(w, Operate(op, env)), e).m.Now();
    || Entitled(w, op, env, now)
    || (now == NoAccount && exists b :: Entitled(w, op, env, b) && Lapsed(b, e.look))
  }

  ghost predicate Entitled(w: World, op: Op, env: Env, b: Account) {
    b == w.m.Now() || Legal(w.m, op, env, b)
  }

  /** An enrollment that every reading of the clock shows lapsed. */
  ghost predicate Doomed(a: Account) {
    a.Provisional? && a.deadline == 0
  }

  /** A power cut now would leave the visible account, as no other is on disk;
      nothing in place of an enrollment that is lapsed in any case. */
  ghost predicate Agreed(disk: Disk<Account>) {
    forall a :: OnDisk(disk, a) ==> a == disk.Visible() || (a == NoAccount && Doomed(disk.Visible()))
  }

  /** Wherever an operation is cut short or fails, a restart or a power cut
      leads to the account before it or to the one it was entitled to write; for
      all operations, inputs and crashes exactly if all accounts on disk agree. */
  lemma CrashGivesOldOrNew(w: World)
    requires Inv(w) && !w.down
    ensures (forall op: Op, env: Env, e: Event :: !e.Operate? && Enabled(Next(w, Operate(op, env)), e) ==> OldOrNew(w, op, env, e))
            <==> Agreed(w.m.disk)
  {
    if Agreed(w.m.disk) {
      forall op: Op, env: Env, e: Event | !e.Operate? && Enabled(Next(w, Operate(op, env)), e) ensures OldOrNew(w, op, env, e) {
        AgreedCrash(w, op, env, e);
      }
    } else {
      var a :| OnDisk(w.m.disk, a) && a != w.m.Now() && !(a == NoAccount && Doomed(w.m.Now()));
      DisagreedCrash(w, a);
    }
  }

  lemma AgreedCrash(w: World, op: Op, env: Env, e: Event)
    requires Inv(w) && !w.down && Agreed(w.m.disk) && !e.Operate? && Enabled(Next(w, Operate(op, env)), e)
    ensures OldOrNew(w, op, env, e)
  {
    hide OldOrNew, Agreed;
    var disk := Perform(w.m, op, env).0.disk;
    var left := if e.PowerCut? then disk.AfterCut(e.kept) else disk;
    if e.PowerCut? {
      ReopenSettles(left, e.temporary, e.removeFails, e.readFails, e.look);
    } else {
      ReopenSettles(left, Perform(w.m, op, env).0.temporary, e.removeFails, e.readFails, e.look);
    }
    LeftIsEntitled(w, op, env, e);
    LeftIsOldOrNew(w, op, env, e, left.Visible());
  }

  /** What the crash leaves on disk, before the expiry check. */
  lemma LeftIsEntitled(w: World, op: Op, env: Env, e: Event)
    requires Inv(w) && !w.down && Agreed(w.m.disk) && !e.Operate? && Enabled(Next(w, Operate(op, env)), e)
    ensures var disk := Perform(w.m, op, env).0.disk;
            var a := if e.PowerCut? then disk.AfterCut(e.kept).Visible() else disk.Visible();
            Entitled(w, op, env, a) || (a == NoAccount && Doomed(w.m.Now()))
  {
    var b, effect := OpWrites(w, op, env);
    var disk := Perform(w.m, op, env).0.disk;
    if e.PowerCut? {
      assert OnDisk(disk, disk.AfterCut(e.kept).Visible());
      RewrittenOnDisk(w.m.disk, b, effect, disk.AfterCut(e.kept).Visible());
    }
  }

  lemma LeftIsOldOrNew(w: World, op: Op, env: Env, e: Event, a: Account)
    requires !w.down && !e.Operate? && Enabled(Next(w, Operate(op, env)), e)
    requires Entitled(w, op, env, a) || (a == NoAccount && Doomed(w.m.Now()))
    requires var now := Next(Next(w, Operate(op, env)), e).m.Now(); now == a || (Lapsed(a, e.look) && now == NoAccount)
    ensures OldOrNew(w, op, env, e)
  {
    hide Next, Legal;
    if !Entitled(w, op, env, a) {
      assert Entitled(w, op, env, w.m.Now()) && Lapsed(w.m.Now(), e.look);
    }
  }

  /** A read with an unreadable clock changes nothing; the power cut that follows
      leaves the other account. */
  lemma DisagreedCrash(w: World, a: Account)
    requires Inv(w) && !w.down
    requires OnDisk(w.m.disk, a) && a != w.m.Now() && !(a == NoAccount && Doomed(w.m.Now()))
    ensures exists op: Op, env: Env, e: Event :: !e.Operate? && Enabled(Next(w, Operate(op, env)), e) && !OldOrNew(w, op, env, e)
  {
    var early := if w.m.Now().Provisional? && w.m.Now().deadline > 0 then w.m.Now().deadline - 1 else 0;
    var look := Look(None, early, CALM.faults);
    var env := SYNC_FAILS.(first := look, second := look);
    CutLeavesWhatIsOnDisk(w.m.disk, a);
    var kept: nat :| kept <= |w.m.disk.unsynced| && w.m.disk.AfterCut(kept).Visible() == a;
    var e := PowerCut(kept, false, true, false, look);
    assert Next(w, Operate(GetEnrollment, env)) == w;
    assert Next(w, e).m.Now() == a;
    assert !OldOrNew(w, GetEnrollment, env, e);
  }

  /** The accounts that a power cut can leave are exactly those on disk. */
  lemma CutLeavesWhatIsOnDisk(disk: Disk<Account>, a: Account)
    ensures OnDisk(disk, a) <==> exists kept: nat :: kept <= |disk.unsynced| && disk.AfterCut(kept).Visible() == a
  {
    if a in disk.unsynced {
      var i :| 0 <= i < |disk.unsynced| && disk.unsynced[i] == a;
      assert disk.AfterCut(i + 1).Visible() == a;
    } else if a == disk.base {
      assert disk.AfterCut(0).Visible() == a;
    }
  }

  /** A success needs no condition: whatever follows it finds what it has put in
      place, or nothing if that has lapsed. */
  lemma SuccessSurvivesCrash(w: World, op: Op, env: Env, e: Event)
    requires Inv(w) && !w.down && Mutating(op) && Perform(w.m, op, env).1.Success?
    requires !e.Operate? && Enabled(Next(w, Operate(op, env)), e)
    ensures var b := Perform(w.m, op, env).0.Now();
            var now := Next(Next(w, Operate(op, env)), e).m.Now();
            now == b || (Lapsed(b, e.look) && now == NoAccount)
  {
    SuccessIsDurable(w, op, env);
    var disk := Perform(w.m, op, env).0.disk;
    if e.PowerCut? {
      assert disk.AfterCut(e.kept) == disk;
      ReopenSettles(disk, e.temporary, e.removeFails, e.readFails, e.look);
    } else {
      ReopenSettles(disk, Perform(w.m, op, env).0.temporary, e.removeFails, e.readFails, e.look);
    }
  }

  /** A state that is known has no rename that is not synced. */
  ghost predicate KnownIsSynced(w: World) {
    w.m.known ==> w.m.disk.unsynced == []
  }

  lemma PerformKeepsSynced(w: World, op: Op, env: Env)
    requires Inv(w) && !w.down && KnownIsSynced(w)
    ensures KnownIsSynced(Next(w, Operate(op, env)))
  {
    if op.Reset? {
      PrepareUntrusted(w.m, env.first);
    } else if !w.m.known {
      UnknownRefuses(w.m, op, env);
    } else if |Perform(w.m, op, env).0.disk.unsynced| > |w.m.disk.unsynced| {
      UnsyncedIsUntrusted(w, op, env);
    }
  }

  lemma ReopenedIsSynced(disk: Disk<Account>, temporary: bool, removeFails: bool, readFails: bool, look: Look)
    requires disk.unsynced == []
    ensures KnownIsSynced(Reopened(disk, temporary, removeFails, readFails, look))
  {
    var loads := !removeFails && !readFails && disk.Visible() != Unloadable;
    PrepareUntrusted(Machine(loads, disk, temporary && removeFails, None, false, map[]), look);
  }

  /** Since a start on a synced disk, through power cuts and without a restart
      of the process alone, a known state is synced, so that all accounts on disk
      agree and every crash gives the old account or the new one. */
  lemma {:induction false} KnownMeansSynced(run: seq<World>, events: seq<Event>, i: nat, j: nat)
    requires IsRun(run, events) && i <= j < |run| && KnownIsSynced(run[i])
    requires forall k :: i <= k < j ==> !events[k].Restart?
    ensures KnownIsSynced(run[j]) && (run[j].m.known ==> Agreed(run[j].m.disk))
  {
    hide IsRun, KnownIsSynced;
    RunShape(run, events);
    if i < j {
      KnownMeansSynced(run, events, i, j - 1);
      SyncedStep(run, events, j - 1);
    }
    SyncedAgrees(run[j]);
  }

  lemma SyncedStep(run: seq<World>, events: seq<Event>, k: nat)
    requires IsRun(run, events) && k < |events| && KnownIsSynced(run[k]) && !events[k].Restart?
    ensures KnownIsSynced(run[k + 1])
  {
    RunKeepsInv(run, events, k);
    match events[k]
    case Operate(op, env) => PerformKeepsSynced(run[k], op, env);
    case PowerCut(kept, temporary, removeFails, readFails, look) =>
      ReopenedIsSynced(run[k].m.disk.AfterCut(kept), temporary, removeFails, readFails, look);
  }

  lemma SyncedAgrees(w: World)
    requires KnownIsSynced(w)
    ensures w.m.known ==> Agreed(w.m.disk)
  {
  }

  /** A state that cannot be trusted refuses everything but a reset. */
  lemma UnknownRefuses(m: Machine, op: Op, env: Env)
    requires !m.known && !op.Reset?
    ensures Perform(m, op, env) == (m, Failed(Unavailable))
  {
  }

  /** After a rename that no directory sync has followed, the state is no longer
      trusted, and it stays so until a reset succeeds or the process restarts. */
  lemma UnsyncedIsUntrusted(w: World, op: Op, env: Env)
    requires Inv(w) && !w.down && |Perform(w.m, op, env).0.disk.unsynced| > |w.m.disk.unsynced|
    ensures !Perform(w.m, op, env).0.known && !Perform(w.m, op, env).1.Success?
  {
    PrepareUntrusted(w.m, env.first);
    var m1 := Prepare(w.m, env.first).0;
    match op
    case Consume(code, password) => ConsumeUntrusted(m1, code, password, env);
    case Confirm(key) => ConfirmUntrusted(m1, key, env);
    case Recover(key, password) => RecoverUntrusted(m1, key, password, env);
    case Verify(uid, password) => VerifyUntrusted(m1, uid, password, env);
    case _ => PairingOpUntrusted(w.m, op, env);
  }

  ghost predicate SyncedOrUntrusted<T>(m: Machine, result: (Machine, Reply<T>)) {
    |result.0.disk.unsynced| > |m.disk.unsynced| ==> !result.0.known && !result.1.Success?
  }

  lemma PrepareUntrusted(m: Machine, look: Look)
    ensures SyncedOrUntrusted(m, Prepare(m, look))
    ensures Prepare(m, look).1.Success? ==> |Prepare(m, look).0.disk.unsynced| <= |m.disk.unsynced|
  {
  }

  lemma VerifyUntrusted(m: Machine, uid: nat, password: string, env: Env)
    ensures SyncedOrUntrusted(m, VerifyPrepared(m, uid, password, env))
  {
  }

  lemma PairingOpUntrusted(m: Machine, op: Op, env: Env)
    requires op.EnsurePending? || op.CancelPending? || op.GetPending? || op.GetEnrollment? || op.Reset?
    ensures SyncedOrUntrusted(m, Perform(m, op, env))
  {
    PrepareUntrusted(m, env.first);
  }

  lemma ConsumeUntrusted(m: Machine, code: string, password: string, env: Env)
    ensures SyncedOrUntrusted(m, ConsumePrepared(m, code, password, env))
  {
    if ParsePairingCode(code).Some? {
      RedeemUntrusted(m, ParsePairingCode(code).value, password, env);
    }
  }

  lemma RedeemUntrusted(m: Machine, submitted: Code, password: string, env: Env)
    ensures SyncedOrUntrusted(m, Redeem(m, submitted, password, env))
  {
    EnrollUntrusted(m, submitted, password, env);
  }

  lemma EnrollUntrusted(m: Machine, code: Code, password: string, env: Env)
    ensures SyncedOrUntrusted(m, Enroll(m, code, password, env))
  {
  }

  lemma ConfirmUntrusted(m: Machine, key: string, env: Env)
    ensures SyncedOrUntrusted(m, ConfirmPrepared(m, key, env))
  {
    PrepareUntrusted(m, env.second);
  }

  lemma RecoverUntrusted(m: Machine, key: string, password: string, env: Env)
    ensures SyncedOrUntrusted(m, RecoverPrepared(m, key, password, env))
  {
  }

  const CALM := Look(Some(0), 0, Faults(Pass, Pass, Pass, Pass, Pass, false))

  const SYNC_FAILS := Env(CALM, CALM, None, false, None, None, None, None, None, None, 0,
                          Faults(Pass, Pass, Pass, Pass, Fail, false))

  /** A reset whose directory sync fails is visible after a restart, which
      reports nobody enrolled; a power cut then brings the account back. */
  lemma UnsyncedResetIsLost(a: Account) returns (run: seq<World>, events: seq<Event>)
    requires a.Operator? && Sound(a)
    ensures IsRun(run, events) && |run| == 5 && run[1].m.Now() == a && run[4].m.Now() == a
    ensures events[1].Operate? && events[1].op.Reset? && ReplyOf(run[1], events[1]) == Failed(Unavailable)
    ensures run[3].m.known && run[3].m.Now() == NoAccount && events[3].PowerCut? && run[3].m.disk.unsynced != []
  {
    var w0 := World(Machine(false, Disk(a, []), false, None, false, map[]), true);
    var restart := Restart(false, false, CALM);
    var reset := Operate(Reset, SYNC_FAILS);
    var cut := PowerCut(0, false, false, false, CALM);
    var w1 := Next(w0, restart);
    assert w1 == World(Machine(true, Disk(a, []), false, None, false, map[]), false);
    var w2 := Next(w1, reset);
    assert w2 == World(Machine(false, Disk(a, [NoAccount]), false, None, false, map[]), false);
    var w3 := Next(w2, restart);
    assert w3 == World(Machine(true, Disk(a, [NoAccount]), false, None, false, map[]), false);
    var w4 := Next(w3, cut);
    assert w4 == w1;
    run, events := [w0, w1, w2, w3, w4], [restart, reset, restart, cut];
    assert Initial(w0);
  }

  // ----- The pending pairing -----

  /** `EnsurePendingPairing` finds no pairing, or one that has expired, and
      leaves `q`. */
  ghost predicate Created(p: Option<Pairing>, q: Option<Pairing>, op: Op, env: Env) {
    && op.EnsurePending? && env.code.Some? && env.boot.Some?
    && (p.Some? ==> env.first.boot.Some? && env.first.boot.value >= p.value.expiresBoot)
    && q == Some(Pairing(env.code.value, env.boot.value + PAIRING_LIFETIME, env.wall + PAIRING_LIFETIME, 0))
  }

  ghost predicate Continued(p: Option<Pairing>, q: Option<Pairing>, wrong: bool) {
    p.Some? && q == Some(p.value.(wrongAttempts := p.value.wrongAttempts + if wrong then 1 else 0))
  }

  /** How the pairing moves from `p` to `q` in an operation. */
  ghost predicate PairingMoves(p: Option<Pairing>, q: Option<Pairing>, op: Op, env: Env, wrong: bool) {
    q.None? || Continued(p, q, wrong) || (Created(p, q, op, env) && !wrong)
  }

  ghost predicate WrongCode<T>(reply: Reply<T>) {
    reply == Failed(InvalidPairingCode)
  }

  lemma PairingStep(m: Machine, op: Op, env: Env)
    ensures PairingMoves(m.pairing, Perform(m, op, env).0.pairing, op, env, WrongCode(Perform(m, op, env).1))
  {
    var m1 := Prepare(m, env.first).0;
    PrepareMovesPairing(m, env.first);
    match op
    case Consume(code, password) => ConsumeMovesPairing(m1, code, password, env);
    case Confirm(key) => ConfirmMovesPairing(m1, key, env);
    case Recover(key, password) => RecoverMovesPairing(m1, key, password, env);
    case Verify(uid, password) => VerifyMovesPairing(m1, uid, password, env);
    case _ => PairingOpMovesPairing(m, op, env);
  }

  lemma PrepareMovesPairing(m: Machine, look: Look)
    ensures Prepare(m, look).0.pairing == m.pairing || Prepare(m, look).0.pairing.None?
    ensures Prepare(m, look).1 != Failed(InvalidPairingCode)
  {
  }

  lemma ConsumeMovesPairing(m: Machine, code: string, password: string, env: Env)
    ensures var (m1, r) := ConsumePrepared(m, code, password, env);
            m1.pairing.None? || Continued(m.pairing, m1.pairing, WrongCode(r))
  {
    if ParsePairingCode(code).Some? {
      RedeemMovesPairing(m, ParsePairingCode(code).value, password, env);
    }
  }

  lemma RedeemMovesPairing(m: Machine, submitted: Code, password: string, env: Env)
    ensures var (m1, r) := Redeem(m, submitted, password, env);
            m1.pairing.None? || Continued(m.pairing, m1.pairing, WrongCode(r))
  {
    EnrollMovesPairing(m, submitted, password, env);
  }

  lemma EnrollMovesPairing(m: Machine, code: Code, password: string, env: Env)
    ensures Enroll(m, code, password, env).0.pairing == m.pairing || Enroll(m, code, password, env).0.pairing.None?
    ensures !WrongCode(Enroll(m, code, password, env).1)
  {
  }

  lemma ConfirmMovesPairing(m: Machine, key: string, env: Env)
    ensures ConfirmPrepared(m, key, env).0.pairing == m.pairing || ConfirmPrepared(m, key, env).0.pairing.None?
    ensures !WrongCode(ConfirmPrepared(m, key, env).1)
  {
    if m.Now().Provisional? {
      FinalizeMovesPairing(m, m.Now().password, m.Now().key, key, env);
    }
  }

  lemma FinalizeMovesPairing(m: Machine, password: string, key: string, submitted: string, env: Env)
    ensures var (m1, r) := Finalize(m, password, key, submitted, env);
            (m1.pairing == m.pairing || m1.pairing.None?) && !WrongCode(r)
  {
    PrepareMovesPairing(m, env.second);
  }

  lemma RecoverMovesPairing(m: Machine, key: string, password: string, env: Env)
    ensures RecoverPrepared(m, key, password, env).0.pairing == m.pairing
            || RecoverPrepared(m, key, password, env).0.pairing.None?
    ensures !WrongCode(RecoverPrepared(m, key, password, env).1)
  {
  }

  lemma VerifyMovesPairing(m: Machine, uid: nat, password: string, env: Env)
    ensures VerifyPrepared(m, uid, password, env).0.pairing == m.pairing
    ensures !WrongCode(VerifyPrepared(m, uid, password, env).1)
  {
  }

  lemma PairingOpMovesPairing(m: Machine, op: Op, env: Env)
    requires op.EnsurePending? || op.CancelPending? || op.GetPending? || op.GetEnrollment? || op.Reset?
    ensures PairingMoves(m.pairing, Perform(m, op, env).0.pairing, op, env, false)
    ensures !WrongCode(Perform(m, op, env).1)
  {
    PrepareMovesPairing(m, env.first);
  }

  ghost predicate Wrong(run: seq<World>, events: seq<Event>, k: nat)
    requires k < |events| && |run| == |events| + 1
  {
    events[k].Operate? && WrongCode(ReplyOf(run[k], events[k]))
  }

  /** The wrong codes submitted in the steps from `i` to `j`. */
  ghost function WrongCodes(run: seq<World>, events: seq<Event>, i: nat, j: nat): nat
    requires i <= j <= |events| && |run| == |events| + 1
  {
    if i == j then 0 else WrongCodes(run, events, i, j - 1) + if Wrong(run, events, j - 1) then 1 else 0
  }

  ghost predicate Creates(run: seq<World>, events: seq<Event>, k: nat)
    requires k < |events| && |run| == |events| + 1
  {
    events[k].Operate? && Created(run[k].m.pairing, run[k + 1].m.pairing, events[k].op, events[k].env)
  }

  lemma PairingAt(run: seq<World>, events: seq<Event>, k: nat)
    requires IsRun(run, events) && k < |events| && run[k + 1].m.pairing.Some?
    ensures run[k + 1].m.pairing.value.wrongAttempts < PAIRING_ATTEMPTS && run[k + 1].m.Now() == NoAccount
    ensures events[k].Operate?
    ensures !Creates(run, events, k) ==> Continued(run[k].m.pairing, run[k + 1].m.pairing, Wrong(run, events, k))
    ensures Creates(run, events, k) ==>
              && events[k].op.EnsurePending? && events[k].env.boot.Some? && events[k].env.code.Some?
              && run[k + 1].m.pairing == Some(Pairing(events[k].env.code.value, events[k].env.boot.value + PAIRING_LIFETIME,
                                                      events[k].env.wall + PAIRING_LIFETIME, 0))
  {
    RunKeepsInv(run, events, k + 1);
    if events[k].Operate? {
      PairingStep(run[k].m, events[k].op, events[k].env);
    }
  }

  /** A pending pairing was created by one step, has kept its code and its
      expiry since, and has seen at most four wrong codes, all of them counted. */
  lemma {:induction false} PairingHistory(run: seq<World>, events: seq<Event>, i: nat) returns (c: nat)
    requires IsRun(run, events) && i < |run| && run[i].m.pairing.Some?
    ensures c < i && Creates(run, events, c) && events[c].op.EnsurePending?
    ensures events[c].env.boot.Some? && events[c].env.code == Some(run[i].m.pairing.value.code)
    ensures events[c].env.boot.value + PAIRING_LIFETIME == run[i].m.pairing.value.expiresBoot
    ensures forall k :: c < k <= i ==> run[k].m.pairing.Some? && run[k].m.pairing.value.code == run[i].m.pairing.value.code
    ensures WrongCodes(run, events, c + 1, i) == run[i].m.pairing.value.wrongAttempts <= 4
  {
    hide IsRun, Creates, Wrong;
    RunShape(run, events);
    PairingAtStart(run, events);
    PairingAt(run, events, i - 1);
    if !Creates(run, events, i - 1) {
      c := PairingHistory(run, events, i - 1);
    } else {
      c := i - 1;
    }
  }

  lemma PairingAtStart(run: seq<World>, events: seq<Event>)
    requires IsRun(run, events)
    ensures run[0].m.pairing.None?
  {
  }

  /** An enrollment commits at step `k`. */
  ghost predicate Enrolls(run: seq<World>, events: seq<Event>, k: nat)
    requires k < |events| && |run| == |events| + 1
  {
    events[k].Operate? && !run[k].m.Now().Provisional? && run[k + 1].m.Now().Provisional?
  }

  /** It used the pending pairing of that moment with its own code, before the
      boot clock showed ten minutes from its creation and after at most four
      wrong codes, and it used it up. */
  lemma EnrollmentUsesPairing(run: seq<World>, events: seq<Event>, k: nat) returns (c: nat)
    requires IsRun(run, events) && k < |events| && Enrolls(run, events, k)
    ensures c < k && events[c].Operate? && events[c].op.EnsurePending?
    ensures events[c].env.boot.Some? && events[c].env.code.Some?
    ensures events[k].op.Consume? && ParsePairingCode(events[k].op.code) == Some(events[c].env.code.value)
    ensures events[k].env.first.boot.Some?
    ensures events[k].env.first.boot.value < events[c].env.boot.value + PAIRING_LIFETIME
    ensures WrongCodes(run, events, c + 1, k) <= 4
    ensures run[k].m.pairing.Some? && run[k + 1].m.pairing.None?
    ensures forall l :: c < l < k ==> !Enrolls(run, events, l)
  {
    RunShape(run, events);
    EnrollStep(run, events, k);
    c := PairingHistory(run, events, k);
    forall l | c < l < k ensures !Enrolls(run, events, l) {
      if Enrolls(run, events, l) {
        EnrollStep(run, events, l);
      }
    }
  }

  lemma EnrollStep(run: seq<World>, events: seq<Event>, k: nat)
    requires IsRun(run, events) && k < |events| && Enrolls(run, events, k)
    ensures events[k].op.Consume? && Paired(run[k].m, events[k].op.code, events[k].env.first)
    ensures run[k + 1].m.pairing.None?
  {
    RunKeepsInv(run, events, k);
    RunKeepsInv(run, events, k + 1);
    NextNow(run[k], events[k]);
  }

  ghost function Enrollments(run: seq<World>, events: seq<Event>, n: nat): nat
    requires n <= |events| && |run| == |events| + 1
  {
    if n == 0 then 0 else Enrollments(run, events, n - 1) + if Enrolls(run, events, n - 1) then 1 else 0
  }

  ghost function Pairings(run: seq<World>, events: seq<Event>, n: nat): nat
    requires n <= |events| && |run| == |events| + 1
  {
    if n == 0 then 0
    else Pairings(run, events, n - 1) + if Creates(run, events, n - 1) then 1 else 0
  }

  /** Each pairing leads to at most one committed enrollment. */
  lemma {:induction false} OneEnrollmentPerPairing(run: seq<World>, events: seq<Event>, n: nat)
    requires IsRun(run, events) && n <= |events|
    ensures Enrollments(run, events, n) + (if run[n].m.pairing.Some? then 1 else 0) <= Pairings(run, events, n)
  {
    hide IsRun;
    RunShape(run, events);
    PairingAtStart(run, events);
    if n > 0 {
      OneEnrollmentPerPairing(run, events, n - 1);
      if Enrolls(run, events, n - 1) {
        EnrollStep(run, events, n - 1);
      } else if run[n].m.pairing.Some? {
        PairingAt(run, events, n - 1);
      }
    }
  }

  // ----- The rate of failed attempts -----

  function Scoped(op: Op): Option<Scope> {
    match op
    case Verify(uid, _) => Some(Password(uid))
    case Confirm(_) => Some(Confirmation)
    case Recover(_, _) => Some(Recovery)
    case _ => None
  }

  function Entry(m: Machine, s: Scope): Option<Counter> {
    if s in m.backoff then Some(m.backoff[s]) else None
  }

  function Bumped(entry: Option<Counter>): nat {
    if entry.None? then 1 else if entry.value.failures < MAX_FAILURES then entry.value.failures + 1 else MAX_FAILURES
  }

  /** The operation presents the secret that its scope guards. */
  ghost predicate RightSecret(m: Machine, op: Op) {
    || (op.Verify? && m.Now().Operator? && op.password == m.Now().password)
    || (op.Confirm? && m.Now().Provisional? && op.key == m.Now().key)
    || (op.Recover? && m.Now().Operator? && op.recoveryKey == m.Now().key)
  }

  /** One failed attempt: not before the delay since the last one was over. */
  ghost predicate CountedOnce(entry: Option<Counter>, after: Option<Counter>, env: Env) {
    && env.recordBoot.Some? && after == Some(Counter(Bumped(entry), env.recordBoot.value))
    && (entry.Some? ==> env.checkBoot.Some?
                        && env.checkBoot.value >= entry.value.lastFailure + BackoffDelay(entry.value.failures))
  }

  ghost predicate Refused<T>(reply: Reply<T>) {
    reply == Failed(InvalidCredential)
  }

  ghost predicate BackoffMoves(m: Machine, s: Scope, op: Op, env: Env, after: Machine, refused: bool) {
    if Scoped(op) == Some(s) && refused then
      CountedOnce(Entry(m, s), Entry(after, s), env)
    else
      || Entry(after, s) == Entry(m, s)
      || op.Reset?
      || (Scoped(op) == Some(s) && (RightSecret(m, op) || env.recordBoot.None?))
  }

  /** A scope's counter changes only by its own failed attempts, until its own
      secret is presented or the enrollment is reset. */
  lemma BackoffStep(m: Machine, op: Op, env: Env, s: Scope)
    ensures BackoffMoves(m, s, op, env, Perform(m, op, env).0, Refused(Perform(m, op, env).1))
  {
    hide BackoffMoves;
    PrepareKeepsBackoff(m, env.first);
    PrepareEffect(m, env.first);
    var (m1, r) := Prepare(m, env.first);
    var (after, reply) := Perform(m, op, env);
    if op.Reset? {
      PairingOpMovesBackoff(m, op, env, s);
    } else if !r.Success? {
      KeptMoves(m, s, op, env, after, Refused(reply));
    } else {
      match op
      case Confirm(key) =>
        ConfirmBackoff(m1, key, env, s);
        MovesAfterPrepare(m, m1, s, op, env, after, Refused(reply));
      case Recover(key, password) =>
        RecoverBackoff(m1, key, password, env, s);
        MovesAfterPrepare(m, m1, s, op, env, after, Refused(reply));
      case Verify(uid, password) =>
        VerifyBackoff(m1, uid, password, env, s);
        MovesAfterPrepare(m, m1, s, op, env, after, Refused(reply));
      case Consume(code, password) =>
        ConsumeKeepsBackoff(m1, code, password, env);
        KeptMoves(m, s, op, env, after, Refused(reply));
      case _ =>
        PairingOpMovesBackoff(m, op, env, s);
    }
  }

  lemma MovesAfterPrepare(m: Machine, m1: Machine, s: Scope, op: Op, env: Env, after: Machine, refused: bool)
    requires BackoffMoves(m1, s, op, env, after, refused)
    requires m1.backoff == m.backoff && (m1.Now() == m.Now() || m1.Now() == NoAccount)
    ensures BackoffMoves(m, s, op, env, after, refused)
  {
  }

  lemma KeptMoves(m: Machine, s: Scope, op: Op, env: Env, after: Machine, refused: bool)
    requires after.backoff == m.backoff && (Scoped(op) == Some(s) ==> !refused)
    ensures BackoffMoves(m, s, op, env, after, refused)
  {
  }

  lemma PrepareKeepsBackoff(m: Machine, look: Look)
    ensures Prepare(m, look).0.backoff == m.backoff && Prepare(m, look).1 != Failed(InvalidCredential)
  {
  }

  lemma PairingOpMovesBackoff(m: Machine, op: Op, env: Env, s: Scope)
    requires op.EnsurePending? || op.CancelPending? || op.GetPending? || op.GetEnrollment? || op.Reset?
    ensures BackoffMoves(m, s, op, env, Perform(m, op, env).0, Refused(Perform(m, op, env).1))
  {
    PrepareKeepsBackoff(m, env.first);
  }

  lemma ConsumeKeepsBackoff(m: Machine, code: string, password: string, env: Env)
    ensures ConsumePrepared(m, code, password, env).0.backoff == m.backoff
  {
    if ParsePairingCode(code).Some? {
      RedeemKeepsBackoff(m, ParsePairingCode(code).value, password, env);
    }
  }

  lemma RedeemKeepsBackoff(m: Machine, submitted: Code, password: string, env: Env)
    ensures Redeem(m, submitted, password, env).0.backoff == m.backoff
  {
    EnrollKeepsBackoff(m, submitted, password, env);
  }

  lemma EnrollKeepsBackoff(m: Machine, code: Code, password: string, env: Env)
    ensures Enroll(m, code, password, env).0.backoff == m.backoff
  {
  }

  lemma ConfirmBackoff(m: Machine, key: string, env: Env, s: Scope)
    ensures BackoffMoves(m, s, Confirm(key), env, ConfirmPrepared(m, key, env).0,
                         Refused(ConfirmPrepared(m, key, env).1))
  {
    if m.Now().Provisional? {
      FinalizeBackoff(m, m.Now().password, m.Now().key, key, env);
    }
  }

  lemma FinalizeBackoff(m: Machine, password: string, key: string, submitted: string, env: Env)
    ensures var (m1, r) := Finalize(m, password, key, submitted, env);
            if r == Failed(InvalidCredential) then
              env.recordBoot.Some?
              && m1.backoff == m.backoff[Confirmation := Counter(Bumped(Entry(m, Confirmation)), env.recordBoot.value)]
            else
              || m1.backoff == m.backoff
              || (submitted == key && m1.backoff == m.backoff - {Confirmation})
              || (env.recordBoot.None? && forall s :: s != Confirmation ==> Entry(m1, s) == Entry(m, s))
  {
    PrepareKeepsBackoff(m, env.second);
  }

  lemma RecoverBackoff(m: Machine, key: string, password: string, env: Env, s: Scope)
    ensures BackoffMoves(m, s, Recover(key, password), env, RecoverPrepared(m, key, password, env).0,
                         Refused(RecoverPrepared(m, key, password, env).1))
  {
    if m.Now().Operator? && WellFormedKey(key) {
      ReplaceKeepsBackoff(RecordSuccess(m, Recovery), ParseRecoveryKey(key).value, password, env);
    }
  }

  lemma ReplaceKeepsBackoff(m: Machine, key: Key, password: string, env: Env)
    requires m.Now().Operator?
    ensures var (m1, r) := Replace(m, key, password, env);
            m1.backoff == m.backoff && r != Failed(InvalidCredential)
  {
  }

  lemma VerifyBackoff(m: Machine, uid: nat, password: string, env: Env, s: Scope)
    ensures BackoffMoves(m, s, Verify(uid, password), env, VerifyPrepared(m, uid, password, env).0,
                         Refused(VerifyPrepared(m, uid, password, env).1))
  {
  }

  /** A failed attempt in the scope, which the machine counts. */
  ghost predicate Fails(run: seq<World>, events: seq<Event>, k: nat, s: Scope)
    requires k < |events| && |run| == |events| + 1
  {
    events[k].Operate? && Scoped(events[k].op) == Some(s) && Refused(ReplyOf(run[k], events[k]))
  }

  ghost function Failures(run: seq<World>, events: seq<Event>, i: nat, j: nat, s: Scope): nat
    requires i <= j <= |events| && |run| == |events| + 1
  {
    if i == j then 0 else Failures(run, events, i, j - 1, s) + if Fails(run, events, j - 1, s) then 1 else 0
  }

  /** A step without a restart, a reset or the right secret of the scope, whose
      boot clock, if the scope reads it, can be read and does not run backward. */
  ghost predicate Guesses(run: seq<World>, events: seq<Event>, k: nat, s: Scope)
    requires k < |events| && |run| == |events| + 1
  {
    && events[k].Operate? && !events[k].op.Reset?
    && (Scoped(events[k].op) == Some(s) ==>
          && !RightSecret(run[k].m, events[k].op) && events[k].env.recordBoot.Some?
          && (events[k].env.checkBoot.Some? ==> events[k].env.checkBoot.value <= events[k].env.recordBoot.value))
  }

  /** The boot time that the failure at step `k` has recorded. */
  ghost function Time(events: seq<Event>, k: nat): nat
    requires k < |events|
  {
    if events[k].Operate? && events[k].env.recordBoot.Some? then events[k].env.recordBoot.value else 0
  }

  lemma GuessStep(run: seq<World>, events: seq<Event>, k: nat, s: Scope)
    requires IsRun(run, events) && k < |events| && Guesses(run, events, k, s)
    ensures !Fails(run, events, k, s) ==> Entry(run[k + 1].m, s) == Entry(run[k].m, s)
    ensures Fails(run, events, k, s) ==>
              && Entry(run[k + 1].m, s) == Some(Counter(Bumped(Entry(run[k].m, s)), Time(events, k)))
              && (Entry(run[k].m, s).Some? ==>
                    Time(events, k) >= Entry(run[k].m, s).value.lastFailure
                                       + BackoffDelay(Entry(run[k].m, s).value.failures))
  {
    BackoffStep(run[k].m, events[k].op, events[k].env, s);
  }

  /** The least time that `n` failed attempts take. */
  function Span(n: nat): nat {
    if n <= 1 then 0 else Span(n - 1) + BackoffDelay(Capped(n - 1))
  }

  function Capped(n: nat): nat {
    if n < MAX_FAILURES then n else MAX_FAILURES
  }

  /** From a scope without failures, the delay of the count so far lies between
      any two failures that follow each other. */
  lemma {:induction false} FailuresAreSpaced(run: seq<World>, events: seq<Event>, i: nat, j: nat, s: Scope)
    returns (first: nat, last: nat)
    requires IsRun(run, events) && i <= j <= |events| && Entry(run[i].m, s).None?
    requires forall k :: i <= k < j ==> Guesses(run, events, k, s)
    ensures Failures(run, events, i, j, s) == 0 ==> Entry(run[j].m, s).None?
    ensures var n := Failures(run, events, i, j, s);
            n > 0 ==>
              && i <= first <= last < j && Fails(run, events, first, s) && Fails(run, events, last, s)
              && Entry(run[j].m, s) == Some(Counter(Capped(n), Time(events, last)))
              && Time(events, last) >= Time(events, first) + Span(n)
  {
    hide IsRun, Guesses, Fails, Entry, Time;
    RunShape(run, events);
    first, last := i, i;
    if i < j {
      GuessStep(run, events, j - 1, s);
      first, last := FailuresAreSpaced(run, events, i, j - 1, s);
      if Fails(run, events, j - 1, s) {
        if Failures(run, events, i, j - 1, s) == 0 {
          first := j - 1;
        }
        last := j - 1;
      }
    }
  }

  /** Fifteen failed attempts take at least 1023 seconds, and each further one
      another fifteen minutes. */
  lemma RateBound(run: seq<World>, events: seq<Event>, i: nat, j: nat, s: Scope) returns (first: nat, last: nat)
    requires IsRun(run, events) && i <= j <= |events| && s !in run[i].m.backoff
    requires forall k :: i <= k < j ==> Guesses(run, events, k, s)
    requires Failures(run, events, i, j, s) >= 15
    ensures i <= first < last < j && Fails(run, events, first, s) && Fails(run, events, last, s)
    ensures Time(events, last) - Time(events, first) >= 1023 + 900 * (Failures(run, events, i, j, s) - 15)
  {
    hide IsRun, Guesses, Fails, Time, Failures;
    RunShape(run, events);
    first, last := FailuresAreSpaced(run, events, i, j, s);
    SpanFromFifteen(Failures(run, events, i, j, s));
  }

  lemma {:induction false} SpanFromFifteen(n: nat)
    requires n >= 15
    ensures Span(n) == 1023 + 900 * (n - 15)
  {
    if n == 15 {
      SpanUpToFifteen(15);
    } else {
      SpanFromFifteen(n - 1);
    }
  }

  lemma {:induction false} SpanUpToFifteen(n: nat)
    requires 5 <= n <= 15
    ensures Span(n) == PowerOfTwo(n - 5) - 1
    ensures n == 15 ==> Span(n) == 1023
  {
    Powers();
    if n == 5 {
      assert Span(1) == 0 && Span(2) == 0 && Span(3) == 0 && Span(4) == 0;
    } else {
      SpanUpToFifteen(n - 1);
    }
  }

  lemma Powers()
    ensures PowerOfTwo(0) == 1 && PowerOfTwo(9) == 512 && PowerOfTwo(10) == 1024
    ensures forall k: nat :: k < 10 ==> PowerOfTwo(k) <= 512
  {
    assert PowerOfTwo(1) == 2 && PowerOfTwo(2) == 4 && PowerOfTwo(3) == 8;
    assert PowerOfTwo(4) == 16 && PowerOfTwo(5) == 32 && PowerOfTwo(6) == 64;
    assert PowerOfTwo(7) == 128 && PowerOfTwo(8) == 256;
  }
}
