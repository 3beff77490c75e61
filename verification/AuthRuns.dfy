/** The steps of the authentication machine: operations with any inputs, failed
    and interrupted writes, restarts and power cuts. */
module AuthRuns {
  import opened Durable
  import opened Prelude
  import opened Codes
  import opened AuthStore
  import opened AuthSpec

  datatype Op =
    | Verify(uid: nat, password: string)
    | Consume(code: string, newPassword: string)
    | Confirm(key: string)
    | Recover(recoveryKey: string, replacement: string)
    | EnsurePending | CancelPending | Reset | GetPending | GetEnrollment

  datatype Value = Nothing | Text(text: string) | Pending(pending: bool, code: string, expiresAt: nat)
                 | Enrollment(enrolled: bool, pairing: bool)

  function Wrap<T>(result: (Machine, Reply<T>), f: T -> Value): (Machine, Reply<Value>) {
    (result.0, match result.1
               case Success(v) => Success(f(v))
               case Failed(failure) => Failed(failure)
               case Stopped => Stopped)
  }

  function Perform(m: Machine, op: Op, env: Env): (Machine, Reply<Value>) {
    match op
    case Verify(uid, password) => Wrap(VerifyPassword(m, uid, password, env), _ => Nothing)
    case Consume(code, password) => Wrap(ConsumePairing(m, code, password, env), s => Text(s))
    case Confirm(key) => Wrap(ConfirmRecoveryKey(m, key, env), _ => Nothing)
    case Recover(key, password) => Wrap(RecoverPassword(m, key, password, env), _ => Nothing)
    case EnsurePending => Wrap(EnsurePendingPairing(m, env), _ => Nothing)
    case CancelPending => Wrap(CancelPendingPairing(m, env), _ => Nothing)
    case Reset => Wrap(ResetEnrollment(m, env), _ => Nothing)
    case GetPending => Wrap(GetPendingPairing(m, env), (v: (bool, string, nat)) => Pending(v.0, v.1, v.2))
    case GetEnrollment => Wrap(GetEnrollmentState(m, env), (v: (bool, bool)) => Enrollment(v.0, v.1))
  }

  /** `down`: no process is running. */
  datatype World = World(m: Machine, down: bool)

  /** A restart may follow the death of the process at any point; a power cut
      also loses renames that no directory sync has followed. */
  datatype Event =
    | Operate(op: Op, env: Env)
    | Restart(removeFails: bool, readFails: bool, look: Look)
    | PowerCut(kept: nat, temporary: bool, removeFails: bool, readFails: bool, look: Look)

  predicate Enabled(w: World, e: Event) {
    match e
    case Operate(_, _) => !w.down
    case Restart(_, _, _) => true
    case PowerCut(kept, _, _, _, _) => kept <= |w.m.disk.unsynced|
  }

  function Next(w: World, e: Event): World
    requires Enabled(w, e)
  {
    match e
    case Operate(op, env) =>
      var (m, r) := Perform(w.m, op, env);
      World(m, r.Stopped?)
    case Restart(removeFails, readFails, look) => Reopened(w.m.disk, w.m.temporary, removeFails, readFails, look)
    case PowerCut(kept, temporary, removeFails, readFails, look) =>
      Reopened(w.m.disk.AfterCut(kept), temporary, removeFails, readFails, look)
  }

  /** A process that stops while it normalizes an expired enrollment is down. */
  function Reopened(disk: Disk<Account>, temporary: bool, removeFails: bool, readFails: bool, look: Look): World {
    var loads := !removeFails && !readFails && disk.Visible() != Unloadable;
    var m := Machine(loads, disk, temporary && removeFails, None, false, map[]);
    World(Open(disk, temporary, removeFails, readFails, look), Prepare(m, look).1.Stopped?)
  }

  /** Nothing runs yet, and the disk holds what an earlier run has left. */
  ghost predicate Initial(w: World) {
    && w.down && !w.m.known && w.m.pairing.None? && w.m.backoff == map[]
    && SoundDisk(w.m.disk)
  }

  // ----- The invariant -----

  /** A password is long enough and no spelling of the recovery key. */
  predicate Sound(a: Account) {
    a.Provisional? || a.Operator? ==>
      |a.password| >= PASSWORD_MIN_CODE_POINTS && ParseRecoveryKey(a.key).Some? && Uppercase(a.password) != a.key
  }

  predicate SoundDisk(disk: Disk<Account>) {
    Sound(disk.base) && forall i :: 0 <= i < |disk.unsynced| ==> Sound(disk.unsynced[i])
  }

  ghost predicate Inv(w: World) {
    && SoundDisk(w.m.disk)
    && (w.m.known ==> !w.down && w.m.Now() != Unloadable)
    && (w.m.pairing.Some? ==> w.m.known && w.m.Now() == NoAccount && w.m.pairing.value.wrongAttempts < PAIRING_ATTEMPTS)
  }

  /** What an expiry check does, in one place. */
  lemma PrepareEffect(m: Machine, look: Look)
    ensures var (m1, r) := Prepare(m, look);
            && (r.Success? ==> m.known && m1.known && look.boot.Some? && m1.backoff == m.backoff)
            && (m1.Now() == m.Now()
                || (m.known && m.Now().Provisional? && DeadlineExpired(m.Now().deadline, look.wall) && m1.Now() == NoAccount))
            && (r.Success? && m1.Now().Provisional? ==> !DeadlineExpired(m1.Now().deadline, look.wall))
            && (m1.pairing == m.pairing || m1.pairing.None?)
            && (r.Success? && m1.pairing.Some? ==> look.boot.value < m1.pairing.value.expiresBoot)
            && (m1.known ==> m.known) && (r.Stopped? ==> !m1.known)
            && (!m1.known && m.known ==> m1.pairing.None?)
            && (m1.disk == m.disk || exists effect :: m1.disk == Rewritten(m.disk, NoAccount, effect))
  {
  }

  // ----- What an operation may write -----

  /** The accounts that `op` may put in place of the one on disk. */
  ghost predicate Legal(m: Machine, op: Op, env: Env, b: Account) {
    var a := m.Now();
    || (b == NoAccount && Discards(m, op, env))
    || (op.Consume? && a == NoAccount && Paired(m, op.code, env.first) && env.key.Some?
        && b == Provisional(op.newPassword, EncodeRecoveryKey(env.key.value), env.wall + CONFIRMATION_WINDOW)
        && AcceptablePassword(op.newPassword, env.key.value) && ByteLength(op.newPassword) <= PASSWORD_MAX_BYTES
        && ParsePairingCode(op.newPassword) != ParsePairingCode(op.code))
    || (op.Confirm? && a.Provisional? && op.key == a.key && b == Operator(a.password, a.key)
        && !DeadlineExpired(a.deadline, env.first.wall) && !DeadlineExpired(a.deadline, env.second.wall))
    || (op.Recover? && a.Operator? && op.recoveryKey == a.key && b == Operator(op.replacement, a.key)
        && ParseRecoveryKey(a.key).Some? && AcceptablePassword(op.replacement, ParseRecoveryKey(a.key).value)
        && ByteLength(op.replacement) <= PASSWORD_MAX_BYTES)
  }

  ghost predicate Discards(m: Machine, op: Op, env: Env) {
    || op.Reset?
    || (m.Now().Provisional?
        && (DeadlineExpired(m.Now().deadline, env.first.wall)
            || (op.Confirm? && DeadlineExpired(m.Now().deadline, env.second.wall))))
  }

  /** The code submitted is the pending one, which has not expired. */
  ghost predicate Paired(m: Machine, code: string, look: Look) {
    && m.pairing.Some? && ParsePairingCode(code) == Some(m.pairing.value.code)
    && look.boot.Some? && look.boot.value < m.pairing.value.expiresBoot
  }

  ghost predicate AcceptablePassword(password: string, key: Key) {
    |password| >= PASSWORD_MIN_CODE_POINTS && !PasswordEqualsKey(password, key)
  }

  const NO_WRITE := Effect(FailedBeforeRename, false, false)

  lemma PrepareWrites(m: Machine, look: Look) returns (effect: Effect)
    ensures Prepare(m, look).0.disk == Rewritten(m.disk, NoAccount, effect)
    ensures effect == NO_WRITE || (m.known && m.Now().Provisional? && DeadlineExpired(m.Now().deadline, look.wall))
    ensures effect == NO_WRITE ==> Prepare(m, look).0.Now() == m.Now()
    ensures effect != NO_WRITE && Prepare(m, look).1.Success? ==> Prepare(m, look).0.Now() == NoAccount
  {
    effect := NO_WRITE;
    if m.known && look.boot.Some? && m.Now().Provisional? && DeadlineExpired(m.Now().deadline, look.wall) {
      effect := WriteEffect(look.faults, m.temporary);
    }
  }

  lemma EnrollWrites(m: Machine, code: Code, password: string, env: Env) returns (b: Account, effect: Effect)
    ensures Enroll(m, code, password, env).0.disk == Rewritten(m.disk, b, effect)
    ensures effect != NO_WRITE ==>
              env.key.Some? && AcceptablePassword(password, env.key.value) && ParsePairingCode(password) != Some(code)
              && b == Provisional(password, EncodeRecoveryKey(env.key.value), env.wall + CONFIRMATION_WINDOW)
    ensures Enroll(m, code, password, env).1.Success? ==> effect.written == Done
  {
    b, effect := NoAccount, NO_WRITE;
    if env.key.Some? && AcceptablePassword(password, env.key.value) && ParsePairingCode(password) != Some(code)
       && env.passwordSalt.Some? && env.keySalt.Some? {
      b := Provisional(password, EncodeRecoveryKey(env.key.value), env.wall + CONFIRMATION_WINDOW);
      effect := WriteEffect(env.faults, m.temporary);
    }
  }

  lemma ConsumeWrites(m: Machine, code: string, password: string, env: Env) returns (b: Account, effect: Effect)
    ensures ConsumePrepared(m, code, password, env).0.disk == Rewritten(m.disk, b, effect)
    ensures effect != NO_WRITE ==>
              && env.key.Some? && AcceptablePassword(password, env.key.value)
              && b == Provisional(password, EncodeRecoveryKey(env.key.value), env.wall + CONFIRMATION_WINDOW)
              && m.pairing.Some? && ParsePairingCode(code) == Some(m.pairing.value.code)
              && !m.Now().Provisional? && !m.Now().Operator? && ByteLength(password) <= PASSWORD_MAX_BYTES
              && ParsePairingCode(password) != ParsePairingCode(code)
    ensures ConsumePrepared(m, code, password, env).1.Success? ==> effect.written == Done
  {
    b, effect := NoAccount, NO_WRITE;
    if ByteLength(password) <= PASSWORD_MAX_BYTES && ByteLength(code) <= CODE_MAX_BYTES
       && !m.Now().Operator? && !m.Now().Provisional?
       && m.pairing.Some? && ParsePairingCode(code) == Some(m.pairing.value.code) {
      b, effect := EnrollWrites(m, m.pairing.value.code, password, env);
    }
  }

  lemma ConfirmWrites(m: Machine, key: string, env: Env) returns (b: Account, effect: Effect)
    requires m.known
    ensures ConfirmPrepared(m, key, env).0.disk == Rewritten(m.disk, b, effect)
    ensures effect != NO_WRITE ==>
              && m.Now().Provisional?
              && (DeadlineExpired(m.Now().deadline, env.second.wall) ==> b == NoAccount)
              && (!DeadlineExpired(m.Now().deadline, env.second.wall) ==>
                    key == m.Now().key && b == Operator(m.Now().password, m.Now().key))
    ensures ConfirmPrepared(m, key, env).1.Success? ==> effect.written == Done
  {
    b, effect := NoAccount, NO_WRITE;
    if WellFormedKey(key) && m.Now().Provisional? && CheckBackoff(m, Confirmation, env.checkBoot).Success? && !env.verifyFails {
      effect := PrepareWrites(m, env.second);
      var (m2, r) := Prepare(m, env.second);
      if r.Success? && effect == NO_WRITE && key == m.Now().key {
        b := Operator(m.Now().password, m.Now().key);
        effect := WriteEffect(env.faults, m2.temporary);
      }
    }
  }

  lemma RecoverWrites(m: Machine, key: string, password: string, env: Env) returns (b: Account, effect: Effect)
    ensures RecoverPrepared(m, key, password, env).0.disk == Rewritten(m.disk, b, effect)
    ensures effect != NO_WRITE ==>
              && m.Now().Operator? && key == m.Now().key && b == Operator(password, m.Now().key)
              && ParseRecoveryKey(key).Some? && AcceptablePassword(password, ParseRecoveryKey(key).value)
              && ByteLength(password) <= PASSWORD_MAX_BYTES
    ensures RecoverPrepared(m, key, password, env).1.Success? ==> effect.written == Done
  {
    b, effect := NoAccount, NO_WRITE;
    if WellFormedKey(key) && ByteLength(password) <= PASSWORD_MAX_BYTES && m.Now().Operator?
       && CheckBackoff(m, Recovery, env.checkBoot).Success? && !env.verifyFails && key == m.Now().key
       && AcceptablePassword(password, ParseRecoveryKey(key).value) && env.passwordSalt.Some? {
      b := Operator(password, m.Now().key);
      effect := WriteEffect(env.faults, m.temporary);
    }
  }

  /** Once the expiry check has discarded the account, nothing more is written
      and no enrollment is changed. */
  lemma NothingMore(m: Machine, op: Op, env: Env)
    requires m.Now() == NoAccount && m.pairing.None? && m.known
    ensures op.Consume? ==> ConsumePrepared(m, op.code, op.newPassword, env).0.disk == m.disk
                            && !ConsumePrepared(m, op.code, op.newPassword, env).1.Success?
    ensures op.Confirm? ==> ConfirmPrepared(m, op.key, env).0.disk == m.disk
                            && !ConfirmPrepared(m, op.key, env).1.Success?
    ensures op.Recover? ==> RecoverPrepared(m, op.recoveryKey, op.replacement, env).0.disk == m.disk
                            && !RecoverPrepared(m, op.recoveryKey, op.replacement, env).1.Success?
  {
  }

  ghost predicate Mutating(op: Op) {
    op.Consume? || op.Confirm? || op.Recover? || op.Reset?
  }

  /** An operation has written `b` with this effect, if anything: legally, and
      durably if it is mutating and reports success. */
  ghost predicate WritesLegally<T>(m: Machine, op: Op, env: Env, result: (Machine, Reply<T>), b: Account, effect: Effect) {
    && result.0.disk == Rewritten(m.disk, b, effect)
    && (effect == NO_WRITE || Legal(m, op, env, b))
    && (Mutating(op) && result.1.Success? ==> effect.written == Done)
  }

  /** The part of the expiry check in any operation but a reset. */
  lemma DiscardIsLegal(m: Machine, op: Op, env: Env) returns (effect: Effect)
    requires !op.Reset?
    ensures Prepare(m, env.first).0.disk == Rewritten(m.disk, NoAccount, effect)
    ensures effect == NO_WRITE || Legal(m, op, env, NoAccount)
    ensures var (m1, r) := Prepare(m, env.first);
            && (effect == NO_WRITE ==> m1.Now() == m.Now() && m1.disk == m.disk)
            && (r.Success? ==> m.known && m1.known && (effect != NO_WRITE ==> m1.Now() == NoAccount))
  {
    effect := PrepareWrites(m, env.first);
  }

  lemma ConsumeIsLegal(m: Machine, code: string, password: string, env: Env) returns (b: Account, effect: Effect)
    requires Status(m)
    ensures WritesLegally(m, Consume(code, password), env, ConsumePairing(m, code, password, env), b, effect)
  {
    var op := Consume(code, password);
    b := NoAccount;
    effect := DiscardIsLegal(m, op, env);
    PrepareEffect(m, env.first);
    PrepareKeepsStatus(m, env.first);
    var (m1, r) := Prepare(m, env.first);
    if r.Success? && effect != NO_WRITE {
      DiscardedPairing(m, env.first);
      NothingMore(m1, op, env);
    } else if r.Success? {
      b, effect := ConsumeWrites(m1, code, password, env);
    }
  }

  /** A provisional enrollment had no pairing. */
  lemma DiscardedPairing(m: Machine, look: Look)
    requires Status(m) && m.known && m.Now().Provisional?
    ensures Prepare(m, look).0.pairing.None?
  {
  }

  lemma ConfirmIsLegal(m: Machine, key: string, env: Env) returns (b: Account, effect: Effect)
    requires Status(m)
    ensures WritesLegally(m, Confirm(key), env, ConfirmRecoveryKey(m, key, env), b, effect)
  {
    var op := Confirm(key);
    b := NoAccount;
    effect := DiscardIsLegal(m, op, env);
    PrepareEffect(m, env.first);
    var (m1, r) := Prepare(m, env.first);
    if r.Success? && effect != NO_WRITE {
      DiscardedPairing(m, env.first);
      NothingMore(m1, op, env);
    } else if r.Success? {
      b, effect := ConfirmWrites(m1, key, env);
    }
  }

  lemma RecoverIsLegal(m: Machine, key: string, password: string, env: Env) returns (b: Account, effect: Effect)
    requires Status(m)
    ensures WritesLegally(m, Recover(key, password), env, RecoverPassword(m, key, password, env), b, effect)
  {
    var op := Recover(key, password);
    b := NoAccount;
    effect := DiscardIsLegal(m, op, env);
    PrepareEffect(m, env.first);
    var (m1, r) := Prepare(m, env.first);
    if r.Success? && effect != NO_WRITE {
      DiscardedPairing(m, env.first);
      NothingMore(m1, op, env);
    } else if r.Success? {
      b, effect := RecoverWrites(m1, key, password, env);
    }
  }

  /** The operations that change no account themselves. */
  lemma OthersAreLegal(m: Machine, op: Op, env: Env) returns (effect: Effect)
    requires !Mutating(op)
    ensures WritesLegally(m, op, env, Perform(m, op, env), NoAccount, effect)
  {
    effect := DiscardIsLegal(m, op, env);
  }

  lemma ResetIsLegal(m: Machine, env: Env) returns (effect: Effect)
    ensures WritesLegally(m, Reset, env, ResetEnrollment(m, env), NoAccount, effect)
  {
    effect := WriteEffect(env.faults, m.temporary);
  }

  /** Every operation writes at most one account, and only a legal one. A reply
      of success to a mutating operation means that it is durably in place. */
  lemma OpWrites(w: World, op: Op, env: Env) returns (b: Account, effect: Effect)
    requires Inv(w) && !w.down
    ensures Perform(w.m, op, env).0.disk == Rewritten(w.m.disk, b, effect)
    ensures effect == NO_WRITE || Legal(w.m, op, env, b)
    ensures Mutating(op) && Perform(w.m, op, env).1.Success? ==> effect.written == Done
  {
    hide Legal, Status;
    InvIsStatus(w);
    b := NoAccount;
    match op
    case Consume(code, password) => b, effect := ConsumeIsLegal(w.m, code, password, env);
    case Confirm(key) => b, effect := ConfirmIsLegal(w.m, key, env);
    case Recover(key, password) => b, effect := RecoverIsLegal(w.m, key, password, env);
    case Reset => effect := ResetIsLegal(w.m, env);
    case _ => effect := OthersAreLegal(w.m, op, env);
  }

  lemma InvIsStatus(w: World)
    requires Inv(w)
    ensures Status(w.m)
  {
  }

  lemma LegalIsSound(m: Machine, op: Op, env: Env, b: Account)
    requires Sound(m.Now()) && Legal(m, op, env, b)
    ensures Sound(b)
  {
    if op.Consume? && b.Provisional? {
      RecoveryKeySpelling(b.key, env.key.value);
      RecoveryKeySpelling(Uppercase(b.password), env.key.value);
    }
  }

  lemma RewrittenIsSound(disk: Disk<Account>, b: Account, effect: Effect)
    requires SoundDisk(disk) && (effect == NO_WRITE || Sound(b))
    ensures SoundDisk(Rewritten(disk, b, effect)) && Sound(disk.Visible())
  {
  }

  /** The process's own part of the invariant. */
  ghost predicate Status(m: Machine) {
    && (m.known ==> m.Now() != Unloadable)
    && (m.pairing.Some? ==> m.known && m.Now() == NoAccount && m.pairing.value.wrongAttempts < PAIRING_ATTEMPTS)
  }

  lemma PrepareKeepsStatus(m: Machine, look: Look)
    requires Status(m)
    ensures Status(Prepare(m, look).0)
    ensures Prepare(m, look).1.Stopped? ==> !Prepare(m, look).0.known
  {
  }

  lemma CommitStatus(m: Machine, b: Account, faults: Faults)
    requires Status(m) && b != Unloadable
    ensures var (m1, r) := Commit(m, b, faults);
            && (m1.known ==> m1.Now() != Unloadable)
            && (r.Stopped? ==> !m1.known)
            && (!r.Success? ==> Status(m1))
            && (r.Success? ==> m1.known && m1.Now() == b)
  {
  }

  ghost predicate Kept<T>(result: (Machine, Reply<T>)) {
    Status(result.0) && (result.1.Stopped? ==> !result.0.known)
  }

  lemma EnrollKeepsStatus(m: Machine, code: Code, password: string, env: Env)
    requires Status(m)
    ensures Kept(Enroll(m, code, password, env))
  {
    if env.key.Some? {
      CommitStatus(m, Provisional(password, EncodeRecoveryKey(env.key.value), env.wall + CONFIRMATION_WINDOW), env.faults);
    }
  }

  lemma ConsumeKeepsStatus(m: Machine, code: string, password: string, env: Env)
    requires Status(m)
    ensures Kept(ConsumePrepared(m, code, password, env))
  {
    if m.pairing.Some? {
      EnrollKeepsStatus(m, m.pairing.value.code, password, env);
    }
  }

  lemma ConfirmKeepsStatus(m: Machine, key: string, env: Env)
    requires Status(m)
    ensures Kept(ConfirmPrepared(m, key, env))
  {
    PrepareKeepsStatus(m, env.second);
    PrepareEffect(m, env.second);
    if m.Now().Provisional? {
      CommitStatus(Prepare(m, env.second).0, Operator(m.Now().password, m.Now().key), env.faults);
    }
  }

  lemma ReplaceKeepsStatus(m: Machine, key: Key, password: string, env: Env)
    requires Status(m) && m.Now().Operator?
    ensures Kept(Replace(m, key, password, env))
  {
    CommitStatus(m, Operator(password, m.Now().key), env.faults);
  }

  lemma RecoverKeepsStatus(m: Machine, key: string, password: string, env: Env)
    requires Status(m)
    ensures Kept(RecoverPrepared(m, key, password, env))
  {
    if m.Now().Operator? && WellFormedKey(key) {
      ReplaceKeepsStatus(RecordSuccess(m, Recovery), ParseRecoveryKey(key).value, password, env);
    }
  }

  lemma VerifyKeepsStatus(m: Machine, uid: nat, password: string, env: Env)
    requires Status(m)
    ensures Kept(VerifyPrepared(m, uid, password, env))
  {
  }

  lemma PairingOpKeepsStatus(m: Machine, op: Op, env: Env)
    requires Status(m) && (op.EnsurePending? || op.CancelPending? || op.GetPending? || op.GetEnrollment?)
    ensures Kept(Perform(m, op, env))
  {
    PrepareKeepsStatus(m, env.first);
  }

  lemma OpKeepsStatus(m: Machine, op: Op, env: Env)
    requires Status(m)
    ensures Kept(Perform(m, op, env))
  {
    PrepareKeepsStatus(m, env.first);
    var (m1, r) := Prepare(m, env.first);
    match op
    case Reset => CommitStatus(m, NoAccount, env.faults);
    case Consume(code, password) => ConsumeKeepsStatus(m1, code, password, env);
    case Confirm(key) => ConfirmKeepsStatus(m1, key, env);
    case Recover(key, password) => RecoverKeepsStatus(m1, key, password, env);
    case Verify(uid, password) => VerifyKeepsStatus(m1, uid, password, env);
    case _ => PairingOpKeepsStatus(m, op, env);
  }

  lemma NextKeepsInv(w: World, e: Event)
    requires Inv(w) && Enabled(w, e)
    ensures Inv(Next(w, e))
  {
    match e
    case Operate(op, env) =>
      var b, effect := OpWrites(w, op, env);
      if effect != NO_WRITE { LegalIsSound(w.m, op, env, b) by { RewrittenIsSound(w.m.disk, b, NO_WRITE); } }
      RewrittenIsSound(w.m.disk, b, effect);
      OpKeepsStatus(w.m, op, env);
    case Restart(removeFails, readFails, look) =>
      ReopenedKeepsInv(w.m.disk, w.m.temporary, removeFails, readFails, look);
    case PowerCut(kept, temporary, removeFails, readFails, look) =>
      ReopenedKeepsInv(w.m.disk.AfterCut(kept), temporary, removeFails, readFails, look);
  }

  lemma ReopenedKeepsInv(disk: Disk<Account>, temporary: bool, removeFails: bool, readFails: bool, look: Look)
    requires SoundDisk(disk)
    ensures Inv(Reopened(disk, temporary, removeFails, readFails, look))
  {
    var loads := !removeFails && !readFails && disk.Visible() != Unloadable;
    var m := Machine(loads, disk, temporary && removeFails, None, false, map[]);
    PrepareKeepsStatus(m, look);
    var effect := PrepareWrites(m, look);
    RewrittenIsSound(disk, NoAccount, effect);
  }
}
