/** The authentication machine with plain secrets: what authd/src/machine.rs
    does once hashing, salts, the state file's text and the copy of the state in
    memory are abstracted away. Clock readings, randomness, hasher failures and
    write faults are inputs of each operation. */
module AuthSpec {
  import opened Durable
  import opened Prelude
  import opened Codes
  import opened AuthStore

  const PAIRING_LIFETIME: nat := 600
  const CONFIRMATION_WINDOW: nat := 600
  const PAIRING_ATTEMPTS: nat := 5
  const PASSWORD_MIN_CODE_POINTS: nat := 12
  const PASSWORD_MAX_BYTES: nat := 1024
  const CODE_MAX_BYTES: nat := 64
  const BACKOFF_THRESHOLD: nat := 5
  const BACKOFF_CAP: nat := 900
  const MAX_FAILURES: nat := 0xFFFF_FFFF

  datatype Failure =
    | NotEnrolled | EnrollmentUnconfirmed | AlreadyEnrolled | NoPendingPairing | InvalidPairingCode
    | PairingAttemptsExhausted | NoProvisionalEnrollment | ConfirmationExpired | InvalidCredential
    | PasswordRejected | RateLimited | InvalidArgument | Unavailable

  /** `Stopped`: the process or the machine stopped inside the operation. */
  datatype Reply<T> = Success(value: T) | Failed(failure: Failure) | Stopped {
    function As<U>(): Reply<U>
      requires !Success?
    {
      if Stopped? then Stopped else Failed(failure)
    }
  }

  datatype Account =
    | NoAccount
    | Provisional(password: string, key: string, deadline: nat)
    | Operator(password: string, key: string)
    | Unloadable

  datatype Scope = Password(uid: nat) | Recovery | Confirmation

  datatype Counter = Counter(failures: nat, lastFailure: nat)

  type Code = c: seq<Byte> | |c| == PAIRING_CODE_BYTES witness [0, 0, 0, 0, 0]
  type Key = k: seq<Byte> | |k| == RECOVERY_KEY_BYTES witness [0, 0, 0, 0, 0, 0, 0, 0, 0, 0, 0, 0, 0, 0, 0, 0]

  datatype Pairing = Pairing(code: Code, expiresBoot: nat, expiresAt: nat, wrongAttempts: nat)

  /** `known`: the process is up and its copy of the state can be trusted. */
  datatype Machine = Machine(known: bool, disk: Disk<Account>, temporary: bool, pairing: Option<Pairing>,
                             expired: bool, backoff: map<Scope, Counter>) {
    function Now(): Account {
      disk.Visible()
    }
  }

  /** What one expiry check reads: both clocks, and the faults of its write. */
  datatype Look = Look(boot: Option<nat>, wall: nat, faults: Faults)

  /** The inputs that the rest of an operation may read, in the order of use. */
  datatype Env = Env(first: Look, second: Look, checkBoot: Option<nat>, verifyFails: bool, recordBoot: Option<nat>,
                     key: Option<Key>, code: Option<Code>, passwordSalt: Option<seq<nat>>, keySalt: Option<seq<nat>>,
                     boot: Option<nat>, wall: nat, faults: Faults)

  // ----- machine.rs, the helpers -----

  /** An enrollment is confirmable only from its commit until ten minutes later;
      a deadline beyond the window means the wall clock was set back. */
  function DeadlineExpired(deadline: nat, wall: nat): bool {
    wall >= deadline || deadline > wall + CONFIRMATION_WINDOW
  }

  function BackoffDelay(failures: nat): nat {
    if failures < BACKOFF_THRESHOLD then 0
    else
      var exponent := failures - BACKOFF_THRESHOLD;
      if exponent >= 10 then BACKOFF_CAP
      else
        var delay := PowerOfTwo(exponent);
        if delay < BACKOFF_CAP then delay else BACKOFF_CAP
  }

  function PowerOfTwo(n: nat): nat {
    if n == 0 then 1 else 2 * PowerOfTwo(n - 1)
  }

  function Commit(m: Machine, account: Account, faults: Faults): (Machine, Reply<()>) {
    var effect := WriteEffect(faults, m.temporary);
    var m1 := m.(disk := Rewritten(m.disk, account, effect), temporary := effect.temporary);
    match effect.written
    case Done => (m1.(known := true), Success(()))
    case FailedBeforeRename => (m1, Failed(Unavailable))
    case FailedAfterRename => (m1.(known := false, pairing := None), Failed(Unavailable))
    case Halted => (m1.(known := false, pairing := None), Stopped)
  }

  function Prepare(m: Machine, look: Look): (Machine, Reply<()>) {
    if !m.known || look.boot.None? then (m, Failed(Unavailable))
    else
      var m1 := if m.pairing.Some? && look.boot.value >= m.pairing.value.expiresBoot then m.(pairing := None) else m;
      if m.Now().Provisional? && DeadlineExpired(m.Now().deadline, look.wall) then
        var (m2, r) := Commit(m1, NoAccount, look.faults);
        if r.Success? then (m2.(expired := true), r) else (m2, r)
      else (m1, Success(()))
  }

  function CheckBackoff(m: Machine, scope: Scope, boot: Option<nat>): Reply<()> {
    if scope !in m.backoff then Success(())
    else
      var counter := m.backoff[scope];
      if boot.None? then Failed(Unavailable)
      else if boot.value < counter.lastFailure + BackoffDelay(counter.failures) then Failed(RateLimited)
      else Success(())
  }

  /** One more failure, dated only if there is a boot time. */
  function RecordFailure(m: Machine, scope: Scope, boot: Option<nat>): (Machine, Reply<()>) {
    var counter := if scope in m.backoff then m.backoff[scope] else Counter(0, 0);
    var failures := if counter.failures < MAX_FAILURES then counter.failures + 1 else MAX_FAILURES;
    if boot.None? then (m.(backoff := m.backoff[scope := Counter(failures, counter.lastFailure)]), Failed(Unavailable))
    else (m.(backoff := m.backoff[scope := Counter(failures, boot.value)]), Success(()))
  }

  function RecordSuccess(m: Machine, scope: Scope): Machine {
    m.(backoff := m.backoff - {scope})
  }

  /** A failed credential check: counted, then reported. */
  function Refuse(m: Machine, scope: Scope, boot: Option<nat>): (Machine, Reply<()>) {
    var (m1, r) := RecordFailure(m, scope, boot);
    (m1, if r.Success? then Failed(InvalidCredential) else r)
  }

  predicate WellFormedKey(input: string) {
    ByteLength(input) <= CODE_MAX_BYTES && ParseRecoveryKey(input).Some?
  }

  predicate PasswordEqualsKey(password: string, key: Key) {
    ParseRecoveryKey(Uppercase(password)) == Some(key)
  }

  // ----- machine.rs, the operations -----

  function VerifyPassword(m: Machine, uid: nat, password: string, env: Env): (Machine, Reply<()>) {
    var (m1, r) := Prepare(m, env.first);
    if !r.Success? then (m1, r) else VerifyPrepared(m1, uid, password, env)
  }

  function VerifyPrepared(m: Machine, uid: nat, password: string, env: Env): (Machine, Reply<()>) {
    if ByteLength(password) > PASSWORD_MAX_BYTES then (m, Failed(InvalidArgument))
    else if m.Now().Provisional? then (m, Failed(EnrollmentUnconfirmed))
    else if !m.Now().Operator? then (m, Failed(NotEnrolled))
    else
      var limited := CheckBackoff(m, Password(uid), env.checkBoot);
      if !limited.Success? then (m, limited)
      else if env.verifyFails then (m, Failed(Unavailable))
      else if password == m.Now().password then (RecordSuccess(m, Password(uid)), Success(()))
      else Refuse(m, Password(uid), env.recordBoot)
  }

  function ConsumePairing(m: Machine, code: string, password: string, env: Env): (Machine, Reply<string>) {
    var (m1, r) := Prepare(m, env.first);
    if !r.Success? then (m1, r.As()) else ConsumePrepared(m1, code, password, env)
  }

  function ConsumePrepared(m: Machine, code: string, password: string, env: Env): (Machine, Reply<string>) {
    if ByteLength(password) > PASSWORD_MAX_BYTES || ByteLength(code) > CODE_MAX_BYTES then
      (m, Failed(InvalidArgument))
    else
      var submitted := ParsePairingCode(code);
      if submitted.None? then (m, Failed(InvalidArgument)) else Redeem(m, submitted.value, password, env)
  }

  /** The rest of `consume_pairing`, after the code has been parsed. */
  function Redeem(m: Machine, submitted: Code, password: string, env: Env): (Machine, Reply<string>) {
    if m.Now().Operator? then (m, Failed(AlreadyEnrolled))
    else if m.Now().Provisional? then (m, Failed(EnrollmentUnconfirmed))
    else if m.pairing.None? then (m, Failed(NoPendingPairing))
    else if submitted != m.pairing.value.code then
      var wrong := m.pairing.value.wrongAttempts + 1;
      if wrong >= PAIRING_ATTEMPTS then (m.(pairing := None), Failed(PairingAttemptsExhausted))
      else (m.(pairing := Some(m.pairing.value.(wrongAttempts := wrong))), Failed(InvalidPairingCode))
    else Enroll(m, submitted, password, env)
  }

  /** The rest of `consume_pairing`, after the code has matched. */
  function Enroll(m: Machine, code: Code, password: string, env: Env): (Machine, Reply<string>) {
    if |password| < PASSWORD_MIN_CODE_POINTS || ParsePairingCode(password) == Some(code) then
      (m, Failed(PasswordRejected))
    else if env.key.None? then (m, Failed(Unavailable))
    else if PasswordEqualsKey(password, env.key.value) then (m, Failed(PasswordRejected))
    else if env.passwordSalt.None? || env.keySalt.None? then (m, Failed(Unavailable))
    else
      var key := EncodeRecoveryKey(env.key.value);
      var (m1, r) := Commit(m, Provisional(password, key, env.wall + CONFIRMATION_WINDOW), env.faults);
      if !r.Success? then (m1, r.As())
      else (m1.(pairing := None, expired := false), Success(key))
  }

  function ConfirmRecoveryKey(m: Machine, key: string, env: Env): (Machine, Reply<()>) {
    var (m1, r) := Prepare(m, env.first);
    if !r.Success? then (m1, r) else ConfirmPrepared(m1, key, env)
  }

  function ConfirmPrepared(m: Machine, key: string, env: Env): (Machine, Reply<()>) {
    if !WellFormedKey(key) then (m, Failed(InvalidArgument))
    else if !m.Now().Provisional? then
      (m, Failed(if m.expired then ConfirmationExpired else NoProvisionalEnrollment))
    else
      var limited := CheckBackoff(m, Confirmation, env.checkBoot);
      if !limited.Success? then (m, limited)
      else if env.verifyFails then (m, Failed(Unavailable))
      else Finalize(m, m.Now().password, m.Now().key, key, env)
  }

  /** The rest of `confirm_recovery_key`, after the hash: the deadline is checked
      again before any commit. */
  function Finalize(m: Machine, password: string, key: string, submitted: string, env: Env): (Machine, Reply<()>) {
    var (m1, r) := Prepare(m, env.second);
    if !r.Success? then (m1, r)
    else if m1.expired && !m1.Now().Provisional? then (m1, Failed(ConfirmationExpired))
    else if submitted != key then Refuse(m1, Confirmation, env.recordBoot)
    else
      var (m2, c) := Commit(m1, Operator(password, key), env.faults);
      if !c.Success? then (m2, c) else (RecordSuccess(m2, Confirmation), c)
  }

  function RecoverPassword(m: Machine, key: string, password: string, env: Env): (Machine, Reply<()>) {
    var (m1, r) := Prepare(m, env.first);
    if !r.Success? then (m1, r) else RecoverPrepared(m1, key, password, env)
  }

  function RecoverPrepared(m: Machine, key: string, password: string, env: Env): (Machine, Reply<()>) {
    if !WellFormedKey(key) || ByteLength(password) > PASSWORD_MAX_BYTES then (m, Failed(InvalidArgument))
    else if m.Now().Provisional? then (m, Failed(EnrollmentUnconfirmed))
    else if !m.Now().Operator? then (m, Failed(NotEnrolled))
    else
      var limited := CheckBackoff(m, Recovery, env.checkBoot);
      if !limited.Success? then (m, limited)
      else if env.verifyFails then (m, Failed(Unavailable))
      else if key != m.Now().key then Refuse(m, Recovery, env.recordBoot)
      else Replace(RecordSuccess(m, Recovery), ParseRecoveryKey(key).value, password, env)
  }

  /** The rest of `recover_password`, after the key has matched. */
  function Replace(m: Machine, key: Key, password: string, env: Env): (Machine, Reply<()>)
    requires m.Now().Operator?
  {
    if |password| < PASSWORD_MIN_CODE_POINTS || PasswordEqualsKey(password, key) then (m, Failed(PasswordRejected))
    else if env.passwordSalt.None? then (m, Failed(Unavailable))
    else Commit(m, Operator(password, m.Now().key), env.faults)
  }

  function EnsurePendingPairing(m: Machine, env: Env): (Machine, Reply<()>) {
    var (m1, r) := Prepare(m, env.first);
    if !r.Success? then (m1, r)
    else if m1.Now() != NoAccount || m1.pairing.Some? then (m1, Success(()))
    else if env.boot.None? || env.code.None? then (m1, Failed(Unavailable))
    else
      (m1.(pairing := Some(Pairing(env.code.value, env.boot.value + PAIRING_LIFETIME, env.wall + PAIRING_LIFETIME, 0)),
           expired := false), Success(()))
  }

  function CancelPendingPairing(m: Machine, env: Env): (Machine, Reply<()>) {
    var (m1, r) := Prepare(m, env.first);
    if !r.Success? then (m1, r) else (m1.(pairing := None), r)
  }

  /** Also replaces a state that cannot be loaded or trusted. */
  function ResetEnrollment(m: Machine, env: Env): (Machine, Reply<()>) {
    var (m1, r) := Commit(m, NoAccount, env.faults);
    if !r.Success? then (m1, r)
    else (m1.(pairing := None, expired := false, backoff := map[]), r)
  }

  function GetPendingPairing(m: Machine, env: Env): (Machine, Reply<(bool, string, nat)>) {
    var (m1, r) := Prepare(m, env.first);
    if !r.Success? then (m1, r.As())
    else if m1.pairing.None? then (m1, Success((false, "", 0)))
    else (m1, Success((true, EncodePairingCode(m1.pairing.value.code), m1.pairing.value.expiresAt)))
  }

  function GetEnrollmentState(m: Machine, env: Env): (Machine, Reply<(bool, bool)>) {
    var (m1, r) := Prepare(m, env.first);
    if !r.Success? then (m1, r.As())
    else (m1, Success((m1.Now().Operator?, m1.pairing.Some?)))
  }

  /** machine.rs `open`, on the disk that the last process left. */
  function Open(disk: Disk<Account>, temporary: bool, removeFails: bool, readFails: bool, look: Look): Machine {
    var loads := !removeFails && !readFails && disk.Visible() != Unloadable;
    var m := Machine(loads, disk, temporary && removeFails, None, false, map[]);
    Prepare(m, look).0
  }
}
