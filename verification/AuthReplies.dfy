/** Which reply every operation of the authentication machine gives, for all
    inputs, and in particular when it is not available. */
module AuthReplies {
  import opened Durable
  import opened Prelude
  import opened Codes
  import opened AuthStore
  import opened AuthSpec
  import opened AuthRuns
  import opened AuthTheorems

  /** Refused for want of a clock, randomness, the hasher or the disk, or stopped
      inside. */
  ghost predicate Lost<T>(reply: Reply<T>) {
    reply == Failed(Unavailable) || reply == Stopped
  }

  // ----- Writes and clocks -----

  /** Every step of a write passes, and no temporary is in its way. */
  ghost predicate Passes(faults: Faults, temporary: bool) {
    && faults.create.Pass? && faults.write.Pass? && faults.fileSync.Pass? && faults.rename.Pass?
    && faults.directorySync.Pass? && !temporary
  }

  lemma WriteEffectDecides(faults: Faults, temporary: bool)
    ensures var effect := WriteEffect(faults, temporary);
            && (effect.written == Done <==> Passes(faults, temporary))
            && (effect.renamed <==> Passes(faults.(directorySync := Pass), temporary))
            && (effect.written == FailedAfterRename <==> effect.renamed && faults.directorySync.Fail?)
            && (effect.renamed ==> !effect.temporary)
  {
  }

  lemma CommitDecides(m: Machine, account: Account, faults: Faults)
    ensures var (t, r) := Commit(m, account, faults);
            && (r.Success? <==> Passes(faults, m.temporary)) && (!r.Success? ==> Lost(r))
            && (r.Success? ==> t == m.(known := true, disk := Disk(account, []), temporary := false))
            && (!r.Success? ==> t.backoff == m.backoff && t.expired == m.expired)
  {
  }

  /** The ten minutes in which an enrollment with this deadline can be confirmed. */
  ghost predicate InWindow(deadline: nat, wall: nat) {
    deadline - CONFIRMATION_WINDOW <= wall < deadline
  }

  lemma DeadlineWindow(deadline: nat, wall: nat)
    ensures DeadlineExpired(deadline, wall) <==> !InWindow(deadline, wall)
  {
  }

  /** The account that an operation finds: nothing, in place of an enrollment
      outside its window. */
  ghost function Seen(m: Machine, look: Look): Account {
    if m.Now().Provisional? && !InWindow(m.Now().deadline, look.wall) then NoAccount else m.Now()
  }

  /** The pairing that it finds. */
  ghost predicate Live(m: Machine, look: Look) {
    m.pairing.Some? && look.boot.Some? && look.boot.value < m.pairing.value.expiresBoot
  }

  /** The state is known, the clock can be read, and an enrollment outside its
      window can be discarded. */
  ghost predicate Ready(m: Machine, look: Look) {
    m.known && look.boot.Some? && (Seen(m, look) != m.Now() ==> Passes(look.faults, m.temporary))
  }

  /** What an expiry check answers, and what it leaves. */
  lemma PrepareDecides(m: Machine, look: Look)
    ensures var (t, r) := Prepare(m, look);
            && (r.Success? <==> Ready(m, look)) && (!r.Success? ==> Lost(r)) && t.backoff == m.backoff
            && (r.Success? ==>
                  && t.known && t.Now() == Seen(m, look) && t.pairing == (if Live(m, look) then m.pairing else None)
                  && t.expired == (m.expired || Seen(m, look) != m.Now())
                  && (Seen(m, look) == m.Now() ==> t.disk == m.disk && t.temporary == m.temporary))
  {
    if m.Now().Provisional? {
      DeadlineWindow(m.Now().deadline, look.wall);
    }
    CommitDecides(m, NoAccount, look.faults);
  }

  // ----- Backoff -----

  /** The scope has no failures, or its delay is over at the boot time read. */
  ghost predicate Permitted(m: Machine, scope: Scope, boot: Option<nat>) {
    scope in m.backoff ==>
      boot.Some? && boot.value >= m.backoff[scope].lastFailure + BackoffDelay(m.backoff[scope].failures)
  }

  ghost predicate Limited(m: Machine, scope: Scope, boot: Option<nat>) {
    scope in m.backoff && boot.Some? && !Permitted(m, scope, boot)
  }

  /** The scope's clock cannot be read, or a permitted check cannot be made or,
      if the secret is wrong, dated. */
  ghost predicate Obstructed(m: Machine, scope: Scope, env: Env, right: bool) {
    || (scope in m.backoff && env.checkBoot.None?)
    || (Permitted(m, scope, env.checkBoot) && (env.verifyFails || (!right && env.recordBoot.None?)))
  }

  ghost predicate Checked(m: Machine, scope: Scope, env: Env) {
    Permitted(m, scope, env.checkBoot) && !env.verifyFails
  }

  // ----- Password checks -----

  lemma VerifyPreparedDecides(m: Machine, uid: nat, password: string, env: Env)
    ensures var (t, r) := VerifyPrepared(m, uid, password, env);
            var s, a, size := Password(uid), m.Now(), ByteLength(password) <= PASSWORD_MAX_BYTES;
            && (Lost(r) <==> size && a.Operator? && Obstructed(m, s, env, password == a.password))
            && (r == Failed(InvalidArgument) <==> !size)
            && (r == Failed(EnrollmentUnconfirmed) <==> size && a.Provisional?)
            && (r == Failed(NotEnrolled) <==> size && !a.Provisional? && !a.Operator?)
            && (r == Failed(RateLimited) <==> size && a.Operator? && Limited(m, s, env.checkBoot))
            && (r == Failed(InvalidCredential) <==>
                  size && a.Operator? && Checked(m, s, env) && password != a.password && env.recordBoot.Some?)
            && (r.Success? <==> size && a.Operator? && Checked(m, s, env) && password == a.password)
            && t.disk == m.disk && (r.Success? ==> t.backoff == m.backoff - {s})
  {
  }

  /** Which reply a password check gives. With nothing failing, exactly the right
      password of an enrolled account succeeds, and clears the failures of its
      scope. */
  lemma VerifyDecides(m: Machine, uid: nat, password: string, env: Env)
    ensures var (t, r) := VerifyPassword(m, uid, password, env);
            var s, a, size := Password(uid), Seen(m, env.first), ByteLength(password) <= PASSWORD_MAX_BYTES;
            && (Lost(r) <==>
                  !Ready(m, env.first) || (size && a.Operator? && Obstructed(m, s, env, password == a.password)))
            && (r == Failed(InvalidArgument) <==> Ready(m, env.first) && !size)
            && (r == Failed(EnrollmentUnconfirmed) <==> Ready(m, env.first) && size && a.Provisional?)
            && (r == Failed(NotEnrolled) <==> Ready(m, env.first) && size && !a.Provisional? && !a.Operator?)
            && (r == Failed(RateLimited) <==> Ready(m, env.first) && size && a.Operator? && Limited(m, s, env.checkBoot))
            && (r == Failed(InvalidCredential) <==>
                  && Ready(m, env.first) && size && a.Operator? && Checked(m, s, env) && password != a.password
                  && env.recordBoot.Some?)
            && (r.Success? <==>
                  Ready(m, env.first) && size && a.Operator? && Checked(m, s, env) && password == a.password)
            && (r.Success? ==> t.backoff == m.backoff - {s} && t.disk == m.disk)
  {
    PrepareDecides(m, env.first);
    VerifyPreparedDecides(Prepare(m, env.first).0, uid, password, env);
  }

  // ----- Pairing codes -----

  /** The sizes and the form that a redemption must have. */
  ghost predicate Submits(code: string, password: string) {
    && ByteLength(password) <= PASSWORD_MAX_BYTES && ByteLength(code) <= CODE_MAX_BYTES && ParsePairingCode(code).Some?
  }

  /** Long enough, and no spelling of the pairing code. */
  ghost predicate MayEnroll(password: string, code: Code) {
    |password| >= PASSWORD_MIN_CODE_POINTS && ParsePairingCode(password) != Some(code)
  }

  ghost predicate SpellsKey(password: string, key: Key) {
    Uppercase(password) == EncodeRecoveryKey(key)
  }

  lemma PasswordEqualsKeyDecides(password: string, key: Key)
    ensures PasswordEqualsKey(password, key) <==> SpellsKey(password, key)
  {
    RecoveryKeySpelling(Uppercase(password), key);
  }

  lemma EnrollReplies(m: Machine, code: Code, password: string, env: Env)
    ensures var (t, r) := Enroll(m, code, password, env);
            var may := MayEnroll(password, code);
            var spelled := env.key.Some? && SpellsKey(password, env.key.value);
            && (Lost(r) <==>
                  may && !spelled
                  && !(env.key.Some? && env.passwordSalt.Some? && env.keySalt.Some? && Passes(env.faults, m.temporary)))
            && (r == Failed(PasswordRejected) <==> !may || spelled)
            && (r.Success? <==>
                  && may && !spelled && env.key.Some? && env.passwordSalt.Some? && env.keySalt.Some?
                  && Passes(env.faults, m.temporary))
            && (r.Success? ==> r.value == EncodeRecoveryKey(env.key.value) && t.pairing.None? && !t.expired && t.known)
  {
    if env.key.Some? {
      PasswordEqualsKeyDecides(password, env.key.value);
      CommitDecides(m, Provisional(password, EncodeRecoveryKey(env.key.value), env.wall + CONFIRMATION_WINDOW), env.faults);
    }
  }

  lemma RedeemReplies(m: Machine, submitted: Code, password: string, env: Env)
    ensures var (t, r) := Redeem(m, submitted, password, env);
            var a, paired := m.Now(), !m.Now().Operator? && !m.Now().Provisional? && m.pairing.Some?;
            var wrong := paired && submitted != m.pairing.value.code;
            && (r == Failed(AlreadyEnrolled) <==> a.Operator?)
            && (r == Failed(EnrollmentUnconfirmed) <==> a.Provisional?)
            && (r == Failed(NoPendingPairing) <==> !a.Operator? && !a.Provisional? && m.pairing.None?)
            && (r == Failed(InvalidPairingCode) <==> wrong && m.pairing.value.wrongAttempts + 1 < PAIRING_ATTEMPTS)
            && (r == Failed(PairingAttemptsExhausted) <==> wrong && m.pairing.value.wrongAttempts + 1 >= PAIRING_ATTEMPTS)
            && (r == Failed(PairingAttemptsExhausted) ==> t == m.(pairing := None))
            && (paired && !wrong ==> Redeem(m, submitted, password, env) == Enroll(m, submitted, password, env))
            && (Lost(r) || r.Success? || r == Failed(PasswordRejected) ==> paired && !wrong)
            && r != Failed(InvalidArgument)
  {
    EnrollReplies(m, submitted, password, env);
  }

  /** Which reply a redemption gives: refusals in their order, and success for
      the live pairing's code and an acceptable password, if randomness and disk
      do not fail. */
  lemma ConsumeDecides(m: Machine, code: string, password: string, env: Env)
    requires Status(m)
    ensures var (t, r) := ConsumePairing(m, code, password, env);
            var ready, a, live := Ready(m, env.first) && Submits(code, password), Seen(m, env.first), Live(m, env.first);
            && (r == Failed(InvalidArgument) <==> Ready(m, env.first) && !Submits(code, password))
            && (r == Failed(AlreadyEnrolled) <==> ready && a.Operator?)
            && (r == Failed(EnrollmentUnconfirmed) <==> ready && a.Provisional?)
            && (r == Failed(NoPendingPairing) <==> ready && !a.Operator? && !a.Provisional? && !live)
            && (r == Failed(InvalidPairingCode) <==>
                  ready && live && Mistaken(m, code) && m.pairing.value.wrongAttempts + 1 < PAIRING_ATTEMPTS)
            && (r == Failed(PairingAttemptsExhausted) <==>
                  ready && live && Mistaken(m, code) && m.pairing.value.wrongAttempts + 1 >= PAIRING_ATTEMPTS)
            && (r == Failed(PairingAttemptsExhausted) ==> t.pairing.None?)
            && (r == Failed(PasswordRejected) <==> ready && live && !Mistaken(m, code) && Rejected(m, password, env))
            && (Lost(r) <==>
                  || !Ready(m, env.first)
                  || (ready && live && !Mistaken(m, code) && !Rejected(m, password, env) && !Enrolls(m, env)))
            && (r.Success? <==>
                  ready && live && !Mistaken(m, code) && !Rejected(m, password, env) && Enrolls(m, env))
            && (r.Success? ==> r.value == EncodeRecoveryKey(env.key.value) && t.pairing.None? && t.known)
  {
    PrepareDecides(m, env.first);
    PairedIsNoAccount(m, env.first);
    var m1 := Prepare(m, env.first).0;
    if Ready(m, env.first) && Submits(code, password) {
      RedeemReplies(m1, ParsePairingCode(code).value, password, env);
      if m1.pairing.Some? {
        EnrollReplies(m1, m1.pairing.value.code, password, env);
      }
    }
  }

  /** A wrong code for the pairing. */
  ghost predicate Mistaken(m: Machine, code: string) {
    m.pairing.Some? && ParsePairingCode(code) != Some(m.pairing.value.code)
  }

  ghost predicate Rejected(m: Machine, password: string, env: Env) {
    m.pairing.Some? && (!MayEnroll(password, m.pairing.value.code) || (env.key.Some? && SpellsKey(password, env.key.value)))
  }

  ghost predicate Enrolls(m: Machine, env: Env) {
    env.key.Some? && env.passwordSalt.Some? && env.keySalt.Some? && Passes(env.faults, m.temporary)
  }

  lemma PairedIsNoAccount(m: Machine, look: Look)
    requires Status(m)
    ensures Live(m, look) ==> Seen(m, look) == m.Now() == NoAccount
  {
  }

  // ----- The recovery key -----

  lemma WellFormedKeyDecides(input: string)
    ensures WellFormedKey(input) <==> exists key: Key :: input == EncodeRecoveryKey(key)
  {
    if WellFormedKey(input) {
      var key: Key := ParseRecoveryKey(input).value;
      RecoveryKeySpelling(input, key);
    } else if key: Key :| input == EncodeRecoveryKey(key) {
      RecoveryKeySpelling(input, key);
      EncodedIsShort(key);
    }
  }

  lemma EncodedIsShort(key: Key)
    ensures ByteLength(EncodeRecoveryKey(key)) == RECOVERY_KEY_SYMBOLS
  {
    EncodedStream(key, RECOVERY_KEY_SYMBOLS);
    SymbolsAreAscii(EncodeRecoveryKey(key));
    AsciiLength(EncodeRecoveryKey(key));
  }

  /** After the hash: the second look, and then the key. */
  lemma FinalizeReplies(m: Machine, submitted: string, env: Env)
    requires m.Now().Provisional?
    ensures var (t, r) := Finalize(m, m.Now().password, m.Now().key, submitted, env);
            var current := InWindow(m.Now().deadline, env.second.wall);
            && (Lost(r) <==>
                  || !Ready(m, env.second)
                  || (current && (if submitted == m.Now().key then !Passes(env.faults, m.temporary) else env.recordBoot.None?)))
            && (r == Failed(ConfirmationExpired) <==> Ready(m, env.second) && !current)
            && (r == Failed(InvalidCredential) <==>
                  Ready(m, env.second) && current && submitted != m.Now().key && env.recordBoot.Some?)
            && (r.Success? <==>
                  Ready(m, env.second) && current && submitted == m.Now().key && Passes(env.faults, m.temporary))
            && (r.Success? ==> t.backoff == m.backoff - {Confirmation})
  {
    PrepareDecides(m, env.second);
    CommitDecides(Prepare(m, env.second).0, Operator(m.Now().password, m.Now().key), env.faults);
  }

  ghost predicate Tried(m: Machine, env: Env) {
    m.Now().Provisional? && Checked(m, Confirmation, env)
  }

  lemma ConfirmPreparedReplies(m: Machine, key: string, env: Env)
    ensures var (t, r) := ConfirmPrepared(m, key, env);
            && (r == Failed(InvalidArgument) <==> !WellFormedKey(key))
            && (WellFormedKey(key) ==>
                  && (!m.Now().Provisional? ==>
                        r == Failed(if m.expired then ConfirmationExpired else NoProvisionalEnrollment))
                  && (m.Now().Provisional? && Limited(m, Confirmation, env.checkBoot) ==> r == Failed(RateLimited))
                  && (m.Now().Provisional? && !Limited(m, Confirmation, env.checkBoot) && !Checked(m, Confirmation, env) ==>
                        r == Failed(Unavailable))
                  && (Tried(m, env) ==>
                        ConfirmPrepared(m, key, env) == Finalize(m, m.Now().password, m.Now().key, key, env)))
  {
    if m.Now().Provisional? {
      FinalizeReplies(m, key, env);
    }
  }

  /** Which reply a confirmation gives. With nothing failing, exactly the key of
      an enrollment inside its window at both readings succeeds, and clears the
      failures of its scope. */
  lemma ConfirmDecides(m: Machine, key: string, env: Env)
    ensures var (t, r) := ConfirmRecoveryKey(m, key, env);
            var ready, a := Ready(m, env.first) && WellFormedKey(key), Seen(m, env.first);
            var tried := ready && a.Provisional? && Checked(m, Confirmation, env);
            && (r == Failed(InvalidArgument) <==> Ready(m, env.first) && !WellFormedKey(key))
            && (r == Failed(NoProvisionalEnrollment) <==> ready && !a.Provisional? && !m.expired && a == m.Now())
            && (r == Failed(ConfirmationExpired) <==>
                  || (ready && !a.Provisional? && (m.expired || a != m.Now()))
                  || (tried && Ready(m, env.second) && !InWindow(a.deadline, env.second.wall)))
            && (r == Failed(RateLimited) <==> ready && a.Provisional? && Limited(m, Confirmation, env.checkBoot))
            && (r == Failed(InvalidCredential) <==>
                  && tried && Ready(m, env.second) && InWindow(a.deadline, env.second.wall)
                  && key != a.key && env.recordBoot.Some?)
            && (Lost(r) <==>
                  || !Ready(m, env.first)
                  || (ready && a.Provisional? && !tried && !Limited(m, Confirmation, env.checkBoot))
                  || (tried && !Ready(m, env.second))
                  || (tried && InWindow(a.deadline, env.second.wall)
                      && (if key == a.key then !Passes(env.faults, m.temporary) else env.recordBoot.None?)))
            && (r.Success? <==>
                  && tried && Ready(m, env.second) && InWindow(a.deadline, env.second.wall)
                  && key == a.key && Passes(env.faults, m.temporary))
            && (r.Success? ==> t.backoff == m.backoff - {Confirmation})
  {
    PrepareDecides(m, env.first);
    var m1 := Prepare(m, env.first).0;
    if Ready(m, env.first) {
      ConfirmPreparedReplies(m1, key, env);
      if m1.Now().Provisional? {
        FinalizeReplies(m1, key, env);
      }
    }
  }

  ghost predicate MayReplace(password: string, key: string) {
    |password| >= PASSWORD_MIN_CODE_POINTS && Uppercase(password) != key
  }

  lemma ReplaceReplies(m: Machine, key: Key, password: string, env: Env)
    requires m.Now().Operator?
    ensures var (t, r) := Replace(m, key, password, env);
            var may := MayReplace(password, EncodeRecoveryKey(key));
            && (r == Failed(PasswordRejected) <==> !may)
            && (Lost(r) <==> may && !(env.passwordSalt.Some? && Passes(env.faults, m.temporary)))
            && (r.Success? <==> may && env.passwordSalt.Some? && Passes(env.faults, m.temporary))
            && t.backoff == m.backoff
  {
    PasswordEqualsKeyDecides(password, key);
    CommitDecides(m, Operator(password, m.Now().key), env.faults);
  }

  lemma RecoverPreparedReplies(m: Machine, key: string, password: string, env: Env)
    ensures var (t, r) := RecoverPrepared(m, key, password, env);
            var fits, a := WellFormedKey(key) && ByteLength(password) <= PASSWORD_MAX_BYTES, m.Now();
            var tried := fits && a.Operator? && Checked(m, Recovery, env);
            && (r == Failed(InvalidArgument) <==> !fits)
            && (r == Failed(EnrollmentUnconfirmed) <==> fits && a.Provisional?)
            && (r == Failed(NotEnrolled) <==> fits && !a.Provisional? && !a.Operator?)
            && (r == Failed(RateLimited) <==> fits && a.Operator? && Limited(m, Recovery, env.checkBoot))
            && (r == Failed(InvalidCredential) <==> tried && key != a.key && env.recordBoot.Some?)
            && (r == Failed(PasswordRejected) <==> tried && key == a.key && !MayReplace(password, key))
            && (Lost(r) <==>
                  || (fits && a.Operator? && Obstructed(m, Recovery, env, key == a.key))
                  || (tried && key == a.key && MayReplace(password, key) && !Replaces(m, env)))
            && (r.Success? <==> tried && key == a.key && MayReplace(password, key) && Replaces(m, env))
            && (tried && key == a.key ==> t.backoff == m.backoff - {Recovery})
  {
    if m.Now().Operator? && WellFormedKey(key) {
      RecoveryKeySpelling(key, ParseRecoveryKey(key).value);
      ReplaceReplies(RecordSuccess(m, Recovery), ParseRecoveryKey(key).value, password, env);
    }
  }

  ghost predicate Replaces(m: Machine, env: Env) {
    env.passwordSalt.Some? && Passes(env.faults, m.temporary)
  }

  /** Which reply a recovery gives. With nothing failing, exactly the key of an
      enrolled account and an acceptable password succeed. */
  lemma RecoverDecides(m: Machine, key: string, password: string, env: Env)
    ensures var (t, r) := RecoverPassword(m, key, password, env);
            var fits := Ready(m, env.first) && WellFormedKey(key) && ByteLength(password) <= PASSWORD_MAX_BYTES;
            var a := Seen(m, env.first);
            var tried := fits && a.Operator? && Checked(m, Recovery, env);
            && (r == Failed(InvalidArgument) <==>
                  Ready(m, env.first) && !(WellFormedKey(key) && ByteLength(password) <= PASSWORD_MAX_BYTES))
            && (r == Failed(EnrollmentUnconfirmed) <==> fits && a.Provisional?)
            && (r == Failed(NotEnrolled) <==> fits && !a.Provisional? && !a.Operator?)
            && (r == Failed(RateLimited) <==> fits && a.Operator? && Limited(m, Recovery, env.checkBoot))
            && (r == Failed(InvalidCredential) <==> tried && key != a.key && env.recordBoot.Some?)
            && (r == Failed(PasswordRejected) <==> tried && key == a.key && !MayReplace(password, key))
            && (Lost(r) <==>
                  || !Ready(m, env.first)
                  || (fits && a.Operator? && Obstructed(m, Recovery, env, key == a.key))
                  || (tried && key == a.key && MayReplace(password, key) && !Replaces(m, env)))
            && (r.Success? <==> tried && key == a.key && MayReplace(password, key) && Replaces(m, env))
            && (tried && key == a.key ==> t.backoff == m.backoff - {Recovery})
  {
    PrepareDecides(m, env.first);
    if Ready(m, env.first) {
      RecoverPreparedReplies(Prepare(m, env.first).0, key, password, env);
    }
  }

  // ----- Pairings, resets and reports -----

  /** Success leaves a pairing exactly for an unenrolled machine: the live one if
      there is, and otherwise a new one of ten minutes with no attempts. */
  lemma EnsurePendingDecides(m: Machine, env: Env)
    requires Status(m)
    ensures var (t, r) := EnsurePendingPairing(m, env);
            var ready, a, live := Ready(m, env.first), Seen(m, env.first), Live(m, env.first);
            && (r.Success? <==> ready && (a != NoAccount || live || (env.boot.Some? && env.code.Some?)))
            && (!r.Success? ==> Lost(r))
            && (r.Success? ==>
                  t.pairing == if a != NoAccount then None else if live then m.pairing
                               else Some(Pairing(env.code.value, env.boot.value + 600, env.wall + 600, 0)))
            && (r.Success? ==>
                  && t.known && t.Now() == a
                  && (t.expired <==> (m.expired || a != m.Now()) && (a != NoAccount || live)))
  {
    PrepareDecides(m, env.first);
    PairedIsNoAccount(m, env.first);
  }

  lemma CancelPendingDecides(m: Machine, env: Env)
    ensures var (t, r) := CancelPendingPairing(m, env);
            && (r.Success? <==> Ready(m, env.first)) && (!r.Success? ==> Lost(r))
            && (r.Success? ==>
                  && t.pairing.None? && t.known && t.Now() == Seen(m, env.first)
                  && (t.expired <==> m.expired || Seen(m, env.first) != m.Now()))
  {
    PrepareDecides(m, env.first);
  }

  /** A reset succeeds from every state if its write does. */
  lemma ResetDecides(m: Machine, env: Env)
    ensures var (t, r) := ResetEnrollment(m, env);
            && (r.Success? <==> Passes(env.faults, m.temporary)) && (!r.Success? ==> Lost(r))
            && (r.Success? ==> t == Machine(true, Disk(NoAccount, []), false, None, false, map[]))
  {
    CommitDecides(m, NoAccount, env.faults);
  }

  lemma GetPendingDecides(m: Machine, env: Env)
    ensures var (t, r) := GetPendingPairing(m, env);
            && (r.Success? <==> Ready(m, env.first)) && (!r.Success? ==> Lost(r))
            && (r.Success? ==>
                  r.value == if Live(m, env.first) then (true, EncodePairingCode(m.pairing.value.code), m.pairing.value.expiresAt)
                             else (false, "", 0))
  {
    PrepareDecides(m, env.first);
  }

  lemma GetEnrollmentDecides(m: Machine, env: Env)
    ensures var (t, r) := GetEnrollmentState(m, env);
            && (r.Success? <==> Ready(m, env.first)) && (!r.Success? ==> Lost(r))
            && (r.Success? ==> r.value == (Seen(m, env.first).Operator?, Live(m, env.first)))
  {
    PrepareDecides(m, env.first);
  }

  /** A start knows the account on disk if the temporary could be removed and the
      file read and loaded; a lapsed enrollment is discarded. */
  lemma OpenDecides(disk: Disk<Account>, temporary: bool, removeFails: bool, readFails: bool, look: Look)
    ensures var t := Open(disk, temporary, removeFails, readFails, look);
            var loads := !removeFails && !readFails && disk.Visible() != Unloadable;
            && t.pairing.None? && t.backoff == map[]
            && (!loads ==> !t.known && t.disk == disk)
            && (loads && look.boot.None? ==> t.known && t.disk == disk)
            && (loads && look.boot.Some? && (Lapsed(disk.Visible(), look) ==> Passes(look.faults, false)) ==>
                  t.known && t.Now() == if Lapsed(disk.Visible(), look) then NoAccount else disk.Visible())
  {
    var loads := !removeFails && !readFails && disk.Visible() != Unloadable;
    var m := Machine(loads, disk, temporary && removeFails, None, false, map[]);
    PrepareDecides(m, look);
    if disk.Visible().Provisional? {
      DeadlineWindow(disk.Visible().deadline, look.wall);
    }
  }

  // ----- What is remembered of an expired enrollment -----

  lemma EnrollExpired(m: Machine, code: Code, password: string, env: Env)
    ensures var (t, r) := Enroll(m, code, password, env); t.expired == (m.expired && !r.Success?)
  {
  }

  lemma RedeemExpired(m: Machine, code: Code, password: string, env: Env)
    ensures var (t, r) := Redeem(m, code, password, env); t.expired == (m.expired && !r.Success?)
  {
    EnrollExpired(m, code, password, env);
  }

  /** Operations remember that an enrollment has expired if it was remembered
      before or they have discarded it themselves; a redemption forgets it. */
  lemma ConsumeExpired(m: Machine, code: string, password: string, env: Env)
    requires Ready(m, env.first)
    ensures var (t, r) := ConsumePairing(m, code, password, env);
            t.expired <==> !r.Success? && (m.expired || Seen(m, env.first) != m.Now())
  {
    hide Ready, Seen;
    PrepareDecides(m, env.first);
    if ParsePairingCode(code).Some? {
      RedeemExpired(Prepare(m, env.first).0, ParsePairingCode(code).value, password, env);
    }
  }

  lemma FinalizeExpired(m: Machine, key: string, env: Env)
    requires m.Now().Provisional?
    ensures var (t, r) := Finalize(m, m.Now().password, m.Now().key, key, env);
            t.expired <==> m.expired || r == Failed(ConfirmationExpired)
  {
    FinalizeReplies(m, key, env);
  }

  lemma ConfirmExpired(m: Machine, key: string, env: Env)
    requires Ready(m, env.first)
    ensures var (t, r) := ConfirmRecoveryKey(m, key, env);
            t.expired <==> m.expired || Seen(m, env.first) != m.Now() || r == Failed(ConfirmationExpired)
  {
    hide Ready, Seen;
    PrepareDecides(m, env.first);
    var m1 := Prepare(m, env.first).0;
    ConfirmPreparedReplies(m1, key, env);
    if m1.Now().Provisional? {
      FinalizeExpired(m1, key, env);
    }
  }

  lemma ChecksExpired(m: Machine, uid: nat, key: string, password: string, env: Env)
    requires Ready(m, env.first)
    ensures VerifyPassword(m, uid, password, env).0.expired <==> m.expired || Seen(m, env.first) != m.Now()
    ensures RecoverPassword(m, key, password, env).0.expired <==> m.expired || Seen(m, env.first) != m.Now()
  {
    hide Ready, Seen;
    PrepareDecides(m, env.first);
    CheckExpired(Prepare(m, env.first).0, uid, key, password, env);
  }

  lemma CheckExpired(m: Machine, uid: nat, key: string, password: string, env: Env)
    ensures VerifyPrepared(m, uid, password, env).0.expired == m.expired
    ensures RecoverPrepared(m, key, password, env).0.expired == m.expired
  {
  }

  // ----- What drops a pairing -----

  /** The pairing stays, unless it has expired at the first look or the state is
      no longer known. */
  ghost predicate KeepsPairing(m: Machine, look: Look, t: Machine)
    requires m.pairing.Some?
  {
    || t.pairing.Some?
    || !t.known
    || (look.boot.Some? && look.boot.value >= m.pairing.value.expiresBoot)
  }

  lemma PrepareKeepsLive(m: Machine, look: Look)
    requires Status(m) && m.pairing.Some?
    ensures KeepsPairing(m, look, Prepare(m, look).0)
    ensures Prepare(m, look).0.Now() == NoAccount && Status(Prepare(m, look).0)
  {
  }

  lemma RedeemKeepsLive(m: Machine, submitted: Code, password: string, env: Env)
    requires m.pairing.Some?
    ensures var (t, r) := Redeem(m, submitted, password, env);
            t.pairing.Some? || !t.known || r.Success? || r == Failed(PairingAttemptsExhausted)
  {
    EnrollKeepsLive(m, submitted, password, env);
  }

  lemma EnrollKeepsLive(m: Machine, code: Code, password: string, env: Env)
    requires m.pairing.Some?
    ensures var (t, r) := Enroll(m, code, password, env); t.pairing.Some? || !t.known || r.Success?
  {
  }

  lemma ConsumeKeepsLive(m: Machine, code: string, password: string, env: Env)
    requires m.pairing.Some?
    ensures var (t, r) := ConsumePrepared(m, code, password, env);
            t.pairing.Some? || !t.known || r.Success? || r == Failed(PairingAttemptsExhausted)
  {
    if ParsePairingCode(code).Some? {
      RedeemKeepsLive(m, ParsePairingCode(code).value, password, env);
    }
  }

  lemma OthersKeepLive(m: Machine, op: Op, env: Env)
    requires m.pairing.Some? && m.Now() == NoAccount
    ensures op.Verify? ==> VerifyPrepared(m, op.uid, op.password, env).0.pairing == m.pairing
    ensures op.Confirm? ==> ConfirmPrepared(m, op.key, env).0.pairing == m.pairing
    ensures op.Recover? ==> RecoverPrepared(m, op.recoveryKey, op.replacement, env).0.pairing == m.pairing
  {
  }

  /** Only its expiry, its use, its fifth wrong code, a cancellation, a reset and
      an untrusted state drop a pairing. */
  lemma PairingDropsOnly(m: Machine, op: Op, env: Env)
    requires Status(m) && m.pairing.Some? && Perform(m, op, env).0.pairing.None?
    ensures var (t, r) := Perform(m, op, env);
            || !t.known
            || (env.first.boot.Some? && env.first.boot.value >= m.pairing.value.expiresBoot)
            || (r.Success? && (op.Consume? || op.CancelPending? || op.Reset?))
            || (op.Consume? && r == Failed(PairingAttemptsExhausted))
  {
    PrepareKeepsLive(m, env.first);
    var (m1, prepared) := Prepare(m, env.first);
    if op.Reset? {
      ResetKeepsLive(m, env);
    } else if prepared.Success? && m1.pairing.Some? {
      match op
      case Consume(code, password) => ConsumeKeepsLive(m1, code, password, env);
      case Verify(_, _) => OthersKeepLive(m1, op, env);
      case Confirm(_) => OthersKeepLive(m1, op, env);
      case Recover(_, _) => OthersKeepLive(m1, op, env);
      case _ => PairingOpKeepsLive(m, op, env);
    }
  }

  lemma ResetKeepsLive(m: Machine, env: Env)
    ensures var (t, r) := ResetEnrollment(m, env); r.Success? || !t.known || t.pairing == m.pairing
  {
  }

  lemma PairingOpKeepsLive(m: Machine, op: Op, env: Env)
    requires op.EnsurePending? || op.CancelPending? || op.GetPending? || op.GetEnrollment?
    ensures var (t, r) := Perform(m, op, env);
            t.pairing.Some? || Prepare(m, env.first).0.pairing.None? || (op.CancelPending? && r.Success?)
  {
  }

  // ----- The password over runs -----

  /** The password that a successful confirmation or recovery leaves: the one of
      the enrollment confirmed, or the one chosen now. */
  ghost function PasswordLeft(w: World, op: Op): string {
    if op.Recover? then op.replacement else if w.m.Now().Provisional? then w.m.Now().password else ""
  }

  ghost function KeyUsed(op: Op): string {
    if op.Recover? then op.recoveryKey else if op.Confirm? then op.key else ""
  }

  /** From a confirmation or recovery that succeeds until the account is
      disturbed, across restarts and power cuts, exactly the password left there
      opens it, whenever state, clock and hasher are there and the scope is not
      backed off. */
  lemma CommittedPasswordDecides(run: seq<World>, events: seq<Event>, i: nat, j: nat)
    requires IsRun(run, events) && i < j < |events|
    requires events[i].Operate? && (events[i].op.Confirm? || events[i].op.Recover?) && ReplyOf(run[i], events[i]).Success?
    requires forall k :: i < k < j ==>
               !Disturbs(events[k], Operator(PasswordLeft(run[i], events[i].op), KeyUsed(events[i].op)))
    requires events[j].Operate? && events[j].op.Verify?
    ensures ReplyOf(run[j], events[j]).Success? <==>
            && events[j].op.password == PasswordLeft(run[i], events[i].op)
            && ByteLength(events[j].op.password) <= PASSWORD_MAX_BYTES
            && run[j].m.known && events[j].env.first.boot.Some?
            && Checked(run[j].m, Password(events[j].op.uid), events[j].env)
  {
    RunKeepsInv(run, events, i);
    assert Enabled(run[i], events[i]) && Enabled(run[j], events[j]);
    SuccessIsDurable(run[i], events[i].op, events[i].env);
    AccountPersists(run, events, i + 1, j, Operator(PasswordLeft(run[i], events[i].op), KeyUsed(events[i].op)));
    VerifyDecides(run[j].m, events[j].op.uid, events[j].op.password, events[j].env);
  }
}
