/** `Core` of authd/src/machine.rs over its store: hashes on disk, a copy of the
    state in memory. Every operation refines the machine with plain secrets. */
module AuthCore {
  import opened Durable
  import opened Prelude
  import opened Codes
  import opened AuthStore
  import opened AuthSpec

  /** The account that a state file's content stands for. */
  function AccountIn(content: Content): Account {
    match Load(content)
    case Err => Unloadable
    case Ok(Unenrolled) => NoAccount
    case Ok(EnrolledUnconfirmed(p, k, deadline)) =>
      if p.Phc? && k.Phc? then Provisional(p.secret, k.secret, deadline) else Unloadable
    case Ok(Enrolled(p, k)) => if p.Phc? && k.Phc? then Operator(p.secret, k.secret) else Unloadable
  }

  function AccountsOn(disk: Disk<Content>): Disk<Account> {
    Disk(AccountIn(disk.base), seq(|disk.unsynced|, i requires 0 <= i < |disk.unsynced| => AccountIn(disk.unsynced[i])))
  }

  lemma AccountsOnRewritten(disk: Disk<Content>, content: Content, effect: Effect)
    ensures AccountsOn(Rewritten(disk, content, effect)) == Rewritten(AccountsOn(disk), AccountIn(content), effect)
    ensures AccountsOn(disk).Visible() == AccountIn(disk.Visible())
  {
    assert AccountsOn(disk.Renamed(content)) == AccountsOn(disk).Renamed(AccountIn(content));
  }

  /** A power cut leaves the accounts of the contents that it leaves. */
  lemma AccountsOnAfterCut(disk: Disk<Content>, kept: nat)
    requires kept <= |disk.unsynced|
    ensures AccountsOn(disk.AfterCut(kept)) == AccountsOn(disk).AfterCut(kept)
  {
  }

  class Core {
    const store: Store
    var persisted: Option<Persisted>
    var pairing: Option<Pairing>
    var expiredProvisional: bool
    var backoff: map<Scope, Counter>

    /** A known state in memory is what `load` would return from disk. */
    ghost predicate Valid()
      reads this, store
    {
      persisted.Some? ==> Load(store.disk.Visible()) == Ok(persisted.value)
    }

    ghost function Abs(): Machine
      reads this, store
    {
      Machine(persisted.Some?, AccountsOn(store.disk), store.temporary, pairing, expiredProvisional, backoff)
    }

    /** What the copy in memory says is what the account on disk is. */
    lemma Known()
      requires Valid() && persisted.Some?
      ensures HasValidHashes(persisted.value) && Abs().Now() == AccountIn(store.disk.Visible())
      ensures persisted.value == Unenrolled <==> Abs().Now() == NoAccount
      ensures persisted.value.EnrolledUnconfirmed? ==>
                Abs().Now() == Provisional(persisted.value.passwordHash.secret, persisted.value.recoveryKeyHash.secret,
                                           persisted.value.confirmationDeadline)
      ensures persisted.value.Enrolled? ==>
                Abs().Now() == Operator(persisted.value.passwordHash.secret, persisted.value.recoveryKeyHash.secret)
    {
      LoadedHashesAreValid(store.disk.Visible());
      AccountsOnRewritten(store.disk, Missing, Effect(FailedBeforeRename, false, false));
    }

    /** machine.rs `open`. */
    constructor (store: Store, removeFails: bool, readFails: bool, look: Look)
      modifies store
      ensures Valid() && this.store == store
      ensures Abs() == Open(AccountsOn(old(store.disk)), old(store.temporary), removeFails, readFails, look)
    {
      this.store := store;
      persisted, pairing, expiredProvisional, backoff := None, None, false, map[];
      new;
      var removed := store.RemoveStaleTemporary(removeFails);
      if removed && !readFails {
        match Load(store.disk.Visible())
        case Ok(state) => persisted := Some(state);
        case Err =>
      }
      AccountsOnRewritten(store.disk, Missing, Effect(FailedBeforeRename, false, false));
      LoadedHashesAreValid(store.disk.Visible());
      var _ := PrepareNow(look);
    }

    /** machine.rs `commit`. */
    method CommitState(state: Persisted, faults: Faults) returns (r: Reply<()>)
      requires Valid() && HasValidHashes(state)
      modifies this, store
      ensures Valid() && (Abs(), r) == Commit(old(Abs()), AccountIn(ToFile(state)), faults)
    {
      AccountsOnRewritten(store.disk, ToFile(state), WriteEffect(faults, store.temporary));
      LoadsWhatWasEncoded(state);
      var written := store.Write(state, faults);
      match written
      case Done =>
        persisted := Some(state);
        return Success(());
      case FailedBeforeRename =>
        return Failed(Unavailable);
      case FailedAfterRename =>
        persisted, pairing := None, None;
        return Failed(Unavailable);
      case Halted =>
        // The process is gone; nothing of its memory remains.
        persisted, pairing := None, None;
        return Stopped;
    }

    /** machine.rs `prepare`. */
    method PrepareNow(look: Look) returns (r: Reply<()>)
      requires Valid()
      modifies this, store
      ensures Valid() && (Abs(), r) == Prepare(old(Abs()), look)
      ensures r.Success? ==> persisted.Some?
    {
      if persisted.None? || look.boot.None? {
        return Failed(Unavailable);
      }
      Known();
      if pairing.Some? && look.boot.value >= pairing.value.expiresBoot {
        pairing := None;
      }
      if persisted.value.EnrolledUnconfirmed? && DeadlineExpired(persisted.value.confirmationDeadline, look.wall) {
        r := CommitState(Unenrolled, look.faults);
        if !r.Success? {
          return;
        }
        expiredProvisional := true;
      }
      return Success(());
    }

    /** machine.rs `check_backoff`. */
    method BackoffOver(scope: Scope, boot: Option<nat>) returns (r: Reply<()>)
      ensures r == CheckBackoff(Abs(), scope, boot)
    {
      if scope !in backoff {
        return Success(());
      }
      var until := backoff[scope].lastFailure + BackoffDelay(backoff[scope].failures);
      if boot.None? {
        return Failed(Unavailable);
      }
      if boot.value < until {
        return Failed(RateLimited);
      }
      return Success(());
    }

    /** machine.rs `record_failure`, then the credential error. */
    method RefuseCredential(scope: Scope, boot: Option<nat>) returns (r: Reply<()>)
      modifies this`backoff
      ensures (Abs(), r) == Refuse(old(Abs()), scope, boot)
    {
      var counter := if scope in backoff then backoff[scope] else Counter(0, 0);
      counter := counter.(failures := if counter.failures < MAX_FAILURES then counter.failures + 1 else MAX_FAILURES);
      if boot.None? {
        backoff := backoff[scope := counter];
        return Failed(Unavailable);
      }
      backoff := backoff[scope := counter.(lastFailure := boot.value)];
      return Failed(InvalidCredential);
    }

    method Verify(uid: nat, password: string, env: Env) returns (r: Reply<()>)
      requires Valid()
      modifies this, store
      ensures Valid() && (Abs(), r) == VerifyPassword(old(Abs()), uid, password, env)
    {
      r := PrepareNow(env.first);
      if !r.Success? {
        return;
      }
      Known();
      if ByteLength(password) > PASSWORD_MAX_BYTES {
        return Failed(InvalidArgument);
      }
      if persisted.value.EnrolledUnconfirmed? {
        return Failed(EnrollmentUnconfirmed);
      }
      if !persisted.value.Enrolled? {
        return Failed(NotEnrolled);
      }
      var hash := persisted.value.passwordHash;
      r := BackoffOver(Password(uid), env.checkBoot);
      if !r.Success? {
        return;
      }
      if env.verifyFails {
        return Failed(Unavailable);
      }
      if password == hash.secret {
        backoff := backoff - {Password(uid)};
        return Success(());
      }
      r := RefuseCredential(Password(uid), env.recordBoot);
    }

    method Consume(code: string, password: string, env: Env) returns (r: Reply<string>)
      requires Valid()
      modifies this, store
      ensures Valid() && (Abs(), r) == ConsumePairing(old(Abs()), code, password, env)
    {
      var prepared := PrepareNow(env.first);
      if !prepared.Success? {
        return prepared.As();
      }
      Known();
      if ByteLength(password) > PASSWORD_MAX_BYTES || ByteLength(code) > CODE_MAX_BYTES {
        return Failed(InvalidArgument);
      }
      var submitted := ParsePairingCode(code);
      if submitted.None? {
        return Failed(InvalidArgument);
      }
      if persisted.value.Enrolled? {
        return Failed(AlreadyEnrolled);
      }
      if persisted.value.EnrolledUnconfirmed? {
        return Failed(EnrollmentUnconfirmed);
      }
      if pairing.None? {
        return Failed(NoPendingPairing);
      }
      if submitted.value != pairing.value.code {
        pairing := Some(pairing.value.(wrongAttempts := pairing.value.wrongAttempts + 1));
        if pairing.value.wrongAttempts >= PAIRING_ATTEMPTS {
          pairing := None;
          return Failed(PairingAttemptsExhausted);
        }
        return Failed(InvalidPairingCode);
      }
      r := EnrollWith(pairing.value.code, password, env);
    }

    method EnrollWith(code: Code, password: string, env: Env) returns (r: Reply<string>)
      requires Valid()
      modifies this, store
      ensures Valid() && (Abs(), r) == Enroll(old(Abs()), code, password, env)
    {
      if |password| < PASSWORD_MIN_CODE_POINTS || ParsePairingCode(password) == Some(code) {
        return Failed(PasswordRejected);
      }
      if env.key.None? {
        return Failed(Unavailable);
      }
      if PasswordEqualsKey(password, env.key.value) {
        return Failed(PasswordRejected);
      }
      var encodedKey := EncodeRecoveryKey(env.key.value);
      if env.passwordSalt.None? || env.keySalt.None? {
        return Failed(Unavailable);
      }
      var state := EnrolledUnconfirmed(Phc(password, env.passwordSalt.value), Phc(encodedKey, env.keySalt.value),
                                       env.wall + CONFIRMATION_WINDOW);
      LoadsWhatWasEncoded(state);
      var committed := CommitState(state, env.faults);
      if !committed.Success? {
        return committed.As();
      }
      pairing, expiredProvisional := None, false;
      return Success(encodedKey);
    }

    method Confirm(key: string, env: Env) returns (r: Reply<()>)
      requires Valid()
      modifies this, store
      ensures Valid() && (Abs(), r) == ConfirmRecoveryKey(old(Abs()), key, env)
    {
      r := PrepareNow(env.first);
      if !r.Success? {
        return;
      }
      Known();
      if !WellFormedKey(key) {
        return Failed(InvalidArgument);
      }
      if !persisted.value.EnrolledUnconfirmed? {
        return Failed(if expiredProvisional then ConfirmationExpired else NoProvisionalEnrollment);
      }
      var passwordHash, keyHash := persisted.value.passwordHash, persisted.value.recoveryKeyHash;
      r := BackoffOver(Confirmation, env.checkBoot);
      if !r.Success? {
        return;
      }
      if env.verifyFails {
        return Failed(Unavailable);
      }
      r := FinalizeWith(passwordHash, keyHash, key, env);
    }

    method FinalizeWith(passwordHash: Phc, keyHash: Phc, key: string, env: Env) returns (r: Reply<()>)
      requires Valid() && passwordHash.Phc? && keyHash.Phc?
      modifies this, store
      ensures Valid() && (Abs(), r) == Finalize(old(Abs()), passwordHash.secret, keyHash.secret, key, env)
    {
      var matches := key == keyHash.secret;
      r := PrepareNow(env.second);
      if !r.Success? {
        return;
      }
      Known();
      if expiredProvisional && !persisted.value.EnrolledUnconfirmed? {
        return Failed(ConfirmationExpired);
      }
      if !matches {
        r := RefuseCredential(Confirmation, env.recordBoot);
        return;
      }
      LoadsWhatWasEncoded(Enrolled(passwordHash, keyHash));
      r := CommitState(Enrolled(passwordHash, keyHash), env.faults);
      if r.Success? {
        backoff := backoff - {Confirmation};
      }
    }

    method Recover(key: string, password: string, env: Env) returns (r: Reply<()>)
      requires Valid()
      modifies this, store
      ensures Valid() && (Abs(), r) == RecoverPassword(old(Abs()), key, password, env)
    {
      r := PrepareNow(env.first);
      if !r.Success? {
        return;
      }
      Known();
      if !WellFormedKey(key) || ByteLength(password) > PASSWORD_MAX_BYTES {
        return Failed(InvalidArgument);
      }
      if persisted.value.EnrolledUnconfirmed? {
        return Failed(EnrollmentUnconfirmed);
      }
      if !persisted.value.Enrolled? {
        return Failed(NotEnrolled);
      }
      var keyHash := persisted.value.recoveryKeyHash;
      r := BackoffOver(Recovery, env.checkBoot);
      if !r.Success? {
        return;
      }
      if env.verifyFails {
        return Failed(Unavailable);
      }
      if key != keyHash.secret {
        r := RefuseCredential(Recovery, env.recordBoot);
        return;
      }
      backoff := backoff - {Recovery};
      r := ReplacePassword(keyHash, ParseRecoveryKey(key).value, password, env);
    }

    method ReplacePassword(keyHash: Phc, key: Key, password: string, env: Env) returns (r: Reply<()>)
      requires Valid() && persisted.Some? && persisted.value.Enrolled? && keyHash == persisted.value.recoveryKeyHash
      requires Abs().Now().Operator?
      modifies this, store
      ensures Valid() && (Abs(), r) == Replace(old(Abs()), key, password, env)
    {
      Known();
      if |password| < PASSWORD_MIN_CODE_POINTS || PasswordEqualsKey(password, key) {
        return Failed(PasswordRejected);
      }
      if env.passwordSalt.None? {
        return Failed(Unavailable);
      }
      var state := Enrolled(Phc(password, env.passwordSalt.value), keyHash);
      LoadsWhatWasEncoded(state);
      r := CommitState(state, env.faults);
    }

    method EnsurePending(env: Env) returns (r: Reply<()>)
      requires Valid()
      modifies this, store
      ensures Valid() && (Abs(), r) == EnsurePendingPairing(old(Abs()), env)
    {
      r := PrepareNow(env.first);
      if !r.Success? {
        return;
      }
      Known();
      if persisted != Some(Unenrolled) || pairing.Some? {
        return Success(());
      }
      if env.boot.None? || env.code.None? {
        return Failed(Unavailable);
      }
      pairing := Some(Pairing(env.code.value, env.boot.value + PAIRING_LIFETIME, env.wall + PAIRING_LIFETIME, 0));
      expiredProvisional := false;
    }

    method CancelPending(env: Env) returns (r: Reply<()>)
      requires Valid()
      modifies this, store
      ensures Valid() && (Abs(), r) == CancelPendingPairing(old(Abs()), env)
    {
      r := PrepareNow(env.first);
      if r.Success? {
        pairing := None;
      }
    }

    method Reset(env: Env) returns (r: Reply<()>)
      requires Valid()
      modifies this, store
      ensures Valid() && (Abs(), r) == ResetEnrollment(old(Abs()), env)
    {
      LoadsWhatWasEncoded(Unenrolled);
      r := CommitState(Unenrolled, env.faults);
      if r.Success? {
        pairing, expiredProvisional, backoff := None, false, map[];
      }
    }

    method GetPending(env: Env) returns (r: Reply<(bool, string, nat)>)
      requires Valid()
      modifies this, store
      ensures Valid() && (Abs(), r) == GetPendingPairing(old(Abs()), env)
    {
      var prepared := PrepareNow(env.first);
      if !prepared.Success? {
        return prepared.As();
      }
      if pairing.None? {
        return Success((false, "", 0));
      }
      return Success((true, EncodePairingCode(pairing.value.code), pairing.value.expiresAt));
    }

    method GetEnrollment(env: Env) returns (r: Reply<(bool, bool)>)
      requires Valid()
      modifies this, store
      ensures Valid() && (Abs(), r) == GetEnrollmentState(old(Abs()), env)
    {
      var prepared := PrepareNow(env.first);
      if !prepared.Success? {
        return prepared.As();
      }
      Known();
      return Success((persisted.value.Enrolled?, pairing.Some?));
    }
  }
}
