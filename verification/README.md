# SignalLayer CoreOS: verified models

This project models the stateful protocols of SignalLayer CoreOS and proves what
they are for. Each component has a specification (functions on values), methods
that take the steps of the code and are proved against it, and theorems about
every run of the specification, with failures, crashes and restarts anywhere.

- **Authentication** (`authd`). `AuthStore` writes a state file in steps that can
  fail or stop at five points. `AuthCore.Core` is the machine over hashes, a copy
  in memory and that file; it refines `AuthSpec`, a machine with plain secrets.
  `AuthRuns` gives its steps, `AuthTheorems` what every run guarantees,
  `AuthReplies` which reply each operation gives for every state and input, and
  `AuthService` drives `Core`s over one store through whole histories, with
  restarts and power cuts. The hash is ideal: a produced string carries its
  secret, and nothing else is a valid hash.
- **Codes** (`authd/src/codes.rs`). Crockford base 32 by streaming loops over a
  16-bit buffer, against the bit string they stand for, and in `CodeNumbers`
  against the integer.
- **Identity provisioning** (`management-lifecycle`). `AccountText` and
  `AccountTables` parse and validate the six account files down to the
  characters, `IdentityPlan` chooses an identity, `IdentityAppend` proves that the
  appended records are accepted again, and `IdentityProvision` is the write-ahead
  transaction with its recovery.
- **Remote-management state** (`remote-worker`, `crates/remote-state`,
  `platformd/src/remote.rs`). `RemoteState` describes the worker on a directory
  whose changes form one ordered log, of which a power cut keeps a prefix.
  `RemoteTheorems` and `RemoteRuns` prove what every prefix keeps, `RemoteWorker`
  is the worker step by step, `RemotePlatform` the sequences above it.
- **Listener eligibility** (`remoted`). `Controller` is a transition system in
  which each effect of the controller, each accept and each connection check is
  one step, with timers and notifications; `ControllerCode` is the code run at one
  go, proved to be what the single steps amount to. `Network` (over `Words`) is the
  on-link test.
- **Single-flight reads** (`platformd/src/shared_read.rs`). `SharedRead`.

`Prelude` and `Durable` hold what several modules share.

Three results are about where the code falls short, each with the exact
condition under which it does not:

- An account file that grows beyond 4 MiB by its own record can never be read
  again, so the transaction that appended it can never finish. A retry succeeds
  exactly if no final file is larger than that (`IdentityProvision.RetrySucceeds`,
  `IdentityProvision.BrimfulIsStuck`).
- A `reset-pending` marker whose directory sync has failed is found by the next
  boot reset and taken as it is. If `current` is absent, nothing syncs it before
  the enrollment is reset, and a power cut then loses the marker with the
  generations still there (`RemoteRuns.UnsyncedMarkerIsLost`). A resumed reset
  keeps its promise exactly if there is a link to remove, or no state that a power
  cut could leave shows an identity without the marker
  (`RemoteRuns.BootResetKeepsPending`). After a power cut, and for a reset that
  begins with its marker, it always does (`RemoteRuns.ResumedAfterPowerCut`,
  `RemoteRuns.BootResetIsDurable`).
- After a failed directory sync and a restart of the process, a power cut may bring
  back the account from before that write, because starting up does not sync
  (`AuthTheorems.UnsyncedResetIsLost`). Every crash gives the old account or the new
  one exactly if all accounts on disk agree (`AuthTheorems.CrashGivesOldOrNew`),
  and they do while the state is known since a start on a synced disk without such
  a restart (`AuthTheorems.KnownMeansSynced`). A reported success needs no
  condition (`AuthTheorems.SuccessSurvivesCrash`).

## Model

| member | source | states |
|---|---|---|
| Codes.Encode | authd/src/codes.rs:20-37 | The loop over a 16-bit buffer yields the 5-bit groups of the bytes' bit string, zero-padded at the end, for every length with its exact symbol count; no live bit is lost. |
| Codes.Decode | authd/src/codes.rs:39-63 | The loop accepts exactly the texts of alphabet symbols with the exact count and zero padding, and yields the 8-bit groups of their bit string. |
| Codes.RoundTrip | authd/src/codes.rs:1-4 | Decoding an encoding gives the bytes back, for all lengths. |
| Codes.Canonical | authd/src/codes.rs:1-4 | Every accepted text is the encoding of what it decodes to, so encodings are unique. |
| Codes.EncodedStream | authd/src/codes.rs:20-37 | An encoding's symbols spell the big-endian bits of the bytes followed by zeros. |
| Codes.DecodedStream | authd/src/codes.rs:39-63 | The bytes decoded and their padding are the bits that the symbols spell. |
| Codes.PushBits | authd/src/codes.rs:26-27 | Shifting bits into the buffer keeps all live bits, whatever the register drops. |
| Codes.TakeBits | authd/src/codes.rs:28-31 | Shifting and masking takes the oldest live bits and leaves the rest. |
| Codes.SymbolsAreTheAlphabet | authd/src/codes.rs:6-18 | Symbols and their values are Crockford's alphabet in order. |
| CodeNumbers.EncodedNumber | authd/src/codes.rs:20-37 | The symbols are the base-32 digits of the big-endian integer times 2 to the padding, for all lengths. |
| CodeNumbers.DecodedNumber | authd/src/codes.rs:39-63 | An accepted text writes in base 32 the integer that its bytes write in base 256, times 2 to the padding. |
| Codes.RecoveryKeySpelling | authd/src/codes.rs:85-92 | A recovery key has exactly one accepted spelling. |
| Codes.PairingCodeSpelling | authd/src/codes.rs:69-79 | A pairing code is accepted exactly in any letter case, with or without its hyphen in the middle. |
| AuthStore.LoadsWhatWasEncoded | authd/src/store.rs:100-174 | A written state reads back exactly if its hashes are valid. |
| AuthStore.LoadedHashesAreValid | authd/src/store.rs:108-139 | Only states with valid hashes are loaded. |
| AuthStore.LoadsExactly | authd/src/store.rs:100-139 | A file loads as a state exactly if it is what writing that state gives and its hashes are valid; an absent file is the state with nobody enrolled. |
| AuthStore.Store.RemoveStaleTemporary | authd/src/store.rs:91-97 | A stale temporary is gone unless its removal fails. |
| AuthStore.Store.WriteTemporary | authd/src/store.rs:198-209 | Creates exclusively, writes and syncs, and reports the first step that fails or stops. |
| AuthStore.Store.Write | authd/src/store.rs:144-196 | For any faults, the disk is unchanged before the rename, shows the new state after it, and holds it durably after the directory sync; a later failure is reported as after the rename. |
| AuthCore.Core.constructor | authd/src/machine.rs:140-162 | Opening refines the plain machine's start: stale temporary, load, expiry check, no pairing. |
| AuthCore.Core.CommitState | authd/src/machine.rs:164-178 | Keeps memory equal to what loading the file would give; a failure after the rename makes the state unknown. |
| AuthCore.Core.PrepareNow | authd/src/machine.rs:182-205 | Refines the expiry check on both clocks. |
| AuthCore.Core.BackoffOver | authd/src/machine.rs:211-222 | Refines the backoff check. |
| AuthCore.Core.RefuseCredential | authd/src/machine.rs:226-232 | Refines the counting of a failure, even with an unreadable clock. |
| AuthCore.Core.Verify | authd/src/machine.rs:284-303 | Refines the check of a plain password. |
| AuthCore.Core.Consume | authd/src/machine.rs:305-328 | Refines the use of a pairing code, with its attempt count. |
| AuthCore.Core.EnrollWith | authd/src/machine.rs:329-354 | Refines the rest of an enrollment, after the code has matched. |
| AuthCore.Core.Confirm | authd/src/machine.rs:356-370 | Refines the confirmation up to the hash. |
| AuthCore.Core.FinalizeWith | authd/src/machine.rs:371-388 | Refines the second expiry check and the commit after the hash. |
| AuthCore.Core.Recover | authd/src/machine.rs:390-411 | Refines the check of the recovery key. |
| AuthCore.Core.ReplacePassword | authd/src/machine.rs:412-422 | Refines the replacement of the password under the same key. |
| AuthCore.Core.EnsurePending | authd/src/machine.rs:424-439 | Refines the creation of a pairing, if none is pending. |
| AuthCore.Core.CancelPending | authd/src/machine.rs:441-445 | Refines the removal of a pairing. |
| AuthCore.Core.Reset | authd/src/machine.rs:447-457 | Refines the reset from any state, clearing pairing and counters only after its commit. |
| AuthCore.Core.GetPending | authd/src/machine.rs:459-469 | Refines the report of a pairing. |
| AuthCore.Core.GetEnrollment | authd/src/machine.rs:471-477 | Refines the report of the enrollment. |
| AuthService.Serve | authd/src/machine.rs:284-477 | Any script of operations on one Core, from its start until it stops, gives the replies and the state of the plain machine. |
| AuthService.Live | authd/src/machine.rs:137-477 | Every history over one store, of operations with any faults, restarts and power cuts in any order, goes through the states of the plain world and gives its replies. |
| AuthService.HistoryIsRun | authd/src/machine.rs:137-477 | Such a history with a sound start is a run, so that all theorems about runs hold of it. |
| AuthCore.AccountsOnAfterCut | authd/src/store.rs:185-195 | What a power cut leaves of the hashed contents stands for what it leaves of the plain accounts. |
| AuthRuns.OpWrites | authd/src/machine.rs:164-457 | Every operation writes at most one account, one that it is entitled to write; success of a mutating operation means that it is durable. |
| AuthRuns.LegalIsSound | authd/src/machine.rs:273-282 | What an operation may write has a password of at least 12 code points that is no letter-case variant of its recovery key. |
| AuthRuns.NextKeepsInv | authd/src/machine.rs:140-457 | Operations, restarts and power cuts keep all accounts on disk sound, and a pairing implies a known Unenrolled state with at most four wrong attempts. |
| AuthTheorems.RunKeepsInv | authd/src/machine.rs:140-457 | The same for every state of every run. |
| AuthTheorems.Origin | authd/src/machine.rs:164-457 | Every account that a run's disk may show was there before or was written by an operation entitled to it. |
| AuthTheorems.EnrollmentHistory | authd/src/machine.rs:305-388 | From an empty disk, an enrolled account stems from a redeemed pairing code and a confirmation with its key, whose wall readings lie within 600 s of the one at that commit, for arbitrary clock jumps. |
| AuthTheorems.EnrolledOnlyByConfirm | authd/src/machine.rs:356-388 | An account becomes enrolled only by a confirmation with the matching key inside its window, or by a power cut that loses unsynced renames. |
| AuthTheorems.AccountPersists | authd/src/machine.rs:284-477 | A durable enrolled account survives all operations, failures, restarts and power cuts until a reset or a recovery with its own key. |
| AuthTheorems.KeyUntilReset | authd/src/machine.rs:390-457 | While every account that the disk may show is enrolled under one key, this stays so until a reset, through failed syncs, restarts and power cuts at any point, and every password there was there before or was chosen with that key. |
| AuthTheorems.PasswordIsLastChosen | authd/src/machine.rs:390-422 | Without a reset and without a power cut that loses a rename, the visible password is the one last chosen. |
| AuthTheorems.SuccessIsDurable | authd/src/machine.rs:305-457 | A success has its account on disk, synced: the password submitted, the key returned, the deadline 600 s after the commit. |
| AuthTheorems.CrashGivesOldOrNew | authd/src/machine.rs:140-205 | For all operations, inputs and crashes, reopening gives the old account or one that the operation was entitled to write, then the expiry check, exactly if all accounts on disk agree before it. |
| AuthTheorems.KnownMeansSynced | authd/src/machine.rs:164-178 | Since a start on a synced disk, without a restart of the process alone, a known state has no unsynced rename and all accounts on disk agree. |
| AuthTheorems.SuccessSurvivesCrash | authd/src/machine.rs:164-178 | After a reported success every restart or power cut finds the account that it has put in place, or nothing if that has lapsed. |
| AuthTheorems.UnsyncedResetIsLost | authd/src/machine.rs:140-178 | A concrete run: a reset whose directory sync fails, a restart that reports nobody enrolled, a power cut, and the account is back. |
| AuthTheorems.ReopenSettles | authd/src/machine.rs:140-162 | Reopening shows what the disk holds, or nothing in place of a lapsed enrollment. |
| AuthTheorems.UnknownRefuses | authd/src/machine.rs:182-187 | In an unknown state everything but a reset is refused and changes nothing. |
| AuthTheorems.UnsyncedIsUntrusted | authd/src/machine.rs:169-177 | A rename that no directory sync follows leaves the state unknown and is never reported as a success. |
| AuthTheorems.PairingHistory | authd/src/machine.rs:305-354 | A pending pairing was created by one step, keeps code and expiry, has seen at most four wrong codes, all counted, and implies Unenrolled. |
| AuthTheorems.EnrollmentUsesPairing | authd/src/machine.rs:305-354 | A committed enrollment used the pending pairing's own code before boot time reached its creation plus 600 s, after at most four wrong codes, and used it up. |
| AuthTheorems.OneEnrollmentPerPairing | authd/src/machine.rs:305-439 | In every run there are at most as many committed enrollments as pairings created, one fewer while one is pending. |
| AuthTheorems.BackoffStep | authd/src/machine.rs:211-236 | A scope's counter changes only by its own failed attempts, each after its delay, until its secret is presented or a reset. |
| AuthTheorems.FailuresAreSpaced | authd/src/machine.rs:125-135 | Between failures that follow each other lies at least the delay of the count so far. |
| AuthTheorems.RateBound | authd/src/machine.rs:125-232 | n failed attempts, n at least 15, span at least 1023 + 900 (n - 15) seconds. |
| AuthReplies.WriteEffectDecides | authd/src/store.rs:144-209 | A write is done exactly if all five steps pass and no temporary is in its way, and has renamed exactly if the first four do; a failure after the rename is a failed directory sync. |
| AuthReplies.DeadlineWindow | authd/src/machine.rs:121-123 | An enrollment is confirmable exactly in the 600 s before its deadline. |
| AuthReplies.PrepareDecides | authd/src/machine.rs:182-205 | An expiry check succeeds exactly if the state is known, the boot clock can be read and a lapsed enrollment can be discarded; it then shows nothing in its place, and the pairing exactly while it is live. |
| AuthReplies.VerifyDecides | authd/src/machine.rs:284-303 | Every reply of a password check, each exactly under a condition on state and inputs: nothing but clocks, hasher, disk and an unknown state makes it unavailable, and otherwise exactly the right password of an enrolled account that is not backed off succeeds, and clears its failures. |
| AuthReplies.ConsumeDecides | authd/src/machine.rs:305-354 | Every reply of a redemption, in the same way: success exactly for the live pairing's code and an acceptable password with randomness and disk working; the fifth wrong code ends the pairing. |
| AuthReplies.PasswordEqualsKeyDecides | authd/src/machine.rs:273-275 | A password is refused as the recovery key exactly if it spells it in some letter case. |
| AuthReplies.WellFormedKeyDecides | authd/src/machine.rs:356-362 | A recovery key is well formed exactly if it is the encoding of some 16 bytes. |
| AuthReplies.ConfirmDecides | authd/src/machine.rs:356-388 | Every reply of a confirmation, in the same way: success exactly for the key inside the window at both readings, not backed off, with the disk working. |
| AuthReplies.RecoverDecides | authd/src/machine.rs:390-422 | Every reply of a recovery, in the same way; the right key clears its failures even if the password is then refused. |
| AuthReplies.EnsurePendingDecides | authd/src/machine.rs:424-439 | Success leaves a pairing exactly for an unenrolled machine: the live one, or a new one of 600 s without attempts. |
| AuthReplies.CancelPendingDecides | authd/src/machine.rs:441-445 | A cancellation succeeds exactly if the expiry check does, and leaves no pairing. |
| AuthReplies.ResetDecides | authd/src/machine.rs:447-457 | A reset succeeds from every state exactly if its write does, and leaves nothing. |
| AuthReplies.GetPendingDecides | authd/src/machine.rs:459-469 | Reports the encoded code and the wall expiry exactly of a live pairing. |
| AuthReplies.GetEnrollmentDecides | authd/src/machine.rs:471-477 | Reports enrolled exactly for a confirmed account, and pending exactly for a live pairing. |
| AuthReplies.ConfirmExpired | authd/src/machine.rs:356-388 | A confirmation remembers that its enrollment has expired exactly if that was so before, or one of its two looks has found it so. |
| AuthReplies.OpenDecides | authd/src/machine.rs:140-162 | A start knows the account on disk if the temporary could be removed and the file loaded, and discards a lapsed enrollment. |
| AuthReplies.PairingDropsOnly | authd/src/machine.rs:182-457 | Only expiry, use, the fifth wrong code, a cancellation, a reset or an untrusted state drops a pairing. |
| AuthReplies.CommittedPasswordDecides | authd/src/machine.rs:284-422 | From a successful confirmation or recovery until the account is disturbed, across restarts and power cuts, exactly the password left there opens it, whenever state, clock and hasher are there and the scope is not backed off. |
| AccountText.LinesAppend | management-lifecycle/identity.py:60 | Splitting into lines is additive after a complete line. |
| AccountText.SplitJoin | management-lifecycle/identity.py:63 | Fields without separators are recovered from their row. |
| AccountText.NumberOfDecimal | management-lifecycle/identity.py:40-43 | Every identity number that is written reads back. |
| AccountText.NumberDecides | management-lifecycle/identity.py:40-43 | Exactly the decimal spellings of 0 to 2^32-2 without leading zeros are numbers. |
| AccountText.AccountDecides | management-lifecycle/identity.py:33 | A name is accepted exactly if it is a letter or underscore, then any of the allowed characters, then perhaps a dollar sign. |
| AccountTables.ReadTable | management-lifecycle/identity.py:50-67 | The loop over lines and a dictionary computes the table, or refuses. |
| AccountTables.TableHolds | management-lifecycle/identity.py:59-67 | A table holds exactly the rows of the lines that count, each under its own name. |
| AccountTables.TableAccepts | management-lifecycle/identity.py:59-67 | A file is accepted exactly if every line that counts is well formed and no two have the same name. |
| AccountTables.TableAppend | management-lifecycle/identity.py:50-67 | Appending a record with a new name adds exactly that row. |
| AccountTables.ReadExtents | management-lifecycle/identity.py:108-136 | The loop over subordinate-ID lines computes the extents, or refuses. |
| AccountTables.ExtentsAreApart | management-lifecycle/identity.py:125-137 | Accepted extents have known owners, stay in range and never meet. |
| AccountTables.OwnerDecides | management-lifecycle/identity.py:119-128 | A line's owner is the user with its number, or the user it names. |
| AccountTables.ExtentsHold | management-lifecycle/identity.py:108-136 | The extents are exactly those that the lines give, from start to start plus count minus one. |
| AccountTables.ExtentsAccept | management-lifecycle/identity.py:108-136 | A subordinate-ID file is accepted exactly if every line that counts gives a user an extent in range, no user two, and no two extents meet. |
| AccountTables.FilesAccept | management-lifecycle/identity.py:50-136 | An account file is accepted exactly if it is UTF-8 (or ASCII) text of whole lines, without carriage returns and zeros, with good rows or extents. |
| AccountTables.MoreUsers | management-lifecycle/identity.py:119-128 | Further users change nothing in accepted extents, numeric owners included. |
| AccountTables.ExtentsAppend | management-lifecycle/identity.py:108-136 | Appending a record with a new owner and a free extent adds exactly that extent. |
| IdentityPlan.FindExtent | management-lifecycle/identity.py:179-189 | One pass over the sorted ranges, jumping over whole extents, finds what the search through all aligned starts finds. |
| IdentityPlan.ExtentIsLeast | management-lifecycle/identity.py:179-189 | That is the least 65536-aligned start at or above 100000 whose block meets nothing taken; it fails exactly if no such block ends at or below 2^32-2. |
| IdentityPlan.LargestId | management-lifecycle/identity.py:199-202 | The system ID is the greatest of 100 to 999 that is free, and is found exactly if one is. |
| IdentityPlan.PlanIsFree | management-lifecycle/identity.py:192-204 | A plan is a valid identity that meets no ID, extent or name of the snapshot. |
| IdentityPlan.PlanDecides | management-lifecycle/identity.py:179-204 | The plan is exactly the greatest number of 100 to 999 that no user, group or extent has, and the first 65536-aligned block from 131072 up that holds none of them, if the name is in no table. |
| IdentityPlan.VerifyMeans | management-lifecycle/identity.py:218-234 | The check accepts exactly the snapshots with the account in place: its rows with these numbers, home, shell and locked hashes, no group that lists it, and exactly its two extents. |
| IdentityAppend.AppendAccepted | management-lifecycle/identity.py:139-234 | For every accepted snapshot and its plan, the files with the records appended are accepted and verified again. |
| IdentityAppend.EarlierRowsStay | management-lifecycle/identity.py:207-215 | In every table exactly the new name is added and all earlier rows stay. |
| IdentityProvision.Store.Replace | management-lifecycle/identity.py:333-373 | Replaces a file as one step if it is readable and as expected, and otherwise nothing. |
| AccountTables.Validate | management-lifecycle/identity.py:139-176 | Reads the six tables one by one and accepts exactly the valid snapshots. |
| AccountTables.AcceptsExactly | management-lifecycle/identity.py:139-176 | A snapshot is accepted exactly if the four tables parse, numbers, primary groups, members and shadow fields are consistent, and both extent tables parse and hold no user or group; and it consists of these tables. |
| IdentityPlan.Choose | management-lifecycle/identity.py:192-204 | Searches the system IDs from above and the extents by jumps, and finds the planned identity. |
| IdentityProvision.Store.PlanFresh | management-lifecycle/identity.py:522-531 | Each check of a fresh transaction, its plan and the intent that it records. |
| IdentityProvision.Store.PlanResume | management-lifecycle/identity.py:539-553 | The loop over the recorded files decides what each one becomes, and the checks that follow. |
| IdentityProvision.Store.Start | management-lifecycle/identity.py:516-553 | Locks, policy, reads and the choice between a fresh, a recorded and a committed transaction. |
| IdentityProvision.Store.Provision | management-lifecycle/identity.py:516-563 | An attempt, with its checks and its loop over the files as statements, does what the specification says, cut anywhere. |
| IdentityProvision.RunKeepsPhase | management-lifecycle/identity.py:516-563 | In every run of attempts cut anywhere, each file is exactly its recorded content before or after, and a committed record means that all six are final. |
| IdentityProvision.AttemptGoesForward | management-lifecycle/identity.py:516-563 | Metadata only moves from absent to prepared to committed under one identity, and a final file stays final. |
| IdentityProvision.ProvisionedIsCommitted | management-lifecycle/identity.py:553-563 | An identity is returned only with the whole transaction in place. |
| IdentityProvision.ProvisionedIsInPlace | management-lifecycle/identity.py:516-563 | For every state, reachable or not, an attempt that returns an identity leaves readable files that parse with the account in place, and metadata committed to it. |
| IdentityProvision.CommittedDecides | management-lifecycle/identity.py:534-537 | Once committed, an attempt changes nothing, and returns the identity exactly if locks, policy and corroboration hold and the files still hold the account; files that have drifted are refused. |
| IdentityProvision.PreparedDecides | management-lifecycle/identity.py:538-563 | On every state with a recorded intent, an uncut attempt completes it exactly if each file is in one of its two recorded states and the final files can be read and hold the account; runtime state hinders only while a file is not final. |
| IdentityProvision.FreshDecides | management-lifecycle/identity.py:519-563 | Without metadata, an uncut attempt returns exactly the planned identity, if nothing is in its way and the final files can be read. |
| IdentityProvision.RetrySucceeds | management-lifecycle/identity.py:516-563 | From every reachable state one uninterrupted attempt finishes and returns the planned identity, exactly if every final file can still be read. |
| IdentityProvision.ChangesAreCorroborated | management-lifecycle/identity.py:516-563 | Nothing is written without locks, policy and the first corroboration; neither a fresh transaction nor a change of a file happens with runtime state; and nothing is committed without the last corroboration. |
| IdentityProvision.ConflictIsRefused | management-lifecycle/identity.py:540-549 | A file in neither recorded state is refused before any write. |
| IdentityProvision.BrimfulIsStuck | management-lifecycle/identity.py:286-301 | A group file of exactly 4 MiB, to which a record is appended, makes every later attempt fail. |
| RemoteState.GenerationName | crates/remote-state/src/lib.rs:16-32 | The name made of eight random bytes is a generation name and spells them in hexadecimal. |
| RemoteWorker.Worker.RunMode | remote-worker/src/worker.rs:187-213 | A run removes stale temporaries and then performs its mode, for any faults. |
| RemoteWorker.Worker.EnableRemote | remote-worker/src/worker.rs:215-232 | Refuses while pending, never replaces an identity, then creates the marker. |
| RemoteWorker.Worker.RotateIdentity | remote-worker/src/worker.rs:234-238 | Generates, swaps and cleans up. |
| RemoteWorker.Worker.ResetAtBoot | remote-worker/src/worker.rs:240-250 | Commits the marker, removes the link, resets the enrollment, removes the generations, clears the marker. |
| RemoteWorker.Worker.CreateMarkerFile | remote-worker/src/worker.rs:297-322 | Temporary, sync, rename, sync, and tidying after a failure; an existing marker is left. |
| RemoteWorker.Worker.RemoveMarkerFile | remote-worker/src/worker.rs:324-334 | Unlinks and syncs; an absent marker is left. |
| RemoteWorker.Worker.Generate | remote-worker/src/worker.rs:336-358 | Writes a complete generation or removes what it wrote. |
| RemoteWorker.Worker.FillDirectory | remote-worker/src/worker.rs:360-405 | The loop writes each file in turn, synced before the fingerprint and at the end. |
| RemoteWorker.Worker.Swap | remote-worker/src/worker.rs:407-421 | Links under a temporary name, renames and syncs. |
| RemoteWorker.Worker.Unlink | remote-worker/src/worker.rs:423-433 | Removes the link and syncs. |
| RemoteWorker.Worker.Cleanup | remote-worker/src/worker.rs:435-467 | The loop removes every generation but the referenced one, and syncs if it has removed any. |
| RemoteTheorems.CreateMarkerFollows | remote-worker/src/worker.rs:297-322 | Creating a marker changes nothing else at any step, and a new marker is durable on success. |
| RemoteTheorems.RemoveUnreferencedFollows | remote-worker/src/worker.rs:435-467 | The cleanup never touches the referenced generation, and leaves no other if it succeeds. |
| RemoteTheorems.GenerateFollows | remote-worker/src/worker.rs:336-405 | No step of generating touches the referenced generation or the link; on success the new one is complete and durable. |
| RemoteTheorems.SwapFollows | remote-worker/src/worker.rs:407-421 | The link names the old or the new generation at every step. |
| RemoteTheorems.BootResetFollows | remote-worker/src/worker.rs:240-250 | Once the marker is there it goes only where link and generations are gone and the enrollment was reset in this call. |
| RemoteRuns.IdentityIsSound | remote-worker/src/worker.rs:187-250 | At every point of every run of all modes, faults and power cuts, the link is absent or names a complete generation. |
| RemoteRuns.RotationReplaces | remote-worker/src/worker.rs:234-238 | A successful rotation leaves exactly the new complete generation, different from the previous one, durably; it succeeds if it meets no fault. |
| RemoteRuns.EnableDecides | remote-worker/src/worker.rs:215-232 | Without faults, enabling succeeds exactly if no reset is pending and there is no identity or a usable one; it leaves the marker, and the identity that was there or a new one. |
| RemoteRuns.DisableDecides | remote-worker/src/worker.rs:187-213 | Without faults, disabling always succeeds; nothing but the marker and temporaries goes, durably on success. |
| RemoteRuns.CreateMarkerTidies | remote-worker/src/worker.rs:297-322 | A marker that a single failure keeps from being created leaves no temporary. |
| RemoteRuns.SwapTidies | remote-worker/src/worker.rs:407-421 | Nor does a link that a single failure keeps from being replaced. |
| RemoteRuns.GenerateTidies | remote-worker/src/worker.rs:336-405 | A generation that a single failure keeps from being completed is removed again. |
| RemoteRuns.PendingOutlasts | remote-worker/src/worker.rs:187-197 | A durable reset marker outlasts enabling, disabling and rotating, however they end. |
| RemoteRuns.BootResetKeepsPending | remote-worker/src/worker.rs:240-250 | A resumed boot reset, stopped anywhere, that has reset the enrollment leaves the marker or a finished reset in every state that a power cut can leave, for all faults exactly if there is a link at its start, or no such state shows an identity without the marker. |
| RemoteRuns.BootResetFrom | remote-worker/src/worker.rs:240-250 | A resumed reset whose start is pending or done stays so, wherever it stops. |
| RemoteRuns.ResumedAfterPowerCut | remote-worker/src/worker.rs:240-250 | After a power cut a resumed reset keeps that promise whatever happened before. |
| RemoteRuns.BootResetIsDurable | remote-worker/src/worker.rs:240-250 | A reset that begins with its marker, stopped anywhere, has reset nothing, or leaves the marker or a finished reset in every state that a power cut can leave. |
| RemoteRuns.UnsyncedMarkerIsLost | remote-worker/src/worker.rs:299-322 | A concrete run in which a marker with a failed sync is lost after the enrollment was reset. |
| RemoteRuns.EnableWhilePending | remote-worker/src/worker.rs:215-220 | While a reset is pending, enabling fails and makes no identity and no marker. |
| RemoteRuns.BootResetFinishes | remote-worker/src/worker.rs:240-250 | From every state an uninterrupted boot reset ends with nothing left and no marker. |
| RemotePlatform.Lifecycle.Enable | platformd/src/remote.rs:113-128 | Checks the marker before any side effect, runs the worker, pairs and starts, under the permit. |
| RemotePlatform.Lifecycle.Disable | platformd/src/remote.rs:130-142 | Runs the worker, stops and cancels the pairing, under the permit. |
| RemotePlatform.Lifecycle.ReenrollAll | platformd/src/remote.rs:144-171 | Stops, resets, rotates and converges, under the permit. |
| RemotePlatform.EnableIsRefused | platformd/src/remote.rs:117-121 | Enabling while a reset is pending changes nothing. |
| RemotePlatform.EnableEnds | platformd/src/remote.rs:113-128 | A success has the marker, a usable identity, a pairing if nobody is enrolled, and a running service, which is not started before the pairing; an identity that exists is never replaced. |
| RemotePlatform.EnableSucceeds | platformd/src/remote.rs:113-128 | Without faults it succeeds exactly if no reset is pending and there is no identity or a usable one. |
| RemotePlatform.DisableEnds | platformd/src/remote.rs:130-142 | A success has neither marker, service nor pairing; link and generations stay however it ends. |
| RemotePlatform.DisableSucceeds | platformd/src/remote.rs:130-142 | Without faults it succeeds from every state. |
| RemotePlatform.ReenrollClearsLast | platformd/src/remote.rs:144-171 | The reset marker goes only after this call has reset the enrollment and replaced the identity, and the service starts only without it, enabled, with an identity and a pairing. |
| RemotePlatform.ReenrollEnds | platformd/src/remote.rs:144-171 | A success leaves nothing pending, nobody enrolled, one new identity, and a pairing and the service exactly if enabled. |
| RemotePlatform.ReenrollRepairs | platformd/src/remote.rs:143-171 | Without faults it succeeds from every state: a pending reset, a broken identity, leftovers. |
| Controller.AtEveryStep | remoted/src/controller.rs:187-293 | At every step of every interleaving: a published view has the current generation, the marker implies published and accepting, the view was confirmed less than 145 s ago, no notification was delivered between the start of its fetch and its use, and, unless a withdrawal is at work, none has been received since. |
| Controller.ConsumeWithdraws | remoted/src/controller.rs:245-258 | From the receipt of a notification while waiting or fetching, the steps are those of the withdrawal, in no time, until nothing is published, accepted or marked under a new generation, before any other fetch, refresh or wait. |
| Controller.FetchIsDebounced | remoted/src/controller.rs:252-257 | No fetch begins within 500 ms of a notification received before it. |
| Controller.FetchIsDue | remoted/src/controller.rs:245-291 | After the last notification of a burst the next fetch begins within 500 ms. |
| Controller.NeverStuck | remoted/src/controller.rs:263-293 | In every state of every run the controller can take a step or let time pass, and a refresh that is due can begin. |
| Controller.RefreshPublishes | remoted/src/controller.rs:217-230 | Once a refresh has been applied, and before anything else, no view but the one it gave is published. |
| Controller.AdmissionDecides | remoted/src/server.rs:48-89 | A connection is admitted exactly if its generation is the present one and its source is on-link in the view published, and served exactly if its generation is still the present one at the check. |
| Controller.WithdrawnForever | remoted/src/controller.rs:53-76 | Once withdrawn, a generation admits no source ever again. |
| Controller.NoHandshakeAfterWithdrawal | remoted/src/server.rs:79-89 | A connection that is checked after its generation ended never starts a handshake. |
| Controller.ServedIsOnLink | remoted/src/server.rs:48-76 | Whoever is served is on-link in the view that its generation has published. |
| Controller.OneViewPerGeneration | remoted/src/controller.rs:53-66 | What a generation has published never changes. |
| Controller.NextKeepsInv | remoted/src/controller.rs:187-293 | Each single step keeps the invariants of publication, connections, time and notifications. |
| ControllerCode.Code.constructor | remoted/src/controller.rs:168-184 | A marker that is found is deleted, or known to be stuck. |
| ControllerCode.Code.Withdraw | remoted/src/controller.rs:186-193 | Removes the marker, eligibility, listeners and the published state, under a new generation. |
| ControllerCode.Code.Establish | remoted/src/controller.rs:195-213 | Publishes, serves and marks if any address was bound, and withdraws if the marker fails. |
| ControllerCode.Code.Admits | remoted/src/controller.rs:68-76 | Admits exactly on-link sources under the published generation. |
| ControllerCode.Code.ApplyRefresh | remoted/src/controller.rs:215-242 | Confirms an unchanged complete view, replaces another, withdraws a stale one, and sets the next refresh. |
| ControllerCode.ApplySettles | remoted/src/controller.rs:186-242 | Applying a refresh at one go is what its single steps amount to. |
| ControllerCode.RefreshDecides | remoted/src/controller.rs:195-242 | A refresh confirms exactly an unchanged complete view; any other ends the generation and is served with its marker, if there are sockets and the marker can be made; a failed one changes nothing for 120 s after the last confirmation. |
| ControllerCode.WithdrawSilences | remoted/src/controller.rs:186-193 | A withdrawal leaves nothing published, accepting or confirmed, under the next generation. |
| Network.ViewFromStatus | remoted/src/network.rs:86-109 | A view lists every entry's prefix and each listenable address once, or the status is refused. |
| Network.ListenExactly | remoted/src/network.rs:67-108 | Exactly the listed addresses outside the loopback, unspecified, multicast and link-local ranges, written as intervals, are listened on, none twice. |
| Network.ContainsIsInBlock | remoted/src/network.rs:32-58 | The shift-and-mask test is the test for the interval of 2^(W-len) addresses, for both widths and all lengths. |
| Network.CanonicalDecides | remoted/src/network.rs:112-117 | Exactly the addresses ::ffff:a.b.c.d become IPv4 addresses; every other stays itself. |
| Network.OnLinkIsInSomeBlock | remoted/src/network.rs:111-122 | A source is on-link exactly if the block of a listed entry of its own family holds it, or it is a mapped address whose IPv4 address the block of a listed IPv4 entry holds; a mapped address matches no IPv6 entry. |
| SharedRead.StepKeepsInv | platformd/src/shared_read.rs:17-86 | Each step of callers, tasks and drops keeps the slot on a live flight. |
| SharedRead.RunKeepsInv | platformd/src/shared_read.rs:17-86 | The same for every run. |
| SharedRead.OneObservation | platformd/src/shared_read.rs:31-51 | At most one observation runs at a time. |
| SharedRead.FreshResult | platformd/src/shared_read.rs:45-56 | No caller receives a value published before it took the lock. |
| SharedRead.ResultOrigin | platformd/src/shared_read.rs:31-57 | In every run, a value received is the one that the observation of the caller's flight gave, after the caller's call; the flight was started when all older ones had ended; and a caller without a value had an observation that panicked. |
| SharedRead.SameResult | platformd/src/shared_read.rs:24-57 | All callers of one flight get the same result. |
| SharedRead.CleanupSparesNewer | platformd/src/shared_read.rs:64-86 | A finished flight's cleanup never removes a newer one, and nobody joins a published one. |
| SharedRead.NobodyStranded | platformd/src/shared_read.rs:24-57 | A caller of a finished or panicked flight can receive its result. |
| SharedRead.EndServesAll | platformd/src/shared_read.rs:43-86 | Once an observation has ended or panicked, dropping its end and its sender frees the slot of it and lets every caller that waits for it receive. |
| SharedRead.Reads.Join | platformd/src/shared_read.rs:31-54 | Joins the flight in progress or starts one. |
| SharedRead.Reads.Clear | platformd/src/shared_read.rs:71-78 | Empties the slot only of its own flight. |
| SharedRead.Reads.Publish | platformd/src/shared_read.rs:43-50 | Ends and publishes under the lock. |
| SharedRead.Reads.Drop | platformd/src/shared_read.rs:81-86 | A drop spares a newer flight. |
| SharedRead.Reads.Await | platformd/src/shared_read.rs:55-56 | Returns the flight's value, or none after a panic. |

## Left out

- D-Bus, systemd, TLS, HTTP, netlink, openssl and the kernel's randomness: their results are inputs of the operations.
- Argon2 and PHC parsing (`authd/src/hash.rs`), SHA-256 and JSON text: an ideal hash, an injective digest and an injective encoding.
- Integer widths of times: additions to u64 clock readings are unbounded here; the 32-bit failure counter saturates as in the code.
- Poisoned locks in `remoted` and `platformd`, and the semaphores that bound connections and D-Bus calls.
- `authd/src/service.rs`, `authd/src/random.rs`, `remoted/src/sessions.rs` and the consoles: short invariants only; operations of the machine are serialized.
- Undecodable account files: their length is that of the text they would stand for, so only files that decode have an exact size limit.
- Permissions, ownership, extended attributes and the temporary file of `replace` in identity.py; the corroboration with NSS is an input that may refuse.
- Other writers of the account files while the transaction holds its locks.
- The creation of the state directory itself, entries of `tls` whose names are no generation names, and links or markers replaced by directories.
- Timeouts of the sequences in `platformd/src/remote.rs`: a worker has ended when its call returns, though a start, a stop or a reset reported as failed may have taken effect.
- `enrollment` and the address choice of `platformd/src/remote.rs`: branch-by-branch functions.
- Text and JSON parsing of Session1's status before `view_from_status` sees addresses and lengths.
- Liveness: that a connection whose generation has ended is in fact closed, and that awaited futures are polled.
- IdentityProvision.Store.Replace: a replacement is one step; what a crash inside it leaves beside the file is not modelled, as the source's README names it a known limit.
- Controller.AtEveryStep: the marker is claimed to imply publication only while its removal has not failed, because the code ignores that failure; and timers are prompt.
- RemotePlatform.EnableEnds: a pairing counts as pending until it is reset or cancelled; that it ends after ten minutes or by its use is part of the authentication model only.
