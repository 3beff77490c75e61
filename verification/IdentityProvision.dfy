/** The provisioning transaction over the six account files
    (management-lifecycle/identity.py `_provision`). A digest is injective, so it
    stands for the content; each `replace` is one step, and an attempt may stop
    before any of them. */
module IdentityProvision {
  import opened Prelude
  import opened Codes
  import opened AccountText
  import opened AccountTables
  import opened IdentityPlan
  import opened IdentityAppend

  /** No file larger than this is read. */
  const LIMIT: nat := 4 * 1024 * 1024

  datatype Record =
    | Prepared(identity: Identity, before: Raw, after: Raw)
    | Committed(identity: Identity)

  /** `Foreign`: anything that `_metadata` does not accept. */
  datatype Metadata = Nothing | Foreign | Saved(record: Record)

  datatype State = State(files: Raw, metadata: Metadata)

  /** What one attempt meets: the locks, the NSS policy, runtime state, the two
      corroborations of the choice, and the replacements that it completes. */
  datatype Attempt = Attempt(locked: bool, sources: bool, runtime: bool, firstChoice: bool, lastChoice: bool,
                             cut: Option<nat>)

  datatype Outcome = Refused | Cut | Provisioned(identity: Identity)

  predicate Readable(content: Option<Content>) {
    content.None? || ByteLength(content.value.text) <= LIMIT
  }

  predicate AllReadable(raw: Raw) {
    forall k :: 0 <= k < FILES ==> Readable(raw[k])
  }

  /** `_verify(read_validate(...), identity)`. */
  predicate Accepted(raw: Raw, i: Identity) {
    ReadValidate(raw).Some? && Verify(ReadValidate(raw).value, i)
  }

  // ----- The intent -----

  datatype Ready = Ready(record: Record) | Stop(outcome: Outcome)

  function Fresh(raw: Raw, a: Attempt): Ready {
    if a.runtime || ReadValidate(raw).None? || Plan(ReadValidate(raw).value).None? || !a.firstChoice then Stop(Refused)
    else
      var i := Plan(ReadValidate(raw).value).value;
      if !Accepted(Final(raw, i), i) then Stop(Refused)
      else if a.cut == Some(0) then Stop(Cut)
      else Ready(Prepared(i, raw, Final(raw, i)))
  }

  /** What an interrupted transaction would leave in one file. */
  function Resumed(content: Option<Content>, record: Record, k: nat): Option<Content>
    requires record.Prepared? && k < FILES
  {
    if content == record.after[k] then content
    else if content == record.before[k]
            && record.after[k] == Some(Appended(content, Records(record.identity)[k])) then record.after[k]
    else None
  }

  function Resume(raw: Raw, record: Record, a: Attempt): Ready
    requires record.Prepared?
  {
    var final := seq(FILES, k requires 0 <= k < FILES => Resumed(raw[k], record, k));
    if (exists k :: 0 <= k < FILES && final[k].None?) || !Accepted(final, record.identity) || !a.firstChoice
       || (a.runtime && raw != final) then Stop(Refused)
    else Ready(record)
  }

  function Begin(s: State, a: Attempt): Ready {
    if !a.locked || !a.sources || !AllReadable(s.files) then Stop(Refused)
    else
      match s.metadata
      case Nothing => Fresh(s.files, a)
      case Foreign => Stop(Refused)
      case Saved(Committed(i)) =>
        if !ValidIdentity(i) || !Accepted(s.files, i) || !a.firstChoice then Stop(Refused) else Stop(Provisioned(i))
      case Saved(record) => if ValidIdentity(record.identity) then Resume(s.files, record, a) else Stop(Refused)
  }

  // ----- The replacements -----

  function Spent(cut: Option<nat>): Option<nat> {
    if cut.Some? && cut.value > 0 then Some(cut.value - 1) else cut
  }

  datatype Installed = Installed(files: Raw, cut: Option<nat>, stopped: Option<Outcome>)

  /** Replaces the files from the k-th on that are not final yet. */
  function Install(files: Raw, record: Record, k: nat, cut: Option<nat>): Installed
    requires record.Prepared? && k <= FILES
    decreases FILES - k
  {
    if k == FILES then Installed(files, cut, None)
    else if files[k] == record.after[k] then Install(files, record, k + 1, cut)
    else if !Readable(files[k]) || files[k] != record.before[k] then Installed(files, cut, Some(Refused))
    else if cut == Some(0) then Installed(files, cut, Some(Cut))
    else Install(files[k := record.after[k]], record, k + 1, Spent(cut))
  }

  function Finish(s: State, i: Identity, a: Attempt, cut: Option<nat>): (State, Outcome) {
    if !AllReadable(s.files) || !Accepted(s.files, i) || !a.lastChoice then (s, Refused)
    else if cut == Some(0) then (s, Cut)
    else (State(s.files, Saved(Committed(i))), Provisioned(i))
  }

  function Proceed(files: Raw, record: Record, a: Attempt, cut: Option<nat>): (State, Outcome)
    requires record.Prepared?
  {
    var installed := Install(files, record, 0, cut);
    var s := State(installed.files, Saved(record));
    if installed.stopped.Some? then (s, installed.stopped.value) else Finish(s, record.identity, a, installed.cut)
  }

  function Attempted(s: State, a: Attempt): (State, Outcome) {
    match Begin(s, a)
    case Stop(outcome) => (s, outcome)
    case Ready(record) =>
      if record.Prepared? then Proceed(s.files, record, a, if s.metadata.Nothing? then Spent(a.cut) else a.cut)
      else (s, Refused)
  }

  /** An attempt works on the recorded intent, or on a fresh one. */
  lemma BeginIsRecorded(s: State, a: Attempt)
    ensures Begin(s, a).Ready? ==>
              && Begin(s, a).record.Prepared?
              && (if s.metadata.Nothing? then Begin(s, a) == Fresh(s.files, a)
                  else s.metadata == Saved(Begin(s, a).record) && Begin(s, a) == Resume(s.files, s.metadata.record, a))
  {
  }

  // ----- The store -----

  class Store {
    var files: Raw
    var metadata: Metadata

    ghost function Now(): State
      reads this
    {
      State(files, metadata)
    }

    constructor (files: Raw, metadata: Metadata)
      ensures this.files == files && this.metadata == metadata
    {
      this.files, this.metadata := files, metadata;
    }

    /** identity.py `replace` of an account file. */
    method Replace(k: nat, data: Option<Content>, expected: Option<Content>, cut: Option<nat>) returns (stopped: Option<Outcome>)
      requires k < FILES
      modifies this`files
      ensures stopped == if !Readable(old(files[k])) || old(files[k]) != expected then Some(Refused)
                         else if cut == Some(0) then Some(Cut) else None
      ensures files == if stopped.None? then old(files)[k := data] else old(files)
    {
      if !Readable(files[k]) || files[k] != expected {
        return Some(Refused);
      }
      if cut == Some(0) {
        return Some(Cut);
      }
      files := files[k := data];
      return None;
    }

    method InstallAll(record: Record, cut: Option<nat>) returns (left: Option<nat>, stopped: Option<Outcome>)
      requires record.Prepared?
      modifies this`files
      ensures Install(old(files), record, 0, cut) == Installed(files, left, stopped)
    {
      left := cut;
      for k := 0 to FILES
        invariant Install(old(files), record, 0, cut) == Install(files, record, k, left)
      {
        if files[k] != record.after[k] {
          stopped := Replace(k, record.after[k], record.before[k], left);
          if stopped.Some? {
            return;
          }
          left := Spent(left);
        }
      }
      stopped := None;
    }

    /** `_verify(read_validate(...), identity)`. */
    static method Recheck(raw: Raw, i: Identity) returns (accepted: bool)
      ensures accepted == Accepted(raw, i)
    {
      var snapshot := Validate(raw);
      return snapshot.Some? && Verify(snapshot.value, i);
    }

    static method ReadAll(raw: Raw) returns (readable: bool)
      ensures readable == AllReadable(raw)
    {
      for k := 0 to FILES
        invariant forall j :: 0 <= j < k ==> Readable(raw[j])
      {
        if !Readable(raw[k]) {
          return false;
        }
      }
      return true;
    }

    /** The fresh intent, up to the record that is written. */
    method PlanFresh(a: Attempt) returns (ready: Ready)
      ensures ready == Fresh(files, a)
    {
      if a.runtime {
        return Stop(Refused);
      }
      var snapshot := Validate(files);
      if snapshot.None? {
        return Stop(Refused);
      }
      AcceptedExtents(files);
      var identity := Choose(snapshot.value);
      if identity.None? || !a.firstChoice {
        return Stop(Refused);
      }
      var final := Final(files, identity.value);
      var accepted := Recheck(final, identity.value);
      if !accepted {
        return Stop(Refused);
      }
      if a.cut == Some(0) {
        return Stop(Cut);
      }
      return Ready(Prepared(identity.value, files, final));
    }

    /** The recorded intent, file by file against its digests. */
    method PlanResume(record: Record, a: Attempt) returns (ready: Ready)
      requires record.Prepared?
      ensures ready == Resume(files, record, a)
    {
      hide Accepted;
      var raw := files;
      ghost var expected := seq(FILES, k requires 0 <= k < FILES => Resumed(raw[k], record, k));
      var final: seq<Option<Content>> := [];
      for k := 0 to FILES
        invariant |final| == k && forall j :: 0 <= j < k ==> final[j] == expected[j] && final[j].Some?
      {
        var next: Option<Content> := None;
        if raw[k] == record.after[k] {
          next := raw[k];
        } else if raw[k] == record.before[k] {
          next := Some(Appended(raw[k], Records(record.identity)[k]));
          if next != record.after[k] {
            next := None;
          }
        }
        assert next == expected[k];
        if next.None? {
          return Stop(Refused);
        }
        final := final + [next];
      }
      assert final == expected;
      var accepted := Recheck(final, record.identity);
      if !accepted || !a.firstChoice {
        return Stop(Refused);
      }
      if a.runtime && files != final {
        return Stop(Refused);
      }
      return Ready(record);
    }

    /** What `_provision` does before its first replacement of a file. */
    method Start(a: Attempt) returns (ready: Ready)
      ensures ready == Begin(Now(), a)
    {
      hide Accepted, Fresh, Resume, AllReadable;
      if !a.locked {
        return Stop(Refused);
      }
      if !a.sources {
        return Stop(Refused);
      }
      var readable := ReadAll(files);
      if !readable {
        return Stop(Refused);
      }
      if metadata.Nothing? {
        ready := PlanFresh(a);
        return;
      }
      if metadata.Foreign? || !ValidIdentity(metadata.record.identity) {
        return Stop(Refused);
      }
      if metadata.record.Committed? {
        var accepted := Recheck(files, metadata.record.identity);
        if !accepted || !a.firstChoice {
          return Stop(Refused);
        }
        return Stop(Provisioned(metadata.record.identity));
      }
      ready := PlanResume(metadata.record, a);
    }

    /** identity.py `_provision`. */
    method Provision(a: Attempt) returns (r: Outcome)
      modifies this
      ensures (Now(), r) == Attempted(old(Now()), a)
    {
      hide Begin, Install, Accepted, AllReadable;
      BeginIsRecorded(State(files, metadata), a);
      var ready := Start(a);
      if ready.Stop? || !ready.record.Prepared? {
        return if ready.Stop? then ready.outcome else Refused;
      }
      var left := a.cut;
      if metadata.Nothing? {
        metadata := Saved(ready.record);
        left := Spent(left);
      }
      var stopped;
      left, stopped := InstallAll(ready.record, left);
      if stopped.Some? {
        return stopped.value;
      }
      var readable := ReadAll(files);
      if !readable {
        return Refused;
      }
      var accepted := Recheck(files, ready.record.identity);
      if !accepted || !a.lastChoice {
        return Refused;
      }
      if left == Some(0) {
        return Cut;
      }
      metadata := Saved(Committed(ready.record.identity));
      return Provisioned(ready.record.identity);
    }
  }

  // ----- What every run of attempts keeps -----

  /** The identity that a machine with these files gets. */
  ghost predicate Planned(base: Raw, i: Identity) {
    AllReadable(base) && ReadValidate(base).Some? && Plan(ReadValidate(base).value) == Some(i)
  }

  ghost predicate Between(files: Raw, before: Raw, after: Raw) {
    forall k :: 0 <= k < FILES ==> files[k] == before[k] || files[k] == after[k]
  }

  /** Every file is exactly its recorded content before or after, and a
      committed record means that all of them are final. */
  ghost predicate Phase(s: State, base: Raw) {
    match s.metadata
    case Nothing => s.files == base
    case Foreign => false
    case Saved(Prepared(i, before, after)) =>
      Planned(base, i) && before == base && after == Final(base, i) && Between(s.files, before, after)
    case Saved(Committed(i)) => Planned(base, i) && s.files == Final(base, i) && AllReadable(s.files)
  }

  lemma FinalAccepted(base: Raw, i: Identity)
    requires Planned(base, i)
    ensures Accepted(Final(base, i), i) && ValidIdentity(i)
  {
    AppendAccepted(base, ReadValidate(base).value, i);
    PlanIsFree(ReadValidate(base).value);
  }

  lemma {:induction false} InstallKeeps(files: Raw, record: Record, k: nat, cut: Option<nat>)
    requires record.Prepared? && k <= FILES && Between(files, record.before, record.after)
    requires forall j :: 0 <= j < k ==> files[j] == record.after[j]
    ensures var r := Install(files, record, k, cut);
            && Between(r.files, record.before, record.after)
            && (forall j :: 0 <= j < FILES && files[j] == record.after[j] ==> r.files[j] == record.after[j])
            && (r.stopped.None? ==> r.files == record.after)
            && (cut.None? ==> r.cut.None? && r.stopped != Some(Cut))
    decreases FILES - k
  {
    hide Readable;
    if k < FILES {
      if files[k] == record.after[k] {
        InstallKeeps(files, record, k + 1, cut);
      } else if Readable(files[k]) && cut != Some(0) {
        InstallKeeps(files[k := record.after[k]], record, k + 1, Spent(cut));
      }
    }
  }

  /** Nothing but a cut stops the replacement of files that can be read. */
  lemma {:induction false} InstallSucceeds(files: Raw, record: Record, k: nat)
    requires record.Prepared? && k <= FILES && Between(files, record.before, record.after)
    requires forall j :: k <= j < FILES ==> Readable(files[j])
    ensures Install(files, record, k, None).stopped.None?
    decreases FILES - k
  {
    if k < FILES {
      InstallSucceeds(if files[k] == record.after[k] then files else files[k := record.after[k]], record, k + 1);
    }
  }

  /** An attempt that resumes the recorded intent finds what is left of it. */
  lemma ResumeInPhase(s: State, base: Raw, a: Attempt)
    requires Phase(s, base) && s.metadata.Saved? && s.metadata.record.Prepared?
    ensures Resume(s.files, s.metadata.record, a) ==
            if !a.firstChoice || (a.runtime && s.files != s.metadata.record.after) then Stop(Refused)
            else Ready(s.metadata.record)
  {
    hide Accepted, Planned, Resumed, Between;
    var record := s.metadata.record;
    FinalAccepted(base, record.identity);
    ResumedFinal(s.files, record);
    assert seq(FILES, k requires 0 <= k < FILES => Resumed(s.files[k], record, k)) == record.after;
  }

  lemma ResumedFinal(files: Raw, record: Record)
    requires record.Prepared? && record.after == Final(record.before, record.identity)
    requires Between(files, record.before, record.after)
    ensures forall k :: 0 <= k < FILES ==> record.after[k].Some? && Resumed(files[k], record, k) == record.after[k]
  {
  }

  lemma ProceedKeepsPhase(s: State, base: Raw, a: Attempt, cut: Option<nat>)
    requires Phase(s, base) && s.metadata.Saved? && s.metadata.record.Prepared?
    ensures Phase(Proceed(s.files, s.metadata.record, a, cut).0, base)
    ensures forall k :: 0 <= k < FILES && s.files[k] == s.metadata.record.after[k] ==>
                          Proceed(s.files, s.metadata.record, a, cut).0.files[k] == s.metadata.record.after[k]
    ensures Proceed(s.files, s.metadata.record, a, cut).0.metadata in {s.metadata, Saved(Committed(s.metadata.record.identity))}
  {
    hide Accepted, Planned, Install;
    InstallKeeps(s.files, s.metadata.record, 0, cut);
  }

  lemma FreshIntent(raw: Raw, a: Attempt)
    requires Fresh(raw, a).Ready? && AllReadable(raw)
    ensures var record := Fresh(raw, a).record;
            && record.Prepared? && Planned(raw, record.identity)
            && record.before == raw && record.after == Final(raw, record.identity)
  {
    hide Accepted, AllReadable;
  }

  /** The state once a fresh intent has been recorded. */
  lemma FreshPhase(s: State, a: Attempt)
    requires s.metadata.Nothing? && Begin(s, a).Ready?
    ensures Begin(s, a).record.Prepared? && Phase(State(s.files, Saved(Begin(s, a).record)), s.files)
  {
    hide Accepted, Fresh, Planned, AllReadable;
    BeginIsRecorded(s, a);
    FreshIntent(s.files, a);
  }

  /** One attempt, however it ends, keeps the phase. */
  lemma AttemptKeepsPhase(s: State, base: Raw, a: Attempt)
    requires Phase(s, base)
    ensures Phase(Attempted(s, a).0, base)
  {
    hide Begin, Phase, Resume, Fresh, Proceed;
    PhaseFiles(s, base);
    BeginIsRecorded(s, a);
    if Begin(s, a).Ready? {
      if s.metadata.Nothing? {
        FreshPhase(s, a);
        ProceedKeepsPhase(State(s.files, Saved(Begin(s, a).record)), base, a, Spent(a.cut));
      } else {
        ProceedKeepsPhase(s, base, a, a.cut);
      }
    }
  }

  lemma PhaseFiles(s: State, base: Raw)
    requires Phase(s, base)
    ensures s.metadata.Nothing? ==> s.files == base
  {
  }

  ghost predicate IsRun(states: seq<State>, attempts: seq<Attempt>) {
    && |states| == |attempts| + 1 && states[0].metadata == Nothing
    && forall n :: 0 <= n < |attempts| ==> states[n + 1] == Attempted(states[n], attempts[n]).0
  }

  lemma {:induction false} RunKeepsPhase(states: seq<State>, attempts: seq<Attempt>, n: nat)
    requires IsRun(states, attempts) && n < |states|
    ensures Phase(states[n], states[0].files)
  {
    if n > 0 {
      RunKeepsPhase(states, attempts, n - 1);
      AttemptKeepsPhase(states[n - 1], states[0].files, attempts[n - 1]);
    }
  }

  // ----- Progress -----

  /** Metadata only moves forward, under one identity, and a final file stays. */
  ghost predicate Forward(s: State, t: State) {
    match s.metadata
    case Nothing => t.metadata.Nothing? ==> t == s
    case Foreign => t == s
    case Saved(Prepared(i, before, after)) =>
      && t.metadata in {s.metadata, Saved(Committed(i))}
      && forall k :: 0 <= k < FILES && s.files[k] == after[k] ==> t.files[k] == after[k]
    case Saved(Committed(i)) => t == s
  }

  lemma AttemptGoesForward(s: State, base: Raw, a: Attempt)
    requires Phase(s, base)
    ensures Forward(s, Attempted(s, a).0)
  {
    hide Begin, Phase, Resume, Fresh, Proceed;
    PhaseFiles(s, base);
    BeginIsRecorded(s, a);
    if Begin(s, a).Ready? {
      if s.metadata.Nothing? {
        FreshPhase(s, a);
        ProceedKeepsPhase(State(s.files, Saved(Begin(s, a).record)), base, a, Spent(a.cut));
      } else {
        ProceedKeepsPhase(s, base, a, a.cut);
      }
    }
  }

  lemma ProceedCommits(files: Raw, record: Record, a: Attempt, cut: Option<nat>)
    requires record.Prepared? && Proceed(files, record, a, cut).1.Provisioned?
    ensures Proceed(files, record, a, cut).0.metadata == Saved(Committed(record.identity))
    ensures Proceed(files, record, a, cut).1 == Provisioned(record.identity)
  {
    hide Accepted, AllReadable, Install;
    InstallNeverProvisions(files, record, 0, cut);
  }

  lemma {:induction false} InstallNeverProvisions(files: Raw, record: Record, k: nat, cut: Option<nat>)
    requires record.Prepared? && k <= FILES
    ensures Install(files, record, k, cut).stopped in {None, Some(Refused), Some(Cut)}
    decreases FILES - k
  {
    if k < FILES {
      InstallNeverProvisions(files, record, k + 1, cut);
      InstallNeverProvisions(files[k := record.after[k]], record, k + 1, Spent(cut));
    }
  }

  lemma StopProvisions(s: State, a: Attempt)
    requires Begin(s, a).Stop? && Begin(s, a).outcome.Provisioned?
    ensures s.metadata == Saved(Committed(Begin(s, a).outcome.identity))
  {
  }

  /** An attempt returns an identity only with the whole transaction in place. */
  lemma ProvisionedIsCommitted(s: State, base: Raw, a: Attempt)
    requires Phase(s, base) && Attempted(s, a).1.Provisioned?
    ensures var (t, r) := Attempted(s, a);
            && Planned(base, r.identity) && t == State(Final(base, r.identity), Saved(Committed(r.identity)))
            && AllReadable(Final(base, r.identity))
  {
    hide Begin, Resume, Fresh, Proceed, Planned, AllReadable;
    AttemptKeepsPhase(s, base, a);
    BeginIsRecorded(s, a);
    if Begin(s, a).Ready? {
      ProceedCommits(s.files, Begin(s, a).record, a, if s.metadata.Nothing? then Spent(a.cut) else a.cut);
    } else {
      StopProvisions(s, a);
    }
  }

  /** No write and no identity without the locks, the policy and the first
      corroboration, and none is committed without the last one; neither a fresh
      transaction nor a change of a file happens with runtime state. */
  lemma ChangesAreCorroborated(s: State, a: Attempt)
    requires Attempted(s, a).0 != s || Attempted(s, a).1.Provisioned?
    ensures a.locked && a.sources && a.firstChoice && AllReadable(s.files)
    ensures s.metadata.Nothing? || Attempted(s, a).0.files != s.files ==> !a.runtime
    ensures Attempted(s, a).0.metadata.Saved? && Attempted(s, a).0.metadata.record.Committed? ==>
              Attempted(s, a).0 == s || a.lastChoice
  {
    hide Accepted, AllReadable, Install, Resume;
    if s.metadata.Saved? && s.metadata.record.Prepared? {
      var record := s.metadata.record;
      ResumeMeans(s.files, record, a);
      if s.files == record.after {
        InstallIdle(record, 0, a.cut);
      }
    }
  }

  lemma {:induction false} InstallIdle(record: Record, k: nat, cut: Option<nat>)
    requires record.Prepared? && k <= FILES
    ensures Install(record.after, record, k, cut) == Installed(record.after, cut, None)
    decreases FILES - k
  {
    if k < FILES {
      InstallIdle(record, k + 1, cut);
    }
  }

  /** Each file is as the intent left it, or becomes so with its record. */
  ghost predicate Resumable(files: Raw, record: Record)
    requires record.Prepared?
  {
    forall k :: 0 <= k < FILES ==>
      && record.after[k].Some?
      && (files[k] == record.after[k] ||
          (files[k] == record.before[k] && record.after[k] == Some(Appended(files[k], Records(record.identity)[k]))))
  }

  lemma ResumeMeans(files: Raw, record: Record, a: Attempt)
    requires record.Prepared?
    ensures Resume(files, record, a) ==
            if Resumable(files, record) && Accepted(record.after, record.identity) && a.firstChoice
               && (a.runtime ==> files == record.after) then Ready(record) else Stop(Refused)
  {
    hide Accepted;
    var final := seq(FILES, k requires 0 <= k < FILES => Resumed(files[k], record, k));
    if forall k :: 0 <= k < FILES ==> final[k].Some? {
      assert final == record.after by {
        forall k | 0 <= k < FILES ensures final[k] == record.after[k] { assert final[k].Some?; }
      }
      assert forall k :: 0 <= k < FILES ==> final[k].Some?;
    } else if Resumable(files, record) {
      var k :| 0 <= k < FILES && final[k].None?;
      assert record.after[k].Some?;
    }
  }

  // ----- What a returned identity means -----

  lemma SnapshotShaped(raw: Raw)
    requires ReadValidate(raw).Some?
    ensures Shaped(ReadValidate(raw).value)
  {
    RowsShaped(raw[PASSWD], 7);
    RowsShaped(raw[GROUP], 4);
    RowsShaped(raw[SHADOW], 9);
    RowsShaped(raw[GSHADOW], 4);
  }

  ghost predicate Installs(raw: Raw, i: Identity) {
    ReadValidate(raw).Some? && InPlace(ReadValidate(raw).value, i)
  }

  /** The files are accepted exactly if they parse with the account in place. */
  lemma AcceptedMeans(raw: Raw, i: Identity)
    requires i.uid <= MAX_ID && i.gid <= MAX_ID
    ensures Accepted(raw, i) <==> Installs(raw, i)
  {
    if ReadValidate(raw).Some? {
      SnapshotShaped(raw);
      VerifyMeans(ReadValidate(raw).value, i);
    }
  }

  /** The numbers that an identity may have. */
  ghost predicate InRange(i: Identity) {
    && 100 <= i.uid <= 999 && 100 <= i.gid <= 999 && i.count == 65536
    && (exists q: nat :: 2 <= q <= 65534 && i.subuid == 65536 * q) && (exists q: nat :: 2 <= q <= 65534 && i.subgid == 65536 * q)
  }

  lemma ExtentMeans(start: nat)
    ensures ValidExtent(start) <==> exists q: nat :: 2 <= q <= 65534 && start == 65536 * q
  {
    if ValidExtent(start) {
      assert start == 65536 * (start / 65536);
    }
  }

  lemma RangeMeans(i: Identity)
    ensures ValidIdentity(i) <==> InRange(i)
  {
    ExtentMeans(i.subuid);
    ExtentMeans(i.subgid);
  }

  /** Every attempt that returns an identity, on whatever files and metadata it
      starts, leaves files that can be read and parse, with the account of the
      identity in place, and metadata that says so. */
  lemma ProvisionedIsInPlace(s: State, a: Attempt)
    requires Attempted(s, a).1.Provisioned?
    ensures var (t, r) := Attempted(s, a);
            && t.metadata == Saved(Committed(r.identity)) && InRange(r.identity)
            && AllReadable(t.files) && Installs(t.files, r.identity)
  {
    hide Begin, Proceed, Installs;
    BeginIsRecorded(s, a);
    BeginIsValid(s, a);
    if Begin(s, a).Ready? {
      var record := Begin(s, a).record;
      ProceedIsAccepted(s.files, record, a, if s.metadata.Nothing? then Spent(a.cut) else a.cut);
    } else {
      StopProvisions(s, a);
    }
    RangeMeans(Attempted(s, a).1.identity);
    AcceptedMeans(Attempted(s, a).0.files, Attempted(s, a).1.identity);
  }

  lemma BeginIsValid(s: State, a: Attempt)
    ensures Begin(s, a).Ready? ==> ValidIdentity(Begin(s, a).record.identity)
    ensures Begin(s, a).Stop? && Begin(s, a).outcome.Provisioned? ==>
              var i := Begin(s, a).outcome.identity;
              ValidIdentity(i) && AllReadable(s.files) && Accepted(s.files, i)
  {
    hide Accepted, AllReadable;
    if s.metadata.Nothing? && Begin(s, a).Ready? {
      PlanIsFree(ReadValidate(s.files).value);
    }
  }

  lemma ProceedIsAccepted(files: Raw, record: Record, a: Attempt, cut: Option<nat>)
    requires record.Prepared? && Proceed(files, record, a, cut).1.Provisioned?
    ensures var (t, r) := Proceed(files, record, a, cut);
            && r == Provisioned(record.identity) && t.metadata == Saved(Committed(record.identity))
            && AllReadable(t.files) && Accepted(t.files, record.identity)
  {
    hide Accepted, AllReadable, Install;
    InstallNeverProvisions(files, record, 0, cut);
  }

  /** Once committed, an attempt changes nothing, and it returns the identity
      exactly if the files still hold its account. */
  lemma CommittedDecides(s: State, i: Identity, a: Attempt)
    requires s.metadata == Saved(Committed(i))
    ensures Attempted(s, a) ==
            (s, if a.locked && a.sources && a.firstChoice && AllReadable(s.files) && InRange(i) && Installs(s.files, i)
                then Provisioned(i) else Refused)
  {
    hide Accepted, AllReadable, Installs, InRange, ValidIdentity;
    RangeMeans(i);
    if InRange(i) {
      RangeIsSmall(i);
      AcceptedMeans(s.files, i);
    }
  }

  lemma RangeIsSmall(i: Identity)
    requires InRange(i)
    ensures i.uid <= MAX_ID && i.gid <= MAX_ID
  {
  }

  /** Nothing stands in the way of the attempt. */
  ghost predicate Uninterrupted(a: Attempt) {
    a.locked && a.sources && !a.runtime && a.firstChoice && a.lastChoice && a.cut.None?
  }

  lemma ProceedSucceeds(s: State, base: Raw, a: Attempt)
    requires Phase(s, base) && s.metadata.Saved? && s.metadata.record.Prepared? && Uninterrupted(a)
    requires AllReadable(s.files) && AllReadable(s.metadata.record.after)
    ensures Proceed(s.files, s.metadata.record, a, None).1 == Provisioned(s.metadata.record.identity)
  {
    hide Accepted, Planned, Install;
    FinalAccepted(base, s.metadata.record.identity);
    InstallKeeps(s.files, s.metadata.record, 0, None);
    InstallSucceeds(s.files, s.metadata.record, 0);
  }

  lemma FreshSucceeds(raw: Raw, i: Identity, a: Attempt)
    requires Planned(raw, i) && Uninterrupted(a)
    ensures Fresh(raw, a) == Ready(Prepared(i, raw, Final(raw, i)))
  {
    hide Accepted;
    FinalAccepted(raw, i);
  }

  lemma BeginSucceeds(s: State, base: Raw, i: Identity, a: Attempt)
    requires Phase(s, base) && Planned(base, i) && Uninterrupted(a) && AllReadable(s.files)
    ensures Begin(s, a) == if s.metadata.Nothing? then Ready(Prepared(i, base, Final(base, i)))
                           else if s.metadata.record.Prepared? then Ready(s.metadata.record)
                           else Stop(Provisioned(i))
    ensures s.metadata.Saved? ==> s.metadata.record.identity == i
  {
    hide Accepted, AllReadable, Fresh, Resume;
    FinalAccepted(base, i);
    if s.metadata.Nothing? {
      FreshSucceeds(base, i, a);
    } else if s.metadata.record.Prepared? {
      ResumeInPhase(s, base, a);
    }
  }

  lemma PhaseReadable(s: State, base: Raw, i: Identity)
    requires Phase(s, base) && Planned(base, i) && AllReadable(Final(base, i))
    ensures AllReadable(s.files)
    ensures s.metadata.Saved? && s.metadata.record.Prepared? ==> AllReadable(s.metadata.record.after)
  {
  }

  /** One uninterrupted attempt, from whatever point earlier attempts have left,
      finishes the transaction and returns its identity, exactly if none of the
      files with its record has become too large to be read. */
  lemma RetrySucceeds(s: State, base: Raw, i: Identity, a: Attempt)
    requires Phase(s, base) && Planned(base, i) && Uninterrupted(a)
    ensures Attempted(s, a).1 == Provisioned(i) <==> AllReadable(Final(base, i))
    ensures Attempted(s, a).1 == Provisioned(i) ==>
              Attempted(s, a).0 == State(Final(base, i), Saved(Committed(i)))
  {
    hide Begin, AllReadable, Planned, Proceed;
    if Attempted(s, a).1 == Provisioned(i) {
      ProvisionedIsCommitted(s, base, a);
    } else if AllReadable(Final(base, i)) {
      PhaseReadable(s, base, i);
      BeginSucceeds(s, base, i, a);
      if s.metadata.Nothing? {
        FreshPhase(s, a);
        ProceedSucceeds(State(s.files, Saved(Begin(s, a).record)), base, a);
      } else if s.metadata.record.Prepared? {
        ProceedSucceeds(s, base, a);
      }
    }
  }

  /** An attempt that nothing cuts provisions a machine without metadata exactly
      if its files give the identity by plan, still can be read with its records,
      and nothing else is in the way. */
  lemma FreshDecides(s: State, i: Identity, a: Attempt)
    requires s.metadata.Nothing? && a.cut.None?
    ensures Attempted(s, a).1 == Provisioned(i) <==>
            Uninterrupted(a) && Planned(s.files, i) && AllReadable(Final(s.files, i))
  {
    hide Begin, Planned, AllReadable, Resume, Fresh, Proceed;
    if Attempted(s, a).1 == Provisioned(i) {
      ProvisionedIsCommitted(s, s.files, a);
      ChangesAreCorroborated(s, a);
    } else if Uninterrupted(a) && Planned(s.files, i) {
      RetrySucceeds(s, s.files, i, a);
    }
  }

  /** An attempt that nothing cuts completes a recorded intent exactly if every
      file is in one of its two recorded states, and the final files can be read
      and hold the account; runtime state is in its way only before the last file
      is final. */
  lemma PreparedDecides(s: State, a: Attempt)
    requires s.metadata.Saved? && s.metadata.record.Prepared? && a.cut.None?
    ensures var record := s.metadata.record;
            && (Attempted(s, a).1.Provisioned? <==>
                && a.locked && a.sources && a.firstChoice && a.lastChoice && InRange(record.identity)
                && AllReadable(s.files) && Resumable(s.files, record) && (a.runtime ==> s.files == record.after)
                && AllReadable(record.after) && Installs(record.after, record.identity))
            && (Attempted(s, a).1.Provisioned? ==>
                Attempted(s, a) == (State(record.after, Saved(Committed(record.identity))), Provisioned(record.identity)))
            && !Attempted(s, a).1.Cut?
  {
    hide Accepted, AllReadable, Installs, InRange, ValidIdentity, Install, Resume, Resumable;
    var record := s.metadata.record;
    RangeMeans(record.identity);
    ResumeMeans(s.files, record, a);
    if InRange(record.identity) {
      RangeIsSmall(record.identity);
      AcceptedMeans(record.after, record.identity);
    }
    if Resumable(s.files, record) {
      ResumableBetween(s.files, record);
      InstallKeeps(s.files, record, 0, None);
      if AllReadable(s.files) {
        AllReadableMeans(s.files);
        InstallSucceeds(s.files, record, 0);
      }
    }
  }

  lemma ResumableBetween(files: Raw, record: Record)
    requires record.Prepared? && Resumable(files, record)
    ensures Between(files, record.before, record.after)
  {
  }

  lemma AllReadableMeans(files: Raw)
    requires AllReadable(files)
    ensures forall k :: 0 <= k < FILES ==> Readable(files[k])
  {
  }

  /** A file in neither of its recorded states is refused before any write. */
  lemma ConflictIsRefused(s: State, a: Attempt, k: nat)
    requires s.metadata.Saved? && s.metadata.record.Prepared? && k < FILES
    requires s.files[k] != s.metadata.record.before[k] && s.files[k] != s.metadata.record.after[k]
    ensures Attempted(s, a) == (s, Refused)
  {
    hide Accepted, AllReadable;
    var record := s.metadata.record;
    var final := seq(FILES, j requires 0 <= j < FILES => Resumed(s.files[j], record, j));
    assert final[k].None?;
  }

  // ----- A transaction that cannot finish -----

  /** An empty database whose group file is one comment of exactly LIMIT bytes. */
  function Brimful(): Raw {
    [Some(Content(Comment(LIMIT - 1), true)), Some(Content("", true)), Some(Content("", true)), Some(Content("", true)), None, None]
  }

  function Comment(n: nat): string {
    seq(n, _ => '#') + "\n"
  }

  lemma CommentParses(n: nat)
    requires n > 0
    ensures ParseTable(Some(Content(Comment(n), true)), 4) == Some(map[])
    ensures ByteLength(Comment(n)) == n + 1
  {
    var line := seq(n, _ => '#');
    OneLine(line);
    assert Comment(n) == line + "\n" && Comment(n)[n] == '\n';
    assert IsTerminated(Comment(n));
    assert Ignored(line);
    RowsPush([], line, 4);
    assert [] + [line] == [line];
    CommentAscii(n);
    assert Ascii(Comment(n));
    AsciiLength(Comment(n));
  }

  const EMPTY := Snapshot(map[], map[], map[], map[], map[], map[])

  const FIRST_IDENTITY := Identity(999, 999, 131072, 131072, 65536)

  lemma EmptyIsPlanned()
    ensures Plan(EMPTY) == Some(FIRST_IDENTITY)
  {
    assert Ids(EMPTY.passwd) == {} && Ids(EMPTY.groups) == {};
    assert Taken(EMPTY) == {};
    assert LargestId(999, {}) == Some(999);
    assert FirstFree(2, {}) == Some(131072);
  }

  lemma BrimfulIsPlanned()
    ensures Planned(Brimful(), FIRST_IDENTITY)
  {
    CommentParses(LIMIT - 1);
    EmptyIsPlanned();
    assert ParseTable(Some(Content("", true)), 4) == Some(map[]) && ParseTable(Some(Content("", true)), 9) == Some(map[]);
    assert ParseTable(Some(Content("", true)), 7) == Some(map[]);
    EmptyChecks(Brimful());
    EmptyLength();
  }

  lemma EmptyLength()
    ensures ByteLength("") == 0
  {
  }

  lemma EmptyChecks(raw: Raw)
    requires raw[SUBUID].None? && raw[SUBGID].None?
    ensures Check(map[], map[], map[], map[], raw) == Some(EMPTY)
  {
  }

  /** On this machine the first attempt writes its intent and the group file,
      which then is too large to be read: no attempt ever succeeds. */
  lemma BrimfulIsStuck(s: State, a: Attempt)
    requires Phase(s, Brimful())
    ensures Planned(Brimful(), FIRST_IDENTITY) && !Attempted(s, a).1.Provisioned?
  {
    BrimfulIsPlanned();
    BrimfulGrows();
    if Attempted(s, a).1.Provisioned? {
      ProvisionedIsCommitted(s, Brimful(), a);
    }
  }

  lemma BrimfulGrows()
    ensures !AllReadable(Final(Brimful(), FIRST_IDENTITY))
  {
    var row := Records(FIRST_IDENTITY)[GROUP];
    var text := Appended(Brimful()[GROUP], row).text;
    RecordsArePlain(FIRST_IDENTITY, GROUP);
    CommentAscii(LIMIT - 1);
    AppendedAscii(Brimful()[GROUP], row);
    AsciiLength(text);
    assert |text| > LIMIT;
    assert Final(Brimful(), FIRST_IDENTITY)[GROUP] == Some(Appended(Brimful()[GROUP], row));
  }

  lemma CommentAscii(n: nat)
    ensures Ascii(Comment(n))
  {
  }
}
