/** The remote-management state directory (crates/remote-state/src/lib.rs) and
    its worker (remote-worker/src/worker.rs) as functions of the faults met.
    Every change of the directory is one step of an ordered log; any sync makes
    all of it durable, and a power cut keeps some prefix of the rest. */
module RemoteState {
  import opened Durable
  import opened Prelude

  // ----- The directory -----

  /** A file of a generation: being written, or written in full and valid. */
  datatype File = Missing | Partial | Whole

  datatype Generation = Generation(name: string, key: File, certificate: File, fingerprint: File)

  /** `tls/current`, a link to a generation name; `Broken` is anything else. */
  datatype Link = Absent | To(name: string) | Broken

  datatype Marker = Enabled | ResetPending

  datatype Temporary = EnabledTemporary | ResetPendingTemporary | CurrentTemporary

  /** `generations` are the entries of `tls` that have generation names, in the
      order in which they are listed. */
  datatype Fs = Fs(enabled: bool, pending: bool, temporaries: set<Temporary>, tls: bool, current: Link,
                   generations: seq<Generation>) {
    predicate Has(m: Marker) {
      if m.Enabled? then enabled else pending
    }

    function With(m: Marker, present: bool): Fs {
      if m.Enabled? then this.(enabled := present) else this.(pending := present)
    }
  }

  predicate Complete(g: Generation) {
    g.key.Whole? && g.certificate.Whole? && g.fingerprint.Whole?
  }

  predicate Listed(fs: Fs, name: string) {
    exists g :: g in fs.generations && g.name == name
  }

  /** The current identity is absent or a complete generation. */
  predicate Good(fs: Fs) {
    && !fs.current.Broken?
    && (fs.current.To? ==> exists g :: g in fs.generations && g.name == fs.current.name && Complete(g))
  }

  /** lib.rs `current_generation`. */
  function CurrentGeneration(fs: Fs): Option<string> {
    if fs.current.To? then Some(fs.current.name) else None
  }

  datatype Identity = NoIdentity | Identity(name: string) | InvalidIdentity

  /** lib.rs `current_identity`: the key and certificate files exist, and the
      fingerprint is valid. */
  function CurrentIdentity(fs: Fs): Identity {
    if fs.current.Absent? then NoIdentity
    else if CurrentGeneration(fs).None? then InvalidIdentity
    else if exists g :: g in fs.generations && g.name == fs.current.name
                        && !g.key.Missing? && !g.certificate.Missing? && g.fingerprint.Whole? then Identity(fs.current.name)
    else InvalidIdentity
  }

  // ----- Generation names -----

  predicate IsLowerHex(c: char) {
    '0' <= c <= '9' || 'a' <= c <= 'f'
  }

  /** lib.rs `is_generation_name`: `gen-` and sixteen lower-case digits. */
  predicate IsGenerationName(name: string) {
    |name| == 20 && name[..4] == "gen-" && forall i :: 4 <= i < 20 ==> IsLowerHex(name[i])
  }

  function HexDigit(n: nat): (c: char)
    requires n < 16
    ensures IsLowerHex(c)
  {
    if n < 10 then '0' + n as char else 'a' + (n - 10) as char
  }

  /** lib.rs `generation_name`: eight random bytes, two digits for each. */
  method GenerationName(bytes: seq<nat>) returns (name: string)
    requires |bytes| == 8 && forall i :: 0 <= i < 8 ==> bytes[i] < 256
    ensures IsGenerationName(name)
    ensures forall i :: 0 <= i < 8 ==>
                          name[4 + 2 * i] == HexDigit(bytes[i] / 16) && name[5 + 2 * i] == HexDigit(bytes[i] % 16)
  {
    name := "gen-";
    for i := 0 to 8
      invariant |name| == 4 + 2 * i && name[..4] == "gen-"
      invariant forall k :: 0 <= k < i ==>
                              name[4 + 2 * k] == HexDigit(bytes[k] / 16) && name[5 + 2 * k] == HexDigit(bytes[k] % 16)
    {
      name := name + [HexDigit(bytes[i] / 16), HexDigit(bytes[i] % 16)];
    }
    forall i | 4 <= i < 20 ensures IsLowerHex(name[i]) {
      var k := (i - 4) / 2;
      assert i == 4 + 2 * k || i == 5 + 2 * k;
      assert 0 <= k < 8 && name[4 + 2 * k] == HexDigit(bytes[k] / 16) && name[5 + 2 * k] == HexDigit(bytes[k] % 16);
    }
  }

  // ----- Steps -----

  /** All states of the directory so far, the present one last; the first
      `synced` of them cannot come back. */
  datatype World = World(past: seq<Fs>, now: Fs, synced: nat, faults: seq<Fault>, enrolled: bool) {
    predicate Valid() {
      synced <= |past|
    }

    function History(): (h: seq<Fs>)
      ensures |h| == |past| + 1 && h[|past|] == now
    {
      past + [now]
    }
  }

  /** A mode ends, fails, or the process or the machine stops inside. */
  datatype Exit = Ok | Failed | Stopped

  function Meet(w: World): (World, Fault) {
    if w.faults == [] then (w, Pass) else (w.(faults := w.faults[1..]), w.faults[0])
  }

  /** One change of the directory. */
  function Act(w: World, next: Fs): (World, Exit) {
    var (w1, fault) := Meet(w);
    match fault
    case Halt => (w1, Stopped)
    case Fail => (w1, Failed)
    case Pass => (w1.(past := w1.past + [w1.now], now := next), Ok)
  }

  /** `sync_all` of a file or a directory. */
  function Sync(w: World): (World, Exit) {
    var (w1, fault) := Meet(w);
    match fault
    case Halt => (w1, Stopped)
    case Fail => (w1, Failed)
    case Pass => (w1.(synced := |w1.past|), Ok)
  }

  /** A check or an external tool that changes nothing here. */
  function Look(w: World): (World, Exit) {
    var (w1, fault) := Meet(w);
    (w1, match fault case Halt => Stopped case Fail => Failed case Pass => Ok)
  }

  /** What is undone after a failure, as far as possible. */
  function Undo(r: (World, Exit), next: Fs): (World, Exit) {
    if r.1 != Failed then r
    else
      var (w, exit) := if next == r.0.now then Look(r.0) else Act(r.0, next);
      (w, if exit == Stopped then Stopped else Failed)
  }

  // ----- Markers -----

  function TemporaryOf(m: Marker): Temporary {
    if m.Enabled? then EnabledTemporary else ResetPendingTemporary
  }

  function CreateMarker(w: World, m: Marker): (World, Exit) {
    var (w1, looked) := Look(w);
    if looked != Ok then (w1, looked)
    else if w1.now.Has(m) then (w1, Ok)
    else
      var r := WriteMarker(w1, m);
      Undo(r, r.0.now.(temporaries := r.0.now.temporaries - {TemporaryOf(m)}))
  }

  function WriteMarker(w: World, m: Marker): (World, Exit) {
    if TemporaryOf(m) in w.now.temporaries then (w, Failed)
    else
      var (w1, created) := Act(w, w.now.(temporaries := w.now.temporaries + {TemporaryOf(m)}));
      if created != Ok then (w1, created)
      else
        var (w2, synced) := Sync(w1);
        if synced != Ok then (w2, synced)
        else
          var (w3, renamed) := Act(w2, w2.now.With(m, true).(temporaries := w2.now.temporaries - {TemporaryOf(m)}));
          if renamed != Ok then (w3, renamed) else Sync(w3)
  }

  function RemoveMarker(w: World, m: Marker): (World, Exit) {
    var (w1, looked) := Look(w);
    if looked != Ok then (w1, looked)
    else if !w1.now.Has(m) then (w1, Ok)
    else
      var (w2, removed) := Act(w1, w1.now.With(m, false));
      if removed != Ok then (w2, removed) else Sync(w2)
  }

  function RemoveTemporary(w: World, t: Temporary): (World, Exit) {
    if t in w.now.temporaries then Act(w, w.now.(temporaries := w.now.temporaries - {t})) else Look(w)
  }

  function RemoveStaleTemporaries(w: World): (World, Exit) {
    var (w1, first) := RemoveTemporary(w, EnabledTemporary);
    if first != Ok then (w1, first)
    else
      var (w2, second) := RemoveTemporary(w1, ResetPendingTemporary);
      if second != Ok then (w2, second) else RemoveTemporary(w2, CurrentTemporary)
  }

  // ----- Generations -----

  function IndexOf(generations: seq<Generation>, name: string): (k: nat)
    ensures k <= |generations|
    ensures k < |generations| ==> generations[k].name == name
    ensures forall j :: 0 <= j < k ==> generations[j].name != name
  {
    if generations == [] || generations[0].name == name then 0 else 1 + IndexOf(generations[1..], name)
  }

  function Put(fs: Fs, g: Generation): Fs {
    var k := IndexOf(fs.generations, g.name);
    if k == |fs.generations| then fs.(generations := fs.generations + [g])
    else fs.(generations := fs.generations[k := g])
  }

  function Without(fs: Fs, name: string): Fs {
    var k := IndexOf(fs.generations, name);
    if k == |fs.generations| then fs else fs.(generations := fs.generations[..k] + fs.generations[k + 1..])
  }

  /** `remove_dir_all`: the files first, then the directory. */
  function RemoveGeneration(w: World, name: string): (World, Exit) {
    var (w1, emptied) := Act(w, Put(w.now, Generation(name, Missing, Missing, Missing)));
    if emptied != Ok then (w1, emptied) else Act(w1, Without(w1.now, name))
  }

  /** The loop over the directory's entries, as listed before it. */
  function RemoveEach(w: World, names: seq<string>, removed: bool): (World, Exit)
    decreases |names|
  {
    if names == [] then if removed then Sync(w) else (w, Ok)
    else if Some(names[0]) == CurrentGeneration(w.now) then RemoveEach(w, names[1..], removed)
    else
      var (w1, gone) := RemoveGeneration(w, names[0]);
      if gone != Ok then (w1, gone) else RemoveEach(w1, names[1..], true)
  }

  function Names(generations: seq<Generation>): seq<string> {
    seq(|generations|, k requires 0 <= k < |generations| => generations[k].name)
  }

  function RemoveUnreferenced(w: World): (World, Exit) {
    var (w1, looked) := Look(w);
    if looked != Ok then (w1, looked)
    else if !w1.now.tls then (w1, Ok)
    else RemoveEach(w1, Names(w1.now.generations), false)
  }

  function EnsureTls(w: World): (World, Exit) {
    if w.now.tls then Look(w)
    else
      var (w1, made) := Act(w, w.now.(tls := true));
      if made != Ok then (w1, made) else Sync(w1)
  }

  /** How a generation's files grow. */
  function Stage(name: string, k: nat): Generation {
    Generation(name,
               if k == 0 then Missing else if k == 1 then Partial else Whole,
               if k <= 2 then Missing else if k == 3 then Partial else Whole,
               if k <= 4 then Missing else if k == 5 then Partial else Whole)
  }

  const STAGES: nat := 6

  /** Each stage of the files, with a sync once the key and the certificate are
      there and at the end. */
  function FillFrom(w: World, name: string, k: nat): (World, Exit)
    requires k <= STAGES
    decreases STAGES - k
  {
    if k == STAGES then Sync(w)
    else
      var (w1, grown) := Act(w, Put(w.now, Stage(name, k + 1)));
      if grown != Ok then (w1, grown)
      else
        var (w2, synced) := if k + 1 == 4 then Sync(w1) else (w1, Ok);
        if synced != Ok then (w2, synced) else FillFrom(w2, name, k + 1)
  }

  function RemoveFilled(r: (World, Exit), name: string): (World, Exit) {
    if r.1 != Failed then r
    else
      var (w, exit) := RemoveGeneration(r.0, name);
      (w, if exit == Stopped then Stopped else Failed)
  }

  /** `name` is what the random bytes spell. */
  function GenerateIdentity(w: World, name: string): (World, Exit) {
    var (w1, ensured) := EnsureTls(w);
    if ensured != Ok then (w1, ensured)
    else
      var (w2, cleaned) := RemoveUnreferenced(w1);
      if cleaned != Ok then (w2, cleaned)
      else if Listed(w2.now, name) then (w2, Failed)
      else
        var (w3, made) := Act(w2, Put(w2.now, Stage(name, 0)));
        if made != Ok then (w3, made) else RemoveFilled(FillFrom(w3, name, 0), name)
  }

  function SwapCurrent(w: World, name: string): (World, Exit) {
    var (w1, linked) :=
      if CurrentTemporary in w.now.temporaries then (w, Failed)
      else Act(w, w.now.(temporaries := w.now.temporaries + {CurrentTemporary}));
    var r := if linked != Ok then (w1, linked)
             else
               var (w2, renamed) := Act(w1, w1.now.(temporaries := w1.now.temporaries - {CurrentTemporary}, current := To(name)));
               if renamed != Ok then (w2, renamed) else Sync(w2);
    Undo(r, r.0.now.(temporaries := r.0.now.temporaries - {CurrentTemporary}))
  }

  function RemoveCurrent(w: World): (World, Exit) {
    if w.now.current.Absent? then Look(w)
    else
      var (w1, removed) := Act(w, w.now.(current := Absent));
      if removed != Ok then (w1, removed) else Sync(w1)
  }

  // ----- Modes -----

  datatype Mode = Enable | Disable | RotateTls | BootReset | ClearResetPending

  function Rotate(w: World, name: string): (World, Exit) {
    var (w1, generated) := GenerateIdentity(w, name);
    if generated != Ok then (w1, generated)
    else
      var (w2, swapped) := SwapCurrent(w1, name);
      if swapped != Ok then (w2, swapped) else RemoveUnreferenced(w2)
  }

  function EnableMode(w: World, name: string): (World, Exit) {
    var (w1, looked) := Look(w);
    if looked != Ok then (w1, looked)
    else if w1.now.pending then (w1, Failed)
    else
      match CurrentIdentity(w1.now)
      case Identity(_) => CreateMarker(w1, Enabled)
      case InvalidIdentity => (w1, Failed)
      case NoIdentity =>
        var (w2, rotated) := Rotate(w1, name);
        if rotated != Ok then (w2, rotated) else CreateMarker(w2, Enabled)
  }

  /** `ResetEnrollment` of sl-authd, which is durable once it succeeds; a
      failure may have come after it took effect, too. */
  function ResetEnrollment(w: World, lost: bool): (World, Exit) {
    var (w1, r) := Look(w);
    (if r == Ok || lost then w1.(enrolled := false) else w1, r)
  }

  function BootResetMode(w: World, lost: bool): (World, Exit) {
    var (w1, created) := CreateMarker(w, ResetPending);
    if created != Ok then (w1, created)
    else
      var (w2, discarded) := Discard(w1, lost);
      if discarded != Ok then (w2, discarded) else RemoveMarker(w2, ResetPending)
  }

  /** What a boot reset does while its marker is there. */
  function Discard(w: World, lost: bool): (World, Exit) {
    var (w1, removed) := RemoveCurrent(w);
    if removed != Ok then (w1, removed)
    else
      var (w2, reset) := ResetEnrollment(w1, lost);
      if reset != Ok then (w2, reset) else RemoveUnreferenced(w2)
  }

  function Run(w: World, mode: Mode, name: string, lost: bool): (World, Exit) {
    var (w1, tidied) := RemoveStaleTemporaries(w);
    if tidied != Ok then (w1, tidied)
    else
      match mode
      case Enable => EnableMode(w1, name)
      case Disable => RemoveMarker(w1, Enabled)
      case RotateTls => Rotate(w1, name)
      case BootReset => BootResetMode(w1, lost)
      case ClearResetPending => RemoveMarker(w1, ResetPending)
  }
}
