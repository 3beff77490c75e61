/** What every prefix of every worker run keeps, whatever fails and wherever it
    stops. */
module RemoteTheorems {
  import opened Durable
  import opened Prelude
  import opened RemoteState

  predicate DistinctNames(generations: seq<Generation>) {
    forall i, j :: 0 <= i < j < |generations| ==> generations[i].name != generations[j].name
  }

  predicate Distinct(fs: Fs) {
    DistinctNames(fs.generations)
  }

  /** What a file system can look like. */
  predicate WellFormed(fs: Fs) {
    Distinct(fs) && (!fs.tls ==> fs.generations == [] && fs.current.Absent?)
  }

  /** The kinds of change that the modes make. */
  datatype Kind = Tidy | SetEnabled | ClearEnabled | SetPending | ClearPending | DropCurrent | Swap | Rewrite

  /** One step of this kind; the generation that `current` names is never touched. */
  ghost predicate By(kind: Kind, a: Fs, b: Fs) {
    match kind
    case Tidy => b == a.(temporaries := b.temporaries)
    case SetEnabled =>
      b == a.(temporaries := b.temporaries, enabled := true) && !a.pending && CurrentIdentity(a).Identity?
    case ClearEnabled => b == a.(enabled := false)
    case SetPending => b == a.(temporaries := b.temporaries, pending := true)
    case ClearPending => b == a.(pending := false)
    case DropCurrent => b == a.(current := Absent) && a.pending
    case Swap => b == a.(temporaries := b.temporaries, current := b.current) && b.current.To? && Good(b)
    case Rewrite =>
      && b == a.(tls := b.tls, generations := b.generations) && (WellFormed(a) ==> WellFormed(b))
      && forall g: Generation :: Some(g.name) == CurrentGeneration(a) ==> (g in a.generations <==> g in b.generations)
  }

  ghost predicate Allowed(kinds: set<Kind>, a: Fs, b: Fs) {
    exists kind :: kind in kinds && By(kind, a, b)
  }

  /** `v` comes after `w`, by steps of these kinds only. */
  ghost predicate Follows(w: World, v: World, kinds: set<Kind>) {
    && w.Valid() && v.Valid() && w.synced <= v.synced && w.History() <= v.History()
    && forall k :: |w.past| <= k < |v.past| ==> Allowed(kinds, v.History()[k], v.History()[k + 1])
  }

  lemma Stays(w: World, v: World, kinds: set<Kind>)
    requires w.Valid() && v.past == w.past && v.now == w.now && w.synced <= v.synced <= |w.past|
    ensures Follows(w, v, kinds)
  {
  }

  lemma Steps(w: World, v: World, kinds: set<Kind>, kind: Kind)
    requires w.Valid() && v.past == w.History() && v.synced == w.synced && kind in kinds && By(kind, w.now, v.now)
    ensures Follows(w, v, kinds)
  {
    var h := v.History();
    assert h[|w.past|] == w.now && h[|w.past| + 1] == v.now;
  }

  lemma Chains(w: World, u: World, v: World, kinds: set<Kind>)
    requires Follows(w, u, kinds) && Follows(u, v, kinds)
    ensures Follows(w, v, kinds)
  {
    var h := v.History();
    forall k | |w.past| <= k < |v.past| ensures Allowed(kinds, h[k], h[k + 1]) {
      if k < |u.past| {
        assert h[k] == u.History()[k] && h[k + 1] == u.History()[k + 1];
      }
    }
  }

  lemma Widens(w: World, v: World, kinds: set<Kind>, more: set<Kind>)
    requires Follows(w, v, kinds) && kinds <= more
    ensures Follows(w, v, more)
  {
    var h := v.History();
    forall k | |w.past| <= k < |v.past| ensures Allowed(more, h[k], h[k + 1]) {
      assert Allowed(kinds, h[k], h[k + 1]);
    }
  }

  lemma FollowsValid(w: World, v: World, kinds: set<Kind>)
    requires Follows(w, v, kinds)
    ensures w.Valid() && v.Valid() && |w.past| <= |v.past| && w.synced <= v.synced
  {
    assert |w.History()| <= |v.History()|;
  }

  // ----- The steps of each part -----

  lemma ActFollows(w: World, next: Fs, kinds: set<Kind>, kind: Kind)
    requires w.Valid() && kind in kinds && By(kind, w.now, next)
    ensures Follows(w, Act(w, next).0, kinds)
    ensures Act(w, next).1 == Ok ==> Act(w, next).0.now == next
    ensures Act(w, next).1 != Ok ==> Act(w, next).0.now == w.now
    ensures Act(w, next).0.enrolled == w.enrolled
  {
    var v := Act(w, next).0;
    if Act(w, next).1 == Ok { Steps(w, v, kinds, kind); } else { Stays(w, v, kinds); }
  }

  lemma SyncFollows(w: World, kinds: set<Kind>)
    requires w.Valid()
    ensures Follows(w, Sync(w).0, kinds) && Sync(w).0.now == w.now && Sync(w).0.enrolled == w.enrolled
    ensures Sync(w).1 == Ok ==> Sync(w).0.synced == |Sync(w).0.past|
  {
    Stays(w, Sync(w).0, kinds);
  }

  lemma LookFollows(w: World, kinds: set<Kind>)
    requires w.Valid()
    ensures Follows(w, Look(w).0, kinds) && Look(w).0.now == w.now && Look(w).0.enrolled == w.enrolled
    ensures Look(w).0.synced == w.synced && Look(w).0.past == w.past
  {
    Stays(w, Look(w).0, kinds);
  }

  lemma UndoFollows(w: World, r: (World, Exit), next: Fs, kinds: set<Kind>)
    requires Follows(w, r.0, kinds) && Tidy in kinds && By(Tidy, r.0.now, next)
    ensures Follows(w, Undo(r, next).0, kinds)
    ensures Undo(r, next).1 == Ok <==> r.1 == Ok
    ensures r.1 == Ok ==> Undo(r, next) == r
    ensures Undo(r, next).0.enrolled == r.0.enrolled
    ensures By(Tidy, r.0.now, Undo(r, next).0.now)
  {
    hide Follows;
    FollowsValid(w, r.0, kinds);
    if r.1 == Failed {
      if next == r.0.now { LookFollows(r.0, kinds); } else { ActFollows(r.0, next, kinds, Tidy); }
      Chains(w, r.0, Undo(r, next).0, kinds);
    }
  }

  function SetKind(m: Marker): Kind {
    if m.Enabled? then SetEnabled else SetPending
  }

  function ClearKind(m: Marker): Kind {
    if m.Enabled? then ClearEnabled else ClearPending
  }

  /** What a marker's part leaves of the rest. */
  ghost predicate OnlyMarker(m: Marker, a: Fs, b: Fs) {
    b == a.With(m, b.Has(m)).(temporaries := b.temporaries)
  }

  lemma WriteMarkerFollows(w: World, m: Marker)
    requires w.Valid() && (m.Enabled? ==> !w.now.pending && CurrentIdentity(w.now).Identity?)
    ensures var r := WriteMarker(w, m);
            && Follows(w, r.0, {Tidy, SetKind(m)}) && OnlyMarker(m, w.now, r.0.now) && r.0.enrolled == w.enrolled
            && (r.1 == Ok ==> r.0.now.Has(m) && r.0.synced == |r.0.past|)
  {
    hide Follows;
    var kinds := {Tidy, SetKind(m)};
    Stays(w, w, kinds);
    if TemporaryOf(m) !in w.now.temporaries {
      var next := w.now.(temporaries := w.now.temporaries + {TemporaryOf(m)});
      ActFollows(w, next, kinds, Tidy);
      var (w1, created) := Act(w, next);
      if created == Ok {
        SyncFollows(w1, kinds);
        Chains(w, w1, Sync(w1).0, kinds);
        if Sync(w1).1 == Ok { InstallMarkerFollows(w, Sync(w1).0, m); }
      }
    }
  }

  lemma InstallMarkerFollows(w: World, w2: World, m: Marker)
    requires Follows(w, w2, {Tidy, SetKind(m)}) && By(Tidy, w.now, w2.now) && w2.enrolled == w.enrolled
    requires m.Enabled? ==> !w.now.pending && CurrentIdentity(w.now).Identity?
    ensures var (w3, renamed) := Act(w2, w2.now.With(m, true).(temporaries := w2.now.temporaries - {TemporaryOf(m)}));
            var r := if renamed != Ok then (w3, renamed) else Sync(w3);
            && Follows(w, r.0, {Tidy, SetKind(m)}) && OnlyMarker(m, w.now, r.0.now) && r.0.enrolled == w.enrolled
            && (r.1 == Ok ==> r.0.now.Has(m) && r.0.synced == |r.0.past|)
  {
    hide Follows;
    FollowsValid(w, w2, {Tidy, SetKind(m)});
    var kinds := {Tidy, SetKind(m)};
    var next := w2.now.With(m, true).(temporaries := w2.now.temporaries - {TemporaryOf(m)});
    ActFollows(w2, next, kinds, SetKind(m));
    var (w3, renamed) := Act(w2, next);
    Chains(w, w2, w3, kinds);
    SyncFollows(w3, kinds);
    Chains(w, w3, Sync(w3).0, kinds);
  }

  lemma CreateMarkerFollows(w: World, m: Marker)
    requires w.Valid() && (m.Enabled? ==> !w.now.pending && CurrentIdentity(w.now).Identity?)
    ensures var r := CreateMarker(w, m);
            && Follows(w, r.0, {Tidy, SetKind(m)}) && OnlyMarker(m, w.now, r.0.now) && r.0.enrolled == w.enrolled
            && (r.1 == Ok ==> r.0.now.Has(m) && (w.now.Has(m) || r.0.synced == |r.0.past|))
            && (w.now.Has(m) ==> r.0.now == w.now)
  {
    hide Follows;
    var kinds := {Tidy, SetKind(m)};
    LookFollows(w, kinds);
    var w1 := Look(w).0;
    if Look(w).1 == Ok && !w.now.Has(m) {
      WriteMarkerFollows(w1, m);
      var r := WriteMarker(w1, m);
      Chains(w, w1, r.0, kinds);
      UndoFollows(w, r, r.0.now.(temporaries := r.0.now.temporaries - {TemporaryOf(m)}), kinds);
    }
  }

  lemma RemoveMarkerFollows(w: World, m: Marker)
    requires w.Valid()
    ensures var r := RemoveMarker(w, m);
            && Follows(w, r.0, {ClearKind(m)}) && r.0.now == w.now.With(m, r.0.now.Has(m)) && r.0.enrolled == w.enrolled
            && (r.1 == Ok ==> !r.0.now.Has(m) && (!w.now.Has(m) || r.0.synced == |r.0.past|))
            && |r.0.past| <= |w.past| + 1
  {
    hide Follows;
    var kinds := {ClearKind(m)};
    LookFollows(w, kinds);
    var w1 := Look(w).0;
    if Look(w).1 == Ok && w.now.Has(m) {
      ActFollows(w1, w1.now.With(m, false), kinds, ClearKind(m));
      var (w2, removed) := Act(w1, w1.now.With(m, false));
      Chains(w, w1, w2, kinds);
      SyncFollows(w2, kinds);
      Chains(w, w2, Sync(w2).0, kinds);
    }
  }

  lemma RemoveTemporaryFollows(w: World, t: Temporary)
    requires w.Valid()
    ensures var r := RemoveTemporary(w, t);
            && Follows(w, r.0, {Tidy}) && By(Tidy, w.now, r.0.now) && r.0.enrolled == w.enrolled
            && r.0.now.temporaries <= w.now.temporaries && (r.1 == Ok ==> t !in r.0.now.temporaries)
  {
    hide Follows;
    if t in w.now.temporaries {
      ActFollows(w, w.now.(temporaries := w.now.temporaries - {t}), {Tidy}, Tidy);
    } else {
      LookFollows(w, {Tidy});
    }
  }

  lemma RemoveStaleFollows(w: World)
    requires w.Valid()
    ensures var r := RemoveStaleTemporaries(w);
            && Follows(w, r.0, {Tidy}) && By(Tidy, w.now, r.0.now) && r.0.enrolled == w.enrolled
            && (r.1 == Ok ==> r.0.now.temporaries == {})
  {
    hide Follows;
    RemoveTemporaryFollows(w, EnabledTemporary);
    var w1 := RemoveTemporary(w, EnabledTemporary).0;
    RemoveTemporaryFollows(w1, ResetPendingTemporary);
    var w2 := RemoveTemporary(w1, ResetPendingTemporary).0;
    RemoveTemporaryFollows(w2, CurrentTemporary);
    Chains(w, w1, w2, {Tidy});
    Chains(w, w2, RemoveTemporary(w2, CurrentTemporary).0, {Tidy});
    NoTemporary(RemoveStaleTemporaries(w).0.now.temporaries);
  }

  lemma NoTemporary(temporaries: set<Temporary>)
    ensures EnabledTemporary !in temporaries && ResetPendingTemporary !in temporaries && CurrentTemporary !in temporaries
            ==> temporaries == {}
  {
    if temporaries != {} {
      var t :| t in temporaries;
      assert t.EnabledTemporary? || t.ResetPendingTemporary? || t.CurrentTemporary?;
    }
  }

  // ----- Generations -----

  /** Only generations differ, and not the one that `current` names. */
  ghost predicate OnlyGenerations(a: Fs, b: Fs) {
    && b == a.(generations := b.generations) && (WellFormed(a) ==> WellFormed(b))
    && forall g: Generation :: Some(g.name) == CurrentGeneration(a) ==> (g in a.generations <==> g in b.generations)
  }

  lemma PutChanges(fs: Fs, g: Generation)
    requires Some(g.name) != CurrentGeneration(fs) && fs.tls
    ensures OnlyGenerations(fs, Put(fs, g)) && By(Rewrite, fs, Put(fs, g))
    ensures g in Put(fs, g).generations
    ensures forall n :: Listed(Put(fs, g), n) <==> Listed(fs, n) || n == g.name
    ensures forall h :: h in fs.generations && h.name != g.name ==> h in Put(fs, g).generations
  {
    var k, after := IndexOf(fs.generations, g.name), Put(fs, g).generations;
    assert after[k] == g;
    forall h | h in fs.generations && h.name != g.name ensures h in after {
      var j :| 0 <= j < |fs.generations| && fs.generations[j] == h;
      assert after[j] == h;
    }
    forall h | h in after && h != g ensures h in fs.generations {
      var j :| 0 <= j < |after| && after[j] == h;
    }
    forall n ensures Listed(Put(fs, g), n) <==> Listed(fs, n) || n == g.name {
      if n != g.name && Listed(fs, n) {
        var h :| h in fs.generations && h.name == n;
        assert h in after;
      }
    }
  }

  lemma WithoutChanges(fs: Fs, name: string)
    requires Some(name) != CurrentGeneration(fs)
    ensures OnlyGenerations(fs, Without(fs, name)) && By(Rewrite, fs, Without(fs, name))
    ensures forall h :: h in Without(fs, name).generations ==> h in fs.generations
    ensures forall h :: h in fs.generations && h.name != name ==> h in Without(fs, name).generations
    ensures Distinct(fs) ==> !Listed(Without(fs, name), name)
  {
    var k := IndexOf(fs.generations, name);
    if k < |fs.generations| {
      RemovedAt(fs.generations, k);
    }
  }

  lemma RemovedAt(before: seq<Generation>, k: nat)
    requires k < |before|
    ensures var after := before[..k] + before[k + 1..];
            && (forall h :: h in after ==> h in before)
            && (forall h :: h in before && h.name != before[k].name ==> h in after)
            && (DistinctNames(before) ==> DistinctNames(after) && forall h :: h in after ==> h.name != before[k].name)
  {
    var after := before[..k] + before[k + 1..];
    assert forall j :: 0 <= j < |after| ==> after[j] == before[if j < k then j else j + 1];
    forall h | h in before && h.name != before[k].name ensures h in after {
      var j :| 0 <= j < |before| && before[j] == h;
      assert after[if j < k then j else j - 1] == h;
    }
  }

  ghost predicate Settled(w: World) {
    w.synced == |w.past|
  }

  lemma RemoveGenerationFollows(w: World, name: string)
    requires w.Valid() && Some(name) != CurrentGeneration(w.now) && w.now.tls
    ensures var r := RemoveGeneration(w, name);
            && Follows(w, r.0, {Rewrite}) && OnlyGenerations(w.now, r.0.now) && r.0.enrolled == w.enrolled
            && (forall n :: Listed(r.0.now, n) ==> Listed(w.now, n) || n == name)
            && (r.1 == Ok && Distinct(w.now) ==> !Listed(r.0.now, name))
  {
    hide Follows, OnlyGenerations, Distinct;
    EmptiedFollows(w, name);
    var (w1, exit) := Act(w, Put(w.now, Generation(name, Missing, Missing, Missing)));
    if exit == Ok {
      DroppedFollows(w1, name);
      Chains(w, w1, RemoveGeneration(w, name).0, {Rewrite});
      OnlyGenerationsChains(w.now, w1.now, RemoveGeneration(w, name).0.now);
    }
  }

  lemma EmptiedFollows(w: World, name: string)
    requires w.Valid() && Some(name) != CurrentGeneration(w.now) && w.now.tls
    ensures var (w1, exit) := Act(w, Put(w.now, Generation(name, Missing, Missing, Missing)));
            && Follows(w, w1, {Rewrite}) && w1.Valid() && OnlyGenerations(w.now, w1.now) && w1.enrolled == w.enrolled
            && w1.now.tls && w1.now.current == w.now.current && (Distinct(w.now) ==> Distinct(w1.now))
            && (forall n :: Listed(w1.now, n) ==> Listed(w.now, n) || n == name)
  {
    hide Follows;
    var emptied := Put(w.now, Generation(name, Missing, Missing, Missing));
    PutChanges(w.now, Generation(name, Missing, Missing, Missing));
    ActFollows(w, emptied, {Rewrite}, Rewrite);
    FollowsValid(w, Act(w, emptied).0, {Rewrite});
  }

  lemma DroppedFollows(w: World, name: string)
    requires w.Valid() && Some(name) != CurrentGeneration(w.now) && w.now.tls
    ensures var (w1, exit) := Act(w, Without(w.now, name));
            && Follows(w, w1, {Rewrite}) && OnlyGenerations(w.now, w1.now) && w1.enrolled == w.enrolled
            && (forall n :: Listed(w1.now, n) ==> Listed(w.now, n))
            && (exit == Ok && Distinct(w.now) ==> !Listed(w1.now, name))
  {
    hide Follows;
    WithoutChanges(w.now, name);
    ActFollows(w, Without(w.now, name), {Rewrite}, Rewrite);
    OnlyGenerationsItself(w.now);
  }

  lemma OnlyGenerationsChains(a: Fs, b: Fs, c: Fs)
    requires OnlyGenerations(a, b) && OnlyGenerations(b, c)
    ensures OnlyGenerations(a, c)
  {
  }

  lemma {:induction false} RemoveEachFollows(w: World, names: seq<string>, removed: bool)
    requires w.Valid() && w.now.tls
    ensures var r := RemoveEach(w, names, removed);
            && Follows(w, r.0, {Rewrite}) && OnlyGenerations(w.now, r.0.now) && r.0.enrolled == w.enrolled
            && (forall n :: Listed(r.0.now, n) ==> Listed(w.now, n) || n in names)
            && (r.1 == Ok && WellFormed(w.now) ==>
                  forall n :: n in names && Some(n) != CurrentGeneration(w.now) ==> !Listed(r.0.now, n))
            && (r.1 == Ok && (removed || Settled(w)) ==> Settled(r.0))
    decreases |names|
  {
    hide Follows;
    if names == [] {
      SyncFollows(w, {Rewrite});
      FollowsItself(w, {Rewrite});
    } else if Some(names[0]) == CurrentGeneration(w.now) {
      RemoveEachFollows(w, names[1..], removed);
    } else {
      RemoveGenerationFollows(w, names[0]);
      var (w1, gone) := RemoveGeneration(w, names[0]);
      if gone == Ok {
        FollowsValid(w, w1, {Rewrite});
        RemoveEachFollows(w1, names[1..], true);
        var v := RemoveEach(w1, names[1..], true).0;
        Chains(w, w1, v, {Rewrite});
        OnlyGenerationsChains(w.now, w1.now, v.now);
      }
    }
  }

  lemma FollowsItself(w: World, kinds: set<Kind>)
    requires w.Valid()
    ensures Follows(w, w, kinds)
  {
    Stays(w, w, kinds);
  }

  lemma NamesAreListed(fs: Fs)
    ensures forall n :: Listed(fs, n) <==> n in Names(fs.generations)
  {
    var names := Names(fs.generations);
    forall n ensures Listed(fs, n) <==> n in names {
      if Listed(fs, n) {
        var g :| g in fs.generations && g.name == n;
        var j :| 0 <= j < |fs.generations| && fs.generations[j] == g;
        assert names[j] == n;
      }
      if n in names {
        var j :| 0 <= j < |names| && names[j] == n;
        assert fs.generations[j] in fs.generations;
      }
    }
  }

  /** The cleanup keeps the referenced generation, and if it succeeds no other
      is left. */
  lemma RemoveUnreferencedFollows(w: World)
    requires w.Valid() && WellFormed(w.now)
    ensures var r := RemoveUnreferenced(w);
            && Follows(w, r.0, {Rewrite}) && OnlyGenerations(w.now, r.0.now) && r.0.enrolled == w.enrolled
            && (r.1 == Ok ==> forall g :: g in r.0.now.generations ==> Some(g.name) == CurrentGeneration(w.now))
            && (r.1 == Ok && Settled(w) ==> Settled(r.0))
  {
    hide Follows;
    LookFollows(w, {Rewrite});
    var (w1, looked) := Look(w);
    if looked == Ok && w1.now.tls {
      FollowsValid(w, w1, {Rewrite});
      NamesAreListed(w1.now);
      RemoveEachFollows(w1, Names(w1.now.generations), false);
      var r := RemoveEach(w1, Names(w1.now.generations), false);
      Chains(w, w1, r.0, {Rewrite});
      forall g | r.1 == Ok && g in r.0.now.generations ensures Some(g.name) == CurrentGeneration(w.now) {
        assert Listed(r.0.now, g.name);
      }
    }
  }

  // ----- A new identity -----

  lemma EnsureTlsFollows(w: World)
    requires w.Valid() && WellFormed(w.now)
    ensures var r := EnsureTls(w);
            && Follows(w, r.0, {Rewrite}) && r.0.now == w.now.(tls := r.0.now.tls) && r.0.enrolled == w.enrolled
            && WellFormed(r.0.now) && (r.1 == Ok ==> r.0.now.tls && (w.now.tls || Settled(r.0)))
  {
    hide Follows;
    if w.now.tls {
      LookFollows(w, {Rewrite});
    } else {
      ActFollows(w, w.now.(tls := true), {Rewrite}, Rewrite);
      var w1 := Act(w, w.now.(tls := true)).0;
      FollowsValid(w, w1, {Rewrite});
      SyncFollows(w1, {Rewrite});
      Chains(w, w1, Sync(w1).0, {Rewrite});
    }
  }

  lemma GrowFollows(w: World, name: string, k: nat)
    requires w.Valid() && w.now.tls && Some(name) != CurrentGeneration(w.now) && k < STAGES
    ensures var (w1, grown) := Act(w, Put(w.now, Stage(name, k + 1)));
            var (w2, synced) := if k + 1 == 4 then Sync(w1) else (w1, Ok);
            && Follows(w, w1, {Rewrite}) && Follows(w, w2, {Rewrite}) && w1.Valid() && w2.Valid()
            && OnlyGenerations(w.now, w1.now) && w2.now == w1.now && w1.enrolled == w2.enrolled == w.enrolled
            && (forall n :: Listed(w1.now, n) ==> Listed(w.now, n) || n == name)
            && w1.now.tls && CurrentGeneration(w1.now) == CurrentGeneration(w.now)
            && (grown == Ok ==> Stage(name, k + 1) in w1.now.generations)
  {
    hide Follows;
    PutChanges(w.now, Stage(name, k + 1));
    ActFollows(w, Put(w.now, Stage(name, k + 1)), {Rewrite}, Rewrite);
    var w1 := Act(w, Put(w.now, Stage(name, k + 1))).0;
    FollowsValid(w, w1, {Rewrite});
    SyncFollows(w1, {Rewrite});
    Chains(w, w1, Sync(w1).0, {Rewrite});
    FollowsValid(w1, Sync(w1).0, {Rewrite});
  }

  lemma {:induction false} FillFollows(w: World, name: string, k: nat)
    requires w.Valid() && w.now.tls && Some(name) != CurrentGeneration(w.now) && k <= STAGES && Stage(name, k) in w.now.generations
    ensures var r := FillFrom(w, name, k);
            && Follows(w, r.0, {Rewrite}) && OnlyGenerations(w.now, r.0.now) && r.0.enrolled == w.enrolled
            && (forall n :: Listed(r.0.now, n) ==> Listed(w.now, n) || n == name)
            && (r.1 == Ok ==> Settled(r.0) && Stage(name, STAGES) in r.0.now.generations)
    decreases STAGES - k
  {
    hide Follows, OnlyGenerations, Settled;
    if k == STAGES {
      SyncFollows(w, {Rewrite});
      OnlyGenerationsItself(w.now);
      SyncSettles(w);
    } else {
      GrowFollows(w, name, k);
      var (w1, grown) := Act(w, Put(w.now, Stage(name, k + 1)));
      var (w2, synced) := if k + 1 == 4 then Sync(w1) else (w1, Ok);
      if grown == Ok && synced == Ok {
        FillFollows(w2, name, k + 1);
        Chains(w, w2, FillFrom(w2, name, k + 1).0, {Rewrite});
        OnlyGenerationsChains(w.now, w1.now, FillFrom(w2, name, k + 1).0.now);
      }
    }
  }

  lemma OnlyGenerationsItself(fs: Fs)
    ensures OnlyGenerations(fs, fs)
  {
  }

  lemma SyncSettles(w: World)
    ensures Sync(w).1 == Ok ==> Settled(Sync(w).0)
  {
  }

  /** The name is not the one that `current` has, as the random bytes make it. */
  ghost predicate Fresh(fs: Fs, name: string) {
    Good(fs) || Some(name) != CurrentGeneration(fs)
  }

  /** What making an identity leaves unchanged. */
  ghost predicate OnlyTls(a: Fs, b: Fs) {
    b == a.(tls := b.tls, generations := b.generations) && WellFormed(b)
  }

  lemma GenerateFollows(w: World, name: string)
    requires w.Valid() && WellFormed(w.now) && Fresh(w.now, name)
    ensures var r := GenerateIdentity(w, name);
            && Follows(w, r.0, {Rewrite}) && OnlyTls(w.now, r.0.now) && r.0.enrolled == w.enrolled
            && (r.1 == Ok ==> Settled(r.0) && Stage(name, STAGES) in r.0.now.generations && r.0.now.tls
                              && Some(name) != CurrentGeneration(w.now))
  {
    hide Follows;
    EnsureTlsFollows(w);
    var (w1, ensured) := EnsureTls(w);
    if ensured == Ok {
      FollowsValid(w, w1, {Rewrite});
      RemoveUnreferencedFollows(w1);
      var (w2, cleaned) := RemoveUnreferenced(w1);
      Chains(w, w1, w2, {Rewrite});
      if cleaned == Ok && !Listed(w2.now, name) {
        FollowsValid(w1, w2, {Rewrite});
        StillFresh(w.now, w2.now, name);
        MakeFollows(w2, name);
        var v := GenerateIdentity(w, name).0;
        Chains(w, w2, v, {Rewrite});
      }
    }
  }

  lemma StillFresh(a: Fs, b: Fs, name: string)
    requires Fresh(a, name) && b.current == a.current && !Listed(b, name)
    requires forall g: Generation :: Some(g.name) == CurrentGeneration(a) && g in a.generations ==> g in b.generations
    ensures Some(name) != CurrentGeneration(b)
  {
  }

  lemma MakeFollows(w2: World, name: string)
    requires w2.Valid() && WellFormed(w2.now) && w2.now.tls && Some(name) != CurrentGeneration(w2.now)
    ensures var (w3, made) := Act(w2, Put(w2.now, Stage(name, 0)));
            var r := if made != Ok then (w3, made) else RemoveFilled(FillFrom(w3, name, 0), name);
            && Follows(w2, r.0, {Rewrite}) && OnlyGenerations(w2.now, r.0.now) && r.0.enrolled == w2.enrolled
            && (r.1 == Ok ==> Settled(r.0) && Stage(name, STAGES) in r.0.now.generations)
  {
    hide Follows;
    PutChanges(w2.now, Stage(name, 0));
    ActFollows(w2, Put(w2.now, Stage(name, 0)), {Rewrite}, Rewrite);
    var (w3, made) := Act(w2, Put(w2.now, Stage(name, 0)));
    if made == Ok {
      FollowsValid(w2, w3, {Rewrite});
      FillFollows(w3, name, 0);
      var f := FillFrom(w3, name, 0);
      Chains(w2, w3, f.0, {Rewrite});
      OnlyGenerationsChains(w2.now, w3.now, f.0.now);
      if f.1 == Failed {
        FollowsValid(w3, f.0, {Rewrite});
        RemoveGenerationFollows(f.0, name);
        Chains(w2, f.0, RemoveFilled(f, name).0, {Rewrite});
        OnlyGenerationsChains(w2.now, f.0.now, RemoveFilled(f, name).0.now);
      }
    }
  }

  lemma SwapFollows(w: World, name: string)
    requires w.Valid() && w.now.tls && Stage(name, STAGES) in w.now.generations
    ensures var r := SwapCurrent(w, name);
            && Follows(w, r.0, {Tidy, Swap}) && r.0.enrolled == w.enrolled
            && r.0.now == w.now.(temporaries := r.0.now.temporaries, current := r.0.now.current)
            && (r.0.now.current == w.now.current || r.0.now.current == To(name))
            && (r.1 == Ok ==> Settled(r.0) && r.0.now.current == To(name))
  {
    hide Follows;
    var kinds := {Tidy, Swap};
    var next := w.now.(temporaries := w.now.temporaries + {CurrentTemporary});
    ActFollows(w, next, kinds, Tidy);
    FollowsItself(w, kinds);
    var (w1, linked) := if CurrentTemporary in w.now.temporaries then (w, Failed) else Act(w, next);
    FollowsValid(w, w1, kinds);
    var swapped := w1.now.(temporaries := w1.now.temporaries - {CurrentTemporary}, current := To(name));
    SwappedIsGood(w1.now, swapped, name);
    ActFollows(w1, swapped, kinds, Swap);
    var (w2, renamed) := Act(w1, swapped);
    Chains(w, w1, w2, kinds);
    FollowsValid(w1, w2, kinds);
    SyncFollows(w2, kinds);
    Chains(w, w2, Sync(w2).0, kinds);
    var r := if linked != Ok then (w1, linked) else if renamed != Ok then (w2, renamed) else Sync(w2);
    UndoFollows(w, r, r.0.now.(temporaries := r.0.now.temporaries - {CurrentTemporary}), kinds);
  }

  lemma SwappedIsGood(a: Fs, b: Fs, name: string)
    requires Stage(name, STAGES) in a.generations
    requires b == a.(temporaries := b.temporaries, current := To(name))
    ensures By(Swap, a, b) && Good(b)
  {
  }

  const ROTATION := {Tidy, Rewrite, Swap}

  /** A rotation that succeeds leaves exactly one generation, a complete one
      with a new name, and all of it is durable. */
  ghost predicate Rotated(before: Fs, after: Fs, name: string) {
    && after.current == To(name) && after.generations == [Stage(name, STAGES)]
    && CurrentGeneration(before) != Some(name)
  }

  /** What a rotation leaves unchanged. */
  ghost predicate OnlyIdentity(a: Fs, b: Fs) {
    && b == a.(temporaries := b.temporaries, tls := b.tls, generations := b.generations, current := b.current)
    && WellFormed(b)
  }

  lemma RotateFollows(w: World, name: string)
    requires w.Valid() && WellFormed(w.now) && Fresh(w.now, name)
    ensures var r := Rotate(w, name);
            && Follows(w, r.0, ROTATION) && OnlyIdentity(w.now, r.0.now) && r.0.enrolled == w.enrolled
            && (r.1 == Ok ==> Settled(r.0) && Rotated(w.now, r.0.now, name))
  {
    hide Follows;
    GenerateFollows(w, name);
    var (w1, generated) := GenerateIdentity(w, name);
    Widens(w, w1, {Rewrite}, ROTATION);
    FollowsValid(w, w1, ROTATION);
    if generated == Ok {
      SwapFollows(w1, name);
      var (w2, swapped) := SwapCurrent(w1, name);
      Widens(w1, w2, {Tidy, Swap}, ROTATION);
      Chains(w, w1, w2, ROTATION);
      FollowsValid(w1, w2, ROTATION);
      if swapped == Ok {
        RemoveUnreferencedFollows(w2);
        var v := RemoveUnreferenced(w2).0;
        Widens(w2, v, {Rewrite}, ROTATION);
        Chains(w, w2, v, ROTATION);
        if RemoveUnreferenced(w2).1 == Ok {
          OnlyOne(v.now, name);
        }
      }
    }
  }

  lemma OnlyOne(fs: Fs, name: string)
    requires Distinct(fs) && Stage(name, STAGES) in fs.generations
    requires forall g :: g in fs.generations ==> g.name == name
    ensures fs.generations == [Stage(name, STAGES)]
  {
    var last := |fs.generations| - 1;
    assert fs.generations[0] in fs.generations && fs.generations[last] in fs.generations;
    assert fs.generations[0].name == fs.generations[last].name;
  }

  // ----- Modes -----

  lemma EnableFollows(w: World, name: string)
    requires w.Valid() && WellFormed(w.now)
    ensures var r := EnableMode(w, name);
            && Follows(w, r.0, ROTATION + {SetEnabled}) && WellFormed(r.0.now) && r.0.enrolled == w.enrolled
            && (r.1 == Ok ==> r.0.now.enabled && CurrentIdentity(r.0.now).Identity? && !r.0.now.pending)
            && (CurrentIdentity(w.now).Identity? ==> r.0.now.current == w.now.current && r.0.now.generations == w.now.generations)
  {
    hide Follows;
    var kinds := ROTATION + {SetEnabled};
    LookFollows(w, kinds);
    var (w1, looked) := Look(w);
    if looked == Ok && !w.now.pending {
      if CurrentIdentity(w.now).Identity? {
        EnableMarkerFollows(w, w1);
      } else if CurrentIdentity(w.now).NoIdentity? {
        RotateFollows(w1, name);
        var (w2, rotated) := Rotate(w1, name);
        Widens(w1, w2, ROTATION, kinds);
        Chains(w, w1, w2, kinds);
        FollowsValid(w1, w2, kinds);
        if rotated == Ok { EnableMarkerFollows(w, w2); }
      }
    }
  }

  lemma EnableMarkerFollows(w: World, u: World)
    requires Follows(w, u, ROTATION + {SetEnabled}) && WellFormed(u.now) && !u.now.pending && CurrentIdentity(u.now).Identity?
    ensures var r := CreateMarker(u, Enabled);
            && Follows(w, r.0, ROTATION + {SetEnabled}) && WellFormed(r.0.now) && r.0.enrolled == u.enrolled
            && r.0.now == u.now.(enabled := r.0.now.enabled, temporaries := r.0.now.temporaries)
            && (r.1 == Ok ==> r.0.now.enabled)
  {
    hide Follows;
    FollowsValid(w, u, ROTATION + {SetEnabled});
    CreateMarkerFollows(u, Enabled);
    var v := CreateMarker(u, Enabled).0;
    Widens(u, v, {Tidy, SetEnabled}, ROTATION + {SetEnabled});
    Chains(w, u, v, ROTATION + {SetEnabled});
  }

  /** Nothing of a remote-management identity is left. */
  predicate Clean(fs: Fs) {
    fs.current.Absent? && fs.generations == []
  }

  const DISCARD := {DropCurrent, Rewrite}

  lemma RemoveCurrentFollows(w: World)
    requires w.Valid() && w.now.pending
    ensures var r := RemoveCurrent(w);
            && Follows(w, r.0, DISCARD) && r.0.now == w.now.(current := r.0.now.current) && r.0.enrolled == w.enrolled
            && (r.1 == Ok ==> r.0.now.current.Absent?) && (WellFormed(w.now) ==> WellFormed(r.0.now))
  {
    hide Follows;
    if w.now.current.Absent? {
      LookFollows(w, DISCARD);
    } else {
      ActFollows(w, w.now.(current := Absent), DISCARD, DropCurrent);
      var w1 := Act(w, w.now.(current := Absent)).0;
      FollowsValid(w, w1, DISCARD);
      SyncFollows(w1, DISCARD);
      Chains(w, w1, Sync(w1).0, DISCARD);
    }
  }

  lemma ResetEnrollmentFollows(w: World, lost: bool, kinds: set<Kind>)
    requires w.Valid()
    ensures var r := ResetEnrollment(w, lost);
            && Follows(w, r.0, kinds) && r.0.now == w.now && r.0.past == w.past && r.0.synced == w.synced
            && (r.1 == Ok ==> !r.0.enrolled) && (r.0.enrolled ==> w.enrolled)
  {
    LookFollows(w, kinds);
    Stays(w, ResetEnrollment(w, lost).0, kinds);
  }

  lemma FirstIsListed(generations: seq<Generation>)
    ensures generations == [] || generations[0] in generations
  {
  }

  /** The marker stays while the identity and the enrollment are discarded. */
  lemma DiscardFollows(w: World, lost: bool)
    requires w.Valid() && WellFormed(w.now) && w.now.pending
    ensures var r := Discard(w, lost);
            && Follows(w, r.0, DISCARD) && WellFormed(r.0.now) && r.0.now.pending && r.0.now.enabled == w.now.enabled
            && (r.1 == Ok ==> Clean(r.0.now) && !r.0.enrolled) && (r.0.enrolled ==> w.enrolled)
  {
    hide Follows;
    RemoveCurrentFollows(w);
    var (w1, removed) := RemoveCurrent(w);
    FollowsValid(w, w1, DISCARD);
    if removed == Ok {
      ResetEnrollmentFollows(w1, lost, DISCARD);
      var (w2, reset) := ResetEnrollment(w1, lost);
      Chains(w, w1, w2, DISCARD);
      FollowsValid(w1, w2, DISCARD);
      if reset == Ok {
        RemoveUnreferencedFollows(w2);
        var (v, cleaned) := RemoveUnreferenced(w2);
        Widens(w2, v, {Rewrite}, DISCARD);
        Chains(w, w2, v, DISCARD);
        FirstIsListed(v.now.generations);
      }
    }
  }

  const BOOT_RESET := {Tidy, SetPending, DropCurrent, Rewrite}

  /** Once the marker is there, it is gone only where the identity is gone and
      the enrollment has been reset. */
  ghost predicate PendingUntilClean(w: World, v: World) {
    var h := v.History();
    forall j, k :: |w.past| <= j < k <= |v.past| && h[j].pending && !h[k].pending ==> Clean(h[k]) && !v.enrolled
  }

  lemma {:induction false} PendingStays(w: World, v: World, kinds: set<Kind>, j: nat, k: nat)
    requires Follows(w, v, kinds) && ClearPending !in kinds && |w.past| <= j <= k <= |v.past| && v.History()[j].pending
    ensures v.History()[k].pending
  {
    if j < k {
      PendingStays(w, v, kinds, j, k - 1);
      assert Allowed(kinds, v.History()[k - 1], v.History()[k]);
    }
  }

  lemma BootResetFollows(w: World, lost: bool)
    requires w.Valid() && WellFormed(w.now)
    ensures var r := BootResetMode(w, lost);
            && Follows(w, r.0, BOOT_RESET + {ClearPending}) && WellFormed(r.0.now) && PendingUntilClean(w, r.0)
            && (r.1 == Ok ==> !r.0.now.pending && Clean(r.0.now) && !r.0.enrolled && Settled(r.0))
            && (r.0.enrolled ==> w.enrolled)
  {
    hide Follows, PendingUntilClean;
    CreateMarkerFollows(w, ResetPending);
    var (w1, created) := CreateMarker(w, ResetPending);
    Widens(w, w1, {Tidy, SetPending}, BOOT_RESET);
    FollowsValid(w, w1, BOOT_RESET);
    var u := w1;
    if created == Ok {
      DiscardFollows(w1, lost);
      u := Discard(w1, lost).0;
      Widens(w1, u, DISCARD, BOOT_RESET);
      Chains(w, w1, u, BOOT_RESET);
      FollowsValid(w1, u, BOOT_RESET);
    }
    Widens(w, u, BOOT_RESET, BOOT_RESET + {ClearPending});
    PendingBefore(w, u);
    if created == Ok && Discard(w1, lost).1 == Ok {
      RemoveMarkerFollows(u, ResetPending);
      var v := RemoveMarker(u, ResetPending).0;
      Widens(u, v, {ClearPending}, BOOT_RESET + {ClearPending});
      Chains(w, u, v, BOOT_RESET + {ClearPending});
      PendingAtLast(w, u, v);
    }
  }

  lemma PendingBefore(w: World, u: World)
    requires Follows(w, u, BOOT_RESET)
    ensures PendingUntilClean(w, u)
  {
    forall j, k | |w.past| <= j < k <= |u.past| && u.History()[j].pending ensures u.History()[k].pending {
      PendingStays(w, u, BOOT_RESET, j, k);
    }
  }

  lemma PendingAtLast(w: World, u: World, v: World)
    requires Follows(w, u, BOOT_RESET) && Follows(u, v, {ClearPending}) && |v.past| <= |u.past| + 1
    requires Clean(u.now) && v.now == u.now.(pending := v.now.pending) && !v.enrolled
    ensures PendingUntilClean(w, v)
  {
    var h := v.History();
    assert u.History() <= h;
    forall j, k | |w.past| <= j < k <= |v.past| && h[j].pending && !h[k].pending ensures Clean(h[k]) {
      if k <= |u.past| {
        PendingStays(w, u, BOOT_RESET, j, k);
      }
    }
  }
}
