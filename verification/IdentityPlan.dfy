/** The choice of an identity, the records that install it and the check that
    accepts them (management-lifecycle/identity.py). */
module IdentityPlan {
  import opened Prelude
  import opened AccountText
  import opened AccountTables

  const NAME := "sl-management"
  const HOME := "/var/lib/signallayer/management-runtime/home"
  const SHELL := "/usr/sbin/nologin"
  const COUNT: nat := 65536
  const LOWEST_EXTENT: nat := 100000

  datatype Identity = Identity(uid: nat, gid: nat, subuid: nat, subgid: nat, count: nat)

  predicate ValidExtent(start: nat) {
    start >= LOWEST_EXTENT && start % COUNT == 0 && start + COUNT - 1 <= MAX_ID
  }

  predicate ValidIdentity(i: Identity) {
    100 <= i.uid <= 999 && 100 <= i.gid <= 999 && i.count == COUNT && ValidExtent(i.subuid) && ValidExtent(i.subgid)
  }

  // ----- _extent -----

  function Block(start: nat): Extent {
    (start, start + COUNT - 1)
  }

  predicate Free(extent: Extent, taken: set<Extent>) {
    forall e :: e in taken ==> !Overlap(extent, e)
  }

  /** The search that tries one aligned start after the other. */
  function FirstFree(q: nat, taken: set<Extent>): Option<nat>
    decreases MAX_ID as int - COUNT * q
  {
    if COUNT * q + COUNT - 1 > MAX_ID then None
    else if Free(Block(COUNT * q), taken) then Some(COUNT * q)
    else FirstFree(q + 1, taken)
  }

  /** It finds the least start whose block is free, and fails exactly if none
      that ends at MAX_ID is. */
  lemma {:induction false} FirstFreeIsLeast(q: nat, taken: set<Extent>)
    ensures var r := FirstFree(q, taken);
            && (r.Some? ==> r.value % COUNT == 0 && COUNT * q <= r.value <= MAX_ID - COUNT + 1 && Free(Block(r.value), taken))
            && (forall k: nat :: q <= k && COUNT * k + COUNT - 1 <= MAX_ID && Free(Block(COUNT * k), taken) ==>
                            r.Some? && r.value <= COUNT * k)
    decreases MAX_ID as int - COUNT * q
  {
    if COUNT * q + COUNT - 1 <= MAX_ID && !Free(Block(COUNT * q), taken) {
      FirstFreeIsLeast(q + 1, taken);
    }
  }

  /** From q on, as far as the first start that the jumps have not excluded. */
  lemma {:induction false} FirstFreeSkips(q: nat, end: nat, taken: set<Extent>)
    requires q <= end && forall k: nat :: q <= k < end ==> !Free(Block(COUNT * k), taken)
    ensures FirstFree(q, taken) == FirstFree(end, taken)
    decreases end - q
  {
    if q < end {
      FirstFreeSkips(q + 1, end, taken);
      if COUNT * q + COUNT - 1 > MAX_ID {
        assert COUNT * end + COUNT - 1 > MAX_ID;
      }
    }
  }

  predicate LowSorted(list: seq<Extent>) {
    forall i, j :: 0 <= i < j < |list| ==> list[i].0 <= list[j].0
  }

  function Elements(list: seq<Extent>): set<Extent> {
    set e | e in list
  }

  /** Python's `sorted`, as far as the search relies on it. */
  method Sorted(list: seq<Extent>) returns (sorted: seq<Extent>)
    ensures LowSorted(sorted) && Elements(sorted) == Elements(list)
  {
    sorted := [];
    for i := 0 to |list|
      invariant LowSorted(sorted) && Elements(sorted) == Elements(list[..i])
    {
      var at := 0;
      while at < |sorted| && sorted[at].0 <= list[i].0
        invariant at <= |sorted| && forall k :: 0 <= k < at ==> sorted[k].0 <= list[i].0
      {
        at := at + 1;
      }
      InsertedElements(sorted, at, list[i]);
      InsertedElements(list[..i], i, list[i]);
      assert list[..i][..i] + [list[i]] + list[..i][i..] == list[..i + 1];
      sorted := sorted[..at] + [list[i]] + sorted[at..];
    }
    assert list[..|list|] == list;
  }

  lemma InsertedElements(list: seq<Extent>, at: nat, e: Extent)
    requires at <= |list|
    ensures Elements(list[..at] + [e] + list[at..]) == Elements(list) + {e}
  {
    var longer := list[..at] + [e] + list[at..];
    assert list == list[..at] + list[at..];
    assert forall x :: x in longer <==> x in list || x == e;
  }

  /** identity.py `_extent`: jumps over whole extents, in one pass. */
  method FindExtent(list: seq<Extent>) returns (r: Option<nat>)
    requires forall e :: e in list ==> e.0 <= e.1
    ensures r == FirstFree(2, Elements(list))
  {
    var sorted := Sorted(list);
    ghost var taken := Elements(sorted);
    var q := (LOWEST_EXTENT + COUNT - 1) / COUNT;
    assert q == 2;
    for i := 0 to |sorted|
      invariant q >= 2 && forall k: nat :: 2 <= k < q ==> !Free(Block(COUNT * k), taken)
      invariant forall j :: 0 <= j < i ==> !Overlap(Block(COUNT * q), sorted[j])
    {
      if Overlap(Block(COUNT * q), sorted[i]) {
        assert sorted[i] in taken && sorted[i] in list;
        var next := (sorted[i].1 + 1 + COUNT - 1) / COUNT;
        forall k: nat | q <= k < next ensures !Free(Block(COUNT * k), taken) {
          Skipped(q, k, next, sorted[i]);
        }
        forall j | 0 <= j < i ensures !Overlap(Block(COUNT * next), sorted[j]) {
          StaysBehind(q, next, sorted[j], sorted[i]);
        }
        q := next;
      }
    }
    assert Free(Block(COUNT * q), taken);
    FirstFreeSkips(2, q, taken);
    return if COUNT * q + COUNT - 1 > MAX_ID then None else Some(COUNT * q);
  }

  lemma Skipped(q: nat, k: nat, next: nat, e: Extent)
    requires q <= k < next && next == (e.1 + COUNT) / COUNT && Overlap(Block(COUNT * q), e)
    ensures Overlap(Block(COUNT * k), e)
  {
    assert COUNT * next <= e.1 + COUNT;
    assert COUNT * k + COUNT <= COUNT * next;
  }

  /** What lies before the block that `e` meets lies before the next one too. */
  lemma StaysBehind(q: nat, next: nat, behind: Extent, e: Extent)
    requires next == (e.1 + COUNT) / COUNT && Overlap(Block(COUNT * q), e)
    requires !Overlap(Block(COUNT * q), behind) && behind.0 <= e.0
    ensures !Overlap(Block(COUNT * next), behind)
  {
    assert COUNT * q <= e.1 < COUNT * next;
  }

  /** The least aligned start at or above 100000 whose block meets nothing
      taken, or none exactly if no such block ends at or below MAX_ID. */
  lemma ExtentIsLeast(taken: set<Extent>)
    ensures var r := FirstFree(2, taken);
            && (r.Some? ==> ValidExtent(r.value) && Free(Block(r.value), taken))
            && (forall s: nat :: ValidExtent(s) && Free(Block(s), taken) ==> r.Some? && r.value <= s)
  {
    FirstFreeIsLeast(2, taken);
    forall s: nat | ValidExtent(s) && Free(Block(s), taken)
      ensures FirstFree(2, taken).Some? && FirstFree(2, taken).value <= s
    {
      assert s == COUNT * (s / COUNT) && s / COUNT >= 2;
    }
  }

  // ----- plan -----

  function Taken(s: Snapshot): set<Extent> {
    s.subuids.Values + s.subgids.Values + (set id | id in Ids(s.passwd) + Ids(s.groups) :: (id, id))
  }

  /** The greatest value from `n` down to 100 that is not taken. */
  function LargestId(n: nat, taken: set<Extent>): (r: Option<nat>)
    ensures r.Some? ==> 100 <= r.value <= n && Free((r.value, r.value), taken)
    ensures forall v :: 100 <= v <= n && Free((v, v), taken) ==> r.Some? && v <= r.value
  {
    if n < 100 then None else if Free((n, n), taken) then Some(n) else LargestId(n - 1, taken)
  }

  predicate Named(s: Snapshot) {
    NAME in s.passwd || NAME in s.groups || NAME in s.shadow || NAME in s.gshadow || NAME in s.subuids || NAME in s.subgids
  }

  function Plan(s: Snapshot): Option<Identity> {
    if Named(s) then None
    else
      var id, start := LargestId(999, Taken(s)), FirstFree(2, Taken(s));
      if id.None? || start.None? then None
      else Some(Identity(id.value, id.value, start.value, start.value, COUNT))
  }

  method ListOf(taken: set<Extent>) returns (list: seq<Extent>)
    ensures Elements(list) == taken
  {
    list := [];
    var rest := taken;
    while rest != {}
      invariant rest <= taken && Elements(list) == taken - rest
      decreases rest
    {
      var e :| e in rest;
      InsertedElements(list, |list|, e);
      assert list[..|list|] + [e] + list[|list|..] == list + [e];
      list := list + [e];
      rest := rest - {e};
    }
  }

  method FindId(taken: set<Extent>) returns (r: Option<nat>)
    ensures r == LargestId(999, taken)
  {
    var n := 999;
    while n >= 100
      invariant 99 <= n <= 999 && LargestId(n, taken) == LargestId(999, taken)
    {
      if Free((n, n), taken) {
        return Some(n);
      }
      n := n - 1;
    }
    return None;
  }

  /** identity.py `plan`: the first system ID from above, and the extent. */
  method Choose(s: Snapshot) returns (r: Option<Identity>)
    requires forall name :: name in s.subuids ==> s.subuids[name].0 <= s.subuids[name].1
    requires forall name :: name in s.subgids ==> s.subgids[name].0 <= s.subgids[name].1
    ensures r == Plan(s)
  {
    if Named(s) {
      return None;
    }
    var taken := Taken(s);
    var id := FindId(taken);
    if id.None? {
      return None;
    }
    var list := ListOf(taken);
    TakenUpward(s);
    assert forall e :: e in list ==> e in Elements(list);
    var start := FindExtent(list);
    if start.None? {
      return None;
    }
    return Some(Identity(id.value, id.value, start.value, start.value, COUNT));
  }

  lemma TakenUpward(s: Snapshot)
    requires forall name :: name in s.subuids ==> s.subuids[name].0 <= s.subuids[name].1
    requires forall name :: name in s.subgids ==> s.subgids[name].0 <= s.subgids[name].1
    ensures forall e :: e in Taken(s) ==> e.0 <= e.1
  {
  }

  /** A plan is a valid identity that meets nothing of the snapshot. */
  lemma PlanIsFree(s: Snapshot)
    ensures Plan(s).Some? ==>
              var i := Plan(s).value;
              && ValidIdentity(i) && i.uid == i.gid && i.subuid == i.subgid && !Named(s)
              && Free((i.uid, i.uid), Taken(s)) && Free(Block(i.subuid), Taken(s))
  {
    ExtentIsLeast(Taken(s));
  }

  /** No user or group has the number, and no extent holds it. */
  ghost predicate Unclaimed(s: Snapshot, n: nat) {
    && (forall name :: name in s.passwd ==> Id(s.passwd[name]) != Some(n))
    && (forall name :: name in s.groups ==> Id(s.groups[name]) != Some(n))
    && (forall name :: name in s.subuids ==> !(s.subuids[name].0 <= n <= s.subuids[name].1))
    && (forall name :: name in s.subgids ==> !(s.subgids[name].0 <= n <= s.subgids[name].1))
  }

  ghost predicate Upward(s: Snapshot) {
    && (forall name :: name in s.subuids ==> s.subuids[name].0 <= s.subuids[name].1)
    && (forall name :: name in s.subgids ==> s.subgids[name].0 <= s.subgids[name].1)
  }

  lemma ClaimIsTaken(s: Snapshot, n: nat)
    ensures Unclaimed(s, n) <==> forall e :: e in Taken(s) ==> !(e.0 <= n <= e.1)
  {
    if !Unclaimed(s, n) {
      if name :| name in s.passwd && Id(s.passwd[name]) == Some(n) {
        assert n in Ids(s.passwd) && (n, n) in Taken(s);
      } else if name :| name in s.groups && Id(s.groups[name]) == Some(n) {
        assert n in Ids(s.groups) && (n, n) in Taken(s);
      } else if name :| name in s.subuids && s.subuids[name].0 <= n <= s.subuids[name].1 {
        assert s.subuids[name] in s.subuids.Values;
      } else {
        var name :| name in s.subgids && s.subgids[name].0 <= n <= s.subgids[name].1;
        assert s.subgids[name] in s.subgids.Values;
      }
    } else if e :| e in Taken(s) && e.0 <= n <= e.1 {
      if name :| name in s.subuids && s.subuids[name] == e {
      } else if name :| name in s.subgids && s.subgids[name] == e {
      }
    }
  }

  /** A range is free exactly if all its numbers are unclaimed. */
  lemma FreeMeans(s: Snapshot, extent: Extent)
    requires Upward(s) && extent.0 <= extent.1
    ensures Free(extent, Taken(s)) <==> forall n :: extent.0 <= n <= extent.1 ==> Unclaimed(s, n)
  {
    hide Unclaimed;
    TakenUpward(s);
    forall n: nat ensures Unclaimed(s, n) <==> forall e :: e in Taken(s) ==> !(e.0 <= n <= e.1) {
      ClaimIsTaken(s, n);
    }
    if e :| e in Taken(s) && Overlap(extent, e) {
      assert !Unclaimed(s, if e.0 < extent.0 then extent.0 else e.0);
    }
  }

  ghost predicate FreeBlock(s: Snapshot, q: nat) {
    forall n: nat :: 65536 * q <= n < 65536 * q + 65536 ==> Unclaimed(s, n)
  }

  /** The identity by plan: the greatest unclaimed system number for user and
      group, and the first unclaimed aligned block for both extents, if the name
      is in no file. */
  ghost predicate ByPlan(s: Snapshot, i: Identity) {
    && NAME !in s.passwd.Keys + s.groups.Keys + s.shadow.Keys + s.gshadow.Keys + s.subuids.Keys + s.subgids.Keys
    && i.gid == i.uid && 100 <= i.uid <= 999 && Unclaimed(s, i.uid)
    && (forall n :: i.uid < n <= 999 ==> !Unclaimed(s, n))
    && i.subgid == i.subuid && i.count == 65536
    && exists q: nat :: 2 <= q <= 65534 && i.subuid == 65536 * q && FreeBlock(s, q) && forall p :: 2 <= p < q ==> !FreeBlock(s, p)
  }

  lemma IdMeans(s: Snapshot, n: nat)
    requires Upward(s)
    ensures LargestId(999, Taken(s)) == Some(n) <==>
            100 <= n <= 999 && Unclaimed(s, n) && forall m :: n < m <= 999 ==> !Unclaimed(s, m)
  {
    hide Unclaimed, Upward, Taken;
    forall m: nat ensures Free((m, m), Taken(s)) <==> Unclaimed(s, m) {
      FreeMeans(s, (m, m));
    }
  }

  lemma BlockMeans(s: Snapshot, start: nat)
    requires Upward(s)
    ensures FirstFree(2, Taken(s)) == Some(start) <==>
            exists q: nat :: 2 <= q <= 65534 && start == 65536 * q && FreeBlock(s, q) && forall p :: 2 <= p < q ==> !FreeBlock(s, p)
  {
    hide Unclaimed, Upward, Taken, Free, FirstFree;
    var taken := Taken(s);
    FirstFreeIsLeast(2, taken);
    forall q: nat ensures Free(Block(65536 * q), taken) <==> FreeBlock(s, q) {
      FreeMeans(s, Block(65536 * q));
    }
    if FirstFree(2, taken) == Some(start) {
      assert start == 65536 * (start / 65536);
      assert FreeBlock(s, start / 65536);
    }
    if q: nat :| 2 <= q <= 65534 && start == 65536 * q && FreeBlock(s, q) && forall p :: 2 <= p < q ==> !FreeBlock(s, p) {
      assert Free(Block(65536 * q), taken);
      var found := FirstFree(2, taken).value;
      assert found == 65536 * (found / 65536);
      assert FreeBlock(s, found / 65536);
    }
  }

  /** The plan gives exactly that identity. */
  lemma PlanDecides(s: Snapshot, i: Identity)
    requires Upward(s)
    ensures Plan(s) == Some(i) <==> ByPlan(s, i)
  {
    hide Unclaimed, Upward, Taken, FirstFree, LargestId, FreeBlock;
    IdMeans(s, i.uid);
    BlockMeans(s, i.subuid);
  }

  // ----- _records -----

  function Records(i: Identity): (rows: seq<Row>)
    ensures |rows| == FILES && forall r :: r in rows ==> r != [] && r[0] == NAME
  {
    [[NAME, "x", Decimal(i.gid), ""],
     [NAME, "!", "", ""],
     [NAME, "!", "0", "0", "99999", "7", "", "", ""],
     [NAME, "x", Decimal(i.uid), Decimal(i.gid), "SignalLayer management", HOME, SHELL],
     [NAME, Decimal(i.subuid), Decimal(i.count)],
     [NAME, Decimal(i.subgid), Decimal(i.count)]]
  }

  function Final(raw: Raw, i: Identity): Raw {
    seq(FILES, k requires 0 <= k < FILES => Some(Appended(raw[k], Records(i)[k])))
  }

  // ----- _verify -----

  predicate Locked(hash: string) {
    hash != "" && (hash[0] == '!' || hash[0] == '*')
  }

  predicate VerifyRows(passwd: Row, group: Row, shadow: Row, gshadow: Row, i: Identity) {
    && |passwd| == 7 && |group| == 4 && |shadow| == 9 && |gshadow| == 4
    && passwd[1] == "x" && Number(passwd[2]) == Some(i.uid) && Number(passwd[3]) == Some(i.gid)
    && passwd[5] == HOME && passwd[6] == SHELL
    && group[1] == "x" && Number(group[2]) == Some(i.gid) && group[3] == ""
    && Locked(shadow[1]) && Locked(gshadow[1]) && gshadow[2] == "" && gshadow[3] == ""
  }

  predicate Verify(s: Snapshot, i: Identity) {
    && NAME in s.passwd && NAME in s.groups && NAME in s.shadow && NAME in s.gshadow
    && VerifyRows(s.passwd[NAME], s.groups[NAME], s.shadow[NAME], s.gshadow[NAME], i)
    && NoMember(s)
    && NAME in s.subuids && s.subuids[NAME] == (i.subuid, i.subuid + i.count - 1)
    && NAME in s.subgids && s.subgids[NAME] == (i.subgid, i.subgid + i.count - 1)
  }

  predicate NoMember(s: Snapshot) {
    && (forall name :: name in s.groups && |s.groups[name]| == 4 ==> NAME !in Split(s.groups[name][3], ','))
    && (forall name :: name in s.gshadow && |s.gshadow[name]| == 4 ==>
          NAME !in Split(s.gshadow[name][2], ',') && NAME !in Split(s.gshadow[name][3], ','))
  }

  /** The account of an identity is in place: its four rows with a locked
      password, no group that lists it, and its two extents. */
  ghost predicate InPlace(s: Snapshot, i: Identity) {
    && (exists gecos: string :: HasRow(s.passwd, [NAME, "x", Decimal(i.uid), Decimal(i.gid), gecos, HOME, SHELL]))
    && HasRow(s.groups, [NAME, "x", Decimal(i.gid), ""])
    && (exists hash: string :: IsLocked(hash) && HasRow(s.gshadow, [NAME, hash, "", ""]))
    && NAME in s.shadow && |s.shadow[NAME]| == 9 && IsLocked(s.shadow[NAME][1])
    && (forall name :: name in s.groups ==> !Lists(s.groups[name], 3))
    && (forall name :: name in s.gshadow ==> !Lists(s.gshadow[name], 2))
    && NAME in s.subuids && s.subuids[NAME].0 == i.subuid && s.subuids[NAME].1 == i.subuid + i.count - 1
    && NAME in s.subgids && s.subgids[NAME].0 == i.subgid && s.subgids[NAME].1 == i.subgid + i.count - 1
  }

  ghost predicate HasRow(table: Table, row: Row)
    requires row != []
  {
    row[0] in table && table[row[0]] == row
  }

  ghost predicate IsLocked(hash: string) {
    exists rest: string :: hash == "!" + rest || hash == "*" + rest
  }

  /** The account is in a list of names from the given field on. */
  ghost predicate Lists(row: Row, first: nat) {
    exists k, n :: first <= k < |row| && 0 <= n < |Split(row[k], ',')| && Split(row[k], ',')[n] == NAME
  }

  lemma LockedMeans(hash: string)
    ensures Locked(hash) <==> IsLocked(hash)
  {
    if Locked(hash) {
      assert hash == "!" + hash[1..] || hash == "*" + hash[1..];
    }
  }

  lemma ListsMeans(row: Row, first: nat)
    ensures Lists(row, first) <==> exists k :: first <= k < |row| && NAME in Split(row[k], ',')
  {
    if k :| first <= k < |row| && NAME in Split(row[k], ',') {
      var n :| 0 <= n < |Split(row[k], ',')| && Split(row[k], ',')[n] == NAME;
    }
  }

  lemma NoMemberMeans(s: Snapshot)
    requires forall name :: name in s.groups ==> |s.groups[name]| == 4
    requires forall name :: name in s.gshadow ==> |s.gshadow[name]| == 4
    ensures NoMember(s) <==> (forall name :: name in s.groups ==> !Lists(s.groups[name], 3))
                             && (forall name :: name in s.gshadow ==> !Lists(s.gshadow[name], 2))
  {
    hide Lists;
    forall name | name in s.groups ensures Lists(s.groups[name], 3) <==> NAME in Split(s.groups[name][3], ',') {
      ListsMeans(s.groups[name], 3);
    }
    forall name | name in s.gshadow
      ensures Lists(s.gshadow[name], 2) <==>
              NAME in Split(s.gshadow[name][2], ',') || NAME in Split(s.gshadow[name][3], ',')
    {
      ListsMeans(s.gshadow[name], 2);
    }
  }

  lemma PasswdMeans(row: Row, i: Identity)
    requires |row| == 7 && row[0] == NAME && i.uid <= MAX_ID && i.gid <= MAX_ID
    ensures row[1] == "x" && Number(row[2]) == Some(i.uid) && Number(row[3]) == Some(i.gid) && row[5] == HOME && row[6] == SHELL <==>
            exists gecos: string :: row == [NAME, "x", Decimal(i.uid), Decimal(i.gid), gecos, HOME, SHELL]
  {
    NumberDecides(row[2], i.uid);
    NumberDecides(row[3], i.gid);
    assert row == [row[0], row[1], row[2], row[3], row[4], row[5], row[6]];
  }

  lemma GroupMeans(row: Row, i: Identity)
    requires |row| == 4 && row[0] == NAME && i.gid <= MAX_ID
    ensures row[1] == "x" && Number(row[2]) == Some(i.gid) && row[3] == "" <==> row == [NAME, "x", Decimal(i.gid), ""]
  {
    NumberDecides(row[2], i.gid);
    assert row == [row[0], row[1], row[2], row[3]];
  }

  lemma GshadowMeans(row: Row)
    requires |row| == 4 && row[0] == NAME
    ensures Locked(row[1]) && row[2] == "" && row[3] == "" <==>
            exists hash: string :: IsLocked(hash) && row == [NAME, hash, "", ""]
  {
    hide Locked, IsLocked;
    LockedMeans(row[1]);
    assert row == [row[0], row[1], row[2], row[3]];
  }

  /** Every row is under its name and has the width of its file. */
  ghost predicate Shaped(s: Snapshot) {
    && (forall name :: name in s.passwd ==> |s.passwd[name]| == 7 && s.passwd[name][0] == name)
    && (forall name :: name in s.groups ==> |s.groups[name]| == 4 && s.groups[name][0] == name)
    && (forall name :: name in s.shadow ==> |s.shadow[name]| == 9 && s.shadow[name][0] == name)
    && (forall name :: name in s.gshadow ==> |s.gshadow[name]| == 4 && s.gshadow[name][0] == name)
  }

  /** The check accepts exactly the accounts that are in place. */
  lemma VerifyMeans(s: Snapshot, i: Identity)
    requires Shaped(s) && i.uid <= MAX_ID && i.gid <= MAX_ID
    ensures Verify(s, i) <==> InPlace(s, i)
  {
    hide Locked, IsLocked, NoMember, Lists;
    NoMemberMeans(s);
    if NAME in s.passwd && NAME in s.groups && NAME in s.shadow && NAME in s.gshadow {
      PasswdMeans(s.passwd[NAME], i);
      GroupMeans(s.groups[NAME], i);
      GshadowMeans(s.gshadow[NAME]);
      LockedMeans(s.shadow[NAME][1]);
    }
  }
}
