/** Appending the planned records to an accepted snapshot gives one that is
    accepted and verified again, with every earlier row unchanged. */
module IdentityAppend {
  import opened Prelude
  import opened AccountText
  import opened AccountTables
  import opened IdentityPlan

  function Extended(s: Snapshot, i: Identity): Snapshot {
    var rows := Records(i);
    Snapshot(s.passwd[NAME := rows[PASSWD]], s.groups[NAME := rows[GROUP]], s.shadow[NAME := rows[SHADOW]],
             s.gshadow[NAME := rows[GSHADOW]], s.subuids[NAME := Block(i.subuid)], s.subgids[NAME := Block(i.subgid)])
  }

  // ----- The records are well formed -----

  predicate IsPlain(field: string) {
    forall c :: c in field ==> 0x20 <= c as nat < 0x7f && c != ':'
  }

  lemma NameIsPlain()
    ensures IsPlain(NAME) && IsAccount(NAME) && !IsDigit(NAME[0])
  {
  }

  lemma FieldsArePlain()
    ensures IsPlain("") && IsPlain("x") && IsPlain("!") && IsPlain("0") && IsPlain("99999") && IsPlain("7")
  {
  }

  lemma TextsArePlain()
    ensures IsPlain("SignalLayer management") && IsPlain(HOME) && IsPlain(SHELL)
  {
    hide IsPlain;
    CommentIsPlain();
    HomeIsPlain();
    ShellIsPlain();
  }

  lemma CommentIsPlain()
    ensures IsPlain("SignalLayer management")
  {
  }

  lemma HomeIsPlain()
    ensures IsPlain(HOME)
  {
  }

  lemma ShellIsPlain()
    ensures IsPlain(SHELL)
  {
  }

  lemma PlainDecimal(n: nat)
    ensures IsPlain(Decimal(n))
  {
    forall c | c in Decimal(n) ensures 0x20 <= c as nat < 0x7f && c != ':' {
      assert IsDigit(c);
    }
  }

  lemma PlainRecord(row: Row)
    requires forall f :: f in row ==> IsPlain(f)
    ensures IsRecord(row) && forall f, c :: f in row && c in f ==> c as nat < 0x80
  {
  }

  lemma RecordsArePlain(i: Identity, k: nat)
    requires k < FILES
    ensures IsRecord(Records(i)[k]) && forall f, c :: f in Records(i)[k] && c in f ==> c as nat < 0x80
  {
    NameIsPlain();
    FieldsArePlain();
    TextsArePlain();
    PlainDecimal(i.uid);
    PlainDecimal(i.gid);
    PlainDecimal(i.subuid);
    PlainDecimal(i.subgid);
    PlainDecimal(i.count);
    PlainRecord(Records(i)[k]);
  }

  // ----- The tables -----

  lemma AppendTable(raw: Raw, i: Identity, k: nat, fields: nat)
    requires k < 4 && |Records(i)[k]| == fields
    requires ParseTable(raw[k], fields).Some? && NAME !in ParseTable(raw[k], fields).value
    ensures ParseTable(Final(raw, i)[k], fields) == Some(ParseTable(raw[k], fields).value[NAME := Records(i)[k]])
  {
    RecordsArePlain(i, k);
    NameIsPlain();
    TableAppend(raw[k], fields, Records(i)[k]);
  }

  lemma NewId(table: Table, row: Row, id: nat)
    requires DistinctIds(table) && NAME !in table && Id(row) == Some(id) && id !in Ids(table)
    ensures DistinctIds(table[NAME := row]) && Ids(table[NAME := row]) == Ids(table) + {id}
  {
    var more := table[NAME := row];
    assert forall name :: name in table ==> name in more && more[name] == table[name];
    assert NAME in more && more[NAME] == row;
    forall name | name in table ensures Id(table[name]).value in Ids(table) {
    }
  }

  /** What the snapshot and the plan say about the numbers chosen. */
  lemma Unused(s: Snapshot, i: Identity)
    requires Plan(s) == Some(i)
    ensures i.uid !in Ids(s.passwd) && i.gid !in Ids(s.groups)
    ensures Clear(s.subuids, {i.uid}) && Clear(s.subgids, {i.uid})
    ensures !Meets(Block(i.subuid), s.subuids) && !Meets(Block(i.subgid), s.subgids)
    ensures forall id :: id in Ids(s.passwd) + Ids(s.groups) + {i.uid} ==>
                           !(i.subuid <= id < i.subuid + COUNT)
  {
    PlanIsFree(s);
    var taken := Taken(s);
    forall id | id in Ids(s.passwd) + Ids(s.groups) ensures (id, id) in taken {
    }
    forall name | name in s.subuids ensures s.subuids[name] in taken {
      assert s.subuids[name] in s.subuids.Values;
    }
    forall name | name in s.subgids ensures s.subgids[name] in taken {
      assert s.subgids[name] in s.subgids.Values;
    }
    if i.uid in Ids(s.passwd) { assert Overlap((i.uid, i.uid), (i.uid, i.uid)); }
    if i.gid in Ids(s.groups) { assert Overlap((i.gid, i.gid), (i.gid, i.gid)); }
    forall id | id in Ids(s.passwd) + Ids(s.groups) + {i.uid} ensures !(i.subuid <= id < i.subuid + COUNT) {
      if id != i.uid { assert !Overlap(Block(i.subuid), (id, id)); }
    }
  }

  lemma NewExtent(raw: Raw, i: Identity, k: nat, start: nat, users: Table, more: Table)
    requires k == SUBUID || k == SUBGID
    requires start == (if k == SUBUID then i.subuid else i.subgid) && ValidExtent(start) && i.count == COUNT
    requires DistinctIds(users) && DistinctIds(more) && NAME in more
    requires forall name :: name in users ==> name in more && more[name] == users[name]
    requires ParseExtents(raw[k], users).Some? && NAME !in ParseExtents(raw[k], users).value
    requires !Meets(Block(start), ParseExtents(raw[k], users).value)
    ensures ParseExtents(Final(raw, i)[k], more) == Some(ParseExtents(raw[k], users).value[NAME := Block(start)])
  {
    RecordsArePlain(i, k);
    NameIsPlain();
    ExtentRecord(i, k, start);
    ExtentsAppend(raw[k], users, more, Records(i)[k], Block(start));
  }

  lemma ExtentRecord(i: Identity, k: nat, start: nat)
    requires k == SUBUID || k == SUBGID
    requires start == (if k == SUBUID then i.subuid else i.subgid) && ValidExtent(start) && i.count == COUNT
    ensures var row := Records(i)[k];
            |row| == 3 && row[0] == NAME && ParseExtent(Number(row[1]), Number(row[2])) == Some(Block(start))
  {
    NumberOfDecimal(start);
    NumberOfDecimal(COUNT);
  }

  lemma ClearAdded(extents: Extents, start: nat, ids: set<nat>, id: nat)
    requires Clear(extents, ids) && Clear(extents, {id}) && NAME !in extents
    requires forall v :: v in ids + {id} ==> !(start <= v < start + COUNT)
    ensures Clear(extents[NAME := Block(start)], ids + {id})
  {
    var more := extents[NAME := Block(start)];
    forall name, v | name in more && v in ids + {id} ensures !(more[name].0 <= v <= more[name].1) {
      if name != NAME && v == id { assert v in {id}; }
    }
  }

  // ----- The checks -----

  lemma MoreMembers(field: string, users: Table, row: Row)
    requires ValidMembers(field, users)
    ensures ValidMembers(field, users[NAME := row])
  {
  }

  lemma GroupsStayValid(s: Snapshot, i: Identity)
    requires ValidGroups(s.groups, s.gshadow, s.passwd)
    ensures ValidGroups(Extended(s, i).groups, Extended(s, i).gshadow, Extended(s, i).passwd)
  {
    var more, row := Extended(s, i), Records(i)[PASSWD];
    forall name | name in more.groups
      ensures |more.groups[name]| == 4 && ValidMembers(more.groups[name][3], more.passwd)
    {
      if name != NAME { MoreMembers(s.groups[name][3], s.passwd, row); }
    }
    forall name | name in more.gshadow
      ensures |more.gshadow[name]| == 4
      ensures ValidMembers(more.gshadow[name][2], more.passwd) && ValidMembers(more.gshadow[name][3], more.passwd)
    {
      if name != NAME {
        MoreMembers(s.gshadow[name][2], s.passwd, row);
        MoreMembers(s.gshadow[name][3], s.passwd, row);
      }
    }
  }

  lemma ShadowStaysValid(s: Snapshot, i: Identity)
    requires ValidShadow(s.shadow)
    ensures ValidShadow(Extended(s, i).shadow)
  {
    ShadowNumbers();
    var more := Extended(s, i).shadow;
    forall name, k | name in more && 2 <= k < |more[name]| ensures more[name][k] == "" || Number(more[name][k]).Some? {
      if name != NAME { assert more[name] == s.shadow[name]; }
    }
  }

  lemma ShadowNumbers()
    ensures Number("0").Some? && Number("7").Some? && Number("99999").Some?
  {
    assert "9"[..0] == "" && "99"[..1] == "9" && "999"[..2] == "99" && "9999"[..3] == "999" && "99999"[..4] == "9999";
    assert Value("9") == 9;
    assert Value("99") == 99;
    assert Value("999") == 999;
    assert Value("9999") == 9999;
    assert Value("99999") == 99999;
    assert "0"[..0] == "" && "7"[..0] == "";
    assert Value("0") == 0 && Value("7") == 7;
  }

  lemma PrimaryGroupsStayValid(s: Snapshot, i: Identity)
    requires ValidPrimaryGroups(s.passwd, s.groups) && i.gid <= MAX_ID
    requires Ids(s.groups) + {i.gid} <= Ids(Extended(s, i).groups)
    ensures ValidPrimaryGroups(Extended(s, i).passwd, Extended(s, i).groups)
  {
    NumberOfDecimal(i.gid);
  }

  lemma NotAMember(field: string, users: Table)
    requires ValidMembers(field, users) && NAME !in users
    ensures NAME !in Split(field, ',')
  {
    assert Split("", ',') == [""];
    forall k | 0 <= k < |Split(field, ',')| ensures Split(field, ',')[k] != NAME {
      if field != "" { assert Members(field)[k] in users; }
    }
  }

  lemma RecordsVerify(i: Identity)
    requires ValidIdentity(i)
    ensures VerifyRows(Records(i)[PASSWD], Records(i)[GROUP], Records(i)[SHADOW], Records(i)[GSHADOW], i)
  {
    NumberOfDecimal(i.uid);
    NumberOfDecimal(i.gid);
  }

  lemma ExtendedRows(s: Snapshot, i: Identity)
    ensures var more := Extended(s, i);
            && NAME in more.passwd && NAME in more.groups && NAME in more.shadow && NAME in more.gshadow
            && more.passwd[NAME] == Records(i)[PASSWD] && more.groups[NAME] == Records(i)[GROUP]
            && more.shadow[NAME] == Records(i)[SHADOW] && more.gshadow[NAME] == Records(i)[GSHADOW]
            && NAME in more.subuids && more.subuids[NAME] == Block(i.subuid)
            && NAME in more.subgids && more.subgids[NAME] == Block(i.subgid)
  {
  }

  lemma ExtendedVerifies(s: Snapshot, i: Identity)
    requires ValidGroups(s.groups, s.gshadow, s.passwd) && NAME !in s.passwd && ValidIdentity(i)
    ensures Verify(Extended(s, i), i)
  {
    hide Extended;
    RecordsVerify(i);
    ExtendedRows(s, i);
    NoMemberAdded(s, i);
  }

  lemma NoMemberAdded(s: Snapshot, i: Identity)
    requires ValidGroups(s.groups, s.gshadow, s.passwd) && NAME !in s.passwd
    ensures NoMember(Extended(s, i))
  {
    var more := Extended(s, i);
    assert Split("", ',') == [""];
    forall name | name in more.groups ensures NAME !in Split(more.groups[name][3], ',') {
      if name != NAME { NotAMember(s.groups[name][3], s.passwd); }
    }
    forall name | name in more.gshadow
      ensures NAME !in Split(more.gshadow[name][2], ',') && NAME !in Split(more.gshadow[name][3], ',')
    {
      if name != NAME {
        NotAMember(s.gshadow[name][2], s.passwd);
        NotAMember(s.gshadow[name][3], s.passwd);
      }
    }
  }

  lemma IdsStayDistinct(s: Snapshot, i: Identity)
    requires DistinctIds(s.passwd) && DistinctIds(s.groups) && Plan(s) == Some(i)
    ensures var more := Extended(s, i);
            && DistinctIds(more.passwd) && Ids(more.passwd) == Ids(s.passwd) + {i.uid}
            && DistinctIds(more.groups) && Ids(more.groups) == Ids(s.groups) + {i.gid}
  {
    PlanIsFree(s);
    Unused(s, i);
    NumberOfDecimal(i.uid);
    NewId(s.passwd, Records(i)[PASSWD], i.uid);
    NewId(s.groups, Records(i)[GROUP], i.gid);
  }

  lemma NamesStayPaired(s: Snapshot, i: Identity)
    requires s.shadow.Keys == s.passwd.Keys && s.gshadow.Keys == s.groups.Keys
    ensures Extended(s, i).shadow.Keys == Extended(s, i).passwd.Keys
    ensures Extended(s, i).gshadow.Keys == Extended(s, i).groups.Keys
  {
  }

  lemma AccountsStayValid(s: Snapshot, i: Identity)
    requires ValidAccounts(s.passwd, s.groups, s.shadow, s.gshadow) && Plan(s) == Some(i)
    ensures var more := Extended(s, i);
            && ValidAccounts(more.passwd, more.groups, more.shadow, more.gshadow)
            && Ids(more.passwd) + Ids(more.groups) == Ids(s.passwd) + Ids(s.groups) + {i.uid}
  {
    hide Extended;
    PlanIsFree(s);
    IdsStayDistinct(s, i);
    PrimaryGroupsStayValid(s, i);
    GroupsStayValid(s, i);
    ShadowStaysValid(s, i);
    NamesStayPaired(s, i);
    OneMore(Ids(s.passwd), Ids(s.groups), i.uid);
  }

  lemma OneMore(a: set<nat>, b: set<nat>, id: nat)
    ensures (a + {id}) + (b + {id}) == a + b + {id}
  {
  }

  lemma ExtentsStayValid(raw: Raw, s: Snapshot, i: Identity, more: Table)
    requires DistinctIds(s.passwd) && Plan(s) == Some(i)
    requires ParseExtents(raw[SUBUID], s.passwd) == Some(s.subuids) && ParseExtents(raw[SUBGID], s.passwd) == Some(s.subgids)
    requires Clear(s.subuids, Ids(s.passwd) + Ids(s.groups)) && Clear(s.subgids, Ids(s.passwd) + Ids(s.groups))
    requires DistinctIds(more) && NAME in more && forall name :: name in s.passwd ==> name in more && more[name] == s.passwd[name]
    ensures ParseExtents(Final(raw, i)[SUBUID], more) == Some(s.subuids[NAME := Block(i.subuid)])
    ensures ParseExtents(Final(raw, i)[SUBGID], more) == Some(s.subgids[NAME := Block(i.subgid)])
    ensures Clear(s.subuids[NAME := Block(i.subuid)], Ids(s.passwd) + Ids(s.groups) + {i.uid})
    ensures Clear(s.subgids[NAME := Block(i.subgid)], Ids(s.passwd) + Ids(s.groups) + {i.uid})
  {
    PlanIsFree(s);
    Unused(s, i);
    NewExtent(raw, i, SUBUID, i.subuid, s.passwd, more);
    NewExtent(raw, i, SUBGID, i.subgid, s.passwd, more);
    ClearAdded(s.subuids, i.subuid, Ids(s.passwd) + Ids(s.groups), i.uid);
    ClearAdded(s.subgids, i.subgid, Ids(s.passwd) + Ids(s.groups), i.uid);
  }

  lemma AppendChecks(raw: Raw, s: Snapshot, i: Identity)
    requires Check(s.passwd, s.groups, s.shadow, s.gshadow, raw) == Some(s) && Plan(s) == Some(i)
    ensures var more := Extended(s, i);
            Check(more.passwd, more.groups, more.shadow, more.gshadow, Final(raw, i)) == Some(more)
  {
    hide Extended;
    PlanIsFree(s);
    AccountsStayValid(s, i);
    ExtendedUsers(s, i);
    ExtentsStayValid(raw, s, i, Extended(s, i).passwd);
    CheckIs(Extended(s, i), Final(raw, i));
  }

  lemma CheckIs(s: Snapshot, raw: Raw)
    requires ValidAccounts(s.passwd, s.groups, s.shadow, s.gshadow)
    requires ParseExtents(raw[SUBUID], s.passwd) == Some(s.subuids) && ParseExtents(raw[SUBGID], s.passwd) == Some(s.subgids)
    requires Clear(s.subuids, Ids(s.passwd) + Ids(s.groups)) && Clear(s.subgids, Ids(s.passwd) + Ids(s.groups))
    ensures Check(s.passwd, s.groups, s.shadow, s.gshadow, raw) == Some(s)
  {
  }

  lemma ExtendedUsers(s: Snapshot, i: Identity)
    requires NAME !in s.passwd
    ensures var more := Extended(s, i);
            && NAME in more.passwd && (forall name :: name in s.passwd ==> name in more.passwd && more.passwd[name] == s.passwd[name])
            && more.subuids == s.subuids[NAME := Block(i.subuid)] && more.subgids == s.subgids[NAME := Block(i.subgid)]
  {
  }

  lemma AppendParses(raw: Raw, s: Snapshot, i: Identity)
    requires ReadValidate(raw) == Some(s) && Plan(s) == Some(i)
    ensures var more, final := Extended(s, i), Final(raw, i);
            && ParseTable(final[GROUP], 4) == Some(more.groups) && ParseTable(final[GSHADOW], 4) == Some(more.gshadow)
            && ParseTable(final[SHADOW], 9) == Some(more.shadow) && ParseTable(final[PASSWD], 7) == Some(more.passwd)
  {
    AppendTable(raw, i, GROUP, 4);
    AppendTable(raw, i, GSHADOW, 4);
    AppendTable(raw, i, SHADOW, 9);
    AppendTable(raw, i, PASSWD, 7);
  }

  /** The theorem: every planned append is accepted and verified. */
  lemma AppendAccepted(raw: Raw, s: Snapshot, i: Identity)
    requires ReadValidate(raw) == Some(s) && Plan(s) == Some(i)
    ensures ReadValidate(Final(raw, i)) == Some(Extended(s, i))
    ensures Verify(Extended(s, i), i)
  {
    hide Extended;
    PlanIsFree(s);
    AppendParses(raw, s, i);
    AppendChecks(raw, s, i);
    ExtendedVerifies(s, i);
  }

  ghost predicate Adds<V>(before: map<string, V>, after: map<string, V>) {
    NAME !in before && after.Keys == before.Keys + {NAME} && forall name :: name in before ==> after[name] == before[name]
  }

  lemma Updated<V>(before: map<string, V>, v: V)
    requires NAME !in before
    ensures Adds(before, before[NAME := v])
  {
  }

  /** Only the new name is added to each table, and earlier rows stay. */
  lemma EarlierRowsStay(s: Snapshot, i: Identity)
    requires Plan(s) == Some(i)
    ensures Adds(s.passwd, Extended(s, i).passwd) && Adds(s.groups, Extended(s, i).groups)
    ensures Adds(s.shadow, Extended(s, i).shadow) && Adds(s.gshadow, Extended(s, i).gshadow)
    ensures Adds(s.subuids, Extended(s, i).subuids) && Adds(s.subgids, Extended(s, i).subgids)
  {
    hide Adds;
    Updated(s.passwd, Records(i)[PASSWD]);
    Updated(s.groups, Records(i)[GROUP]);
    Updated(s.shadow, Records(i)[SHADOW]);
    Updated(s.gshadow, Records(i)[GSHADOW]);
    Updated(s.subuids, Block(i.subuid));
    Updated(s.subgids, Block(i.subgid));
  }
}
