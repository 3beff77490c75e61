/** The parser and validator of the six account files
    (management-lifecycle/identity.py). Every refusal is None. */
module AccountTables {
  import opened Prelude
  import Codes
  import opened AccountText

  /** A file's bytes: the text they stand for, if they decode as UTF-8. */
  datatype Content = Content(text: string, decodes: bool)

  type Row = seq<string>

  type Table = map<string, Row>

  type Extent = (nat, nat)

  type Extents = map<string, Extent>

  // The order in which the transaction replaces the files.
  const GROUP := 0
  const GSHADOW := 1
  const SHADOW := 2
  const PASSWD := 3
  const SUBUID := 4
  const SUBGID := 5
  const FILES := 6

  type Raw = r: seq<Option<Content>> | |r| == FILES witness [None, None, None, None, None, None]

  datatype Snapshot = Snapshot(passwd: Table, groups: Table, shadow: Table, gshadow: Table,
                               subuids: Extents, subgids: Extents)

  // ----- _lines -----

  predicate Ignored(line: string) {
    line == "" || line[0] == '#'
  }

  function AddRow(table: Option<Table>, line: string, fields: nat): Option<Table> {
    if table.None? || Ignored(line) then table
    else
      var row := Split(line, ':');
      if |row| != fields || !IsAccount(row[0]) || row[0] in table.value then None
      else Some(table.value[row[0] := row])
  }

  function Rows(lines: seq<string>, fields: nat): Option<Table> {
    if lines == [] then Some(map[]) else AddRow(Rows(lines[..|lines| - 1], fields), lines[|lines| - 1], fields)
  }

  predicate IsTerminated(text: string) {
    && '\r' !in text && '\0' !in text
    && (text == "" || text[|text| - 1] == '\n')
  }

  function ParseTable(content: Option<Content>, fields: nat): Option<Table> {
    if content.None? then Some(map[])
    else if !content.value.decodes || !IsTerminated(content.value.text) then None
    else Rows(Lines(content.value.text), fields)
  }

  method ReadTable(content: Option<Content>, fields: nat) returns (r: Option<Table>)
    ensures r == ParseTable(content, fields)
  {
    if content.None? {
      return Some(map[]);
    }
    if !content.value.decodes || !IsTerminated(content.value.text) {
      return None;
    }
    var lines := Lines(content.value.text);
    var table: Table := map[];
    for i := 0 to |lines|
      invariant Rows(lines[..i], fields) == Some(table)
    {
      assert lines[..i + 1][..i] == lines[..i];
      if !Ignored(lines[i]) {
        var row := Split(lines[i], ':');
        if |row| != fields || !IsAccount(row[0]) || row[0] in table {
          RowsStayRefused(lines, i + 1, fields);
          return None;
        }
        table := table[row[0] := row];
      }
    }
    assert lines[..|lines|] == lines;
    return Some(table);
  }

  lemma {:induction false} RowsStayRefused(lines: seq<string>, i: nat, fields: nat)
    requires i <= |lines| && Rows(lines[..i], fields).None?
    ensures Rows(lines, fields).None?
    decreases |lines|
  {
    if i == |lines| {
      assert lines[..i] == lines;
    } else {
      var shorter := lines[..|lines| - 1];
      assert shorter[..i] == lines[..i];
      RowsStayRefused(shorter, i, fields);
    }
  }

  /** Line `i` is a well-formed row for `name`. */
  ghost predicate RowAt(lines: seq<string>, i: int, fields: nat, name: string, row: Row) {
    && 0 <= i < |lines| && !Ignored(lines[i]) && row == Split(lines[i], ':') && WellFormed(row, fields) && row[0] == name
  }

  predicate WellFormed(row: Row, fields: nat) {
    row != [] && |row| == fields && IsAccount(row[0])
  }

  /** A table holds exactly the rows of the lines that are not ignored, each
      under its own name. */
  lemma {:induction false} TableHolds(lines: seq<string>, fields: nat, name: string, row: Row)
    requires Rows(lines, fields).Some?
    ensures name in Rows(lines, fields).value && Rows(lines, fields).value[name] == row <==>
            exists i :: RowAt(lines, i, fields, name, row)
  {
    hide IsAccount;
    if lines != [] {
      var n := |lines| - 1;
      var shorter := lines[..n];
      TableHolds(shorter, fields, name, row);
      RowsOfShorter(lines, shorter, fields, name, row);
      if !Ignored(lines[n]) {
        LastIsNew(shorter, fields, Split(lines[n], ':')[0], row);
      }
    }
  }

  lemma RowsOfShorter(lines: seq<string>, shorter: seq<string>, fields: nat, name: string, row: Row)
    requires lines != [] && shorter == lines[..|lines| - 1]
    ensures (exists i :: RowAt(lines, i, fields, name, row)) <==>
            (exists i :: RowAt(shorter, i, fields, name, row)) || RowAt(lines, |lines| - 1, fields, name, row)
  {
    forall i | 0 <= i < |shorter| ensures RowAt(shorter, i, fields, name, row) <==> RowAt(lines, i, fields, name, row) {
    }
  }

  lemma {:induction false} LastIsNew(lines: seq<string>, fields: nat, name: string, row: Row)
    requires Rows(lines, fields).Some? && name !in Rows(lines, fields).value
    ensures !exists i :: RowAt(lines, i, fields, name, row)
  {
    if lines != [] {
      var shorter := lines[..|lines| - 1];
      LastIsNew(shorter, fields, name, row);
      RowsOfShorter(lines, shorter, fields, name, row);
    }
  }

  /** Every row is under its own name, and has the width of its file. */
  lemma RowsShaped(content: Option<Content>, fields: nat)
    requires ParseTable(content, fields).Some?
    ensures forall name :: name in ParseTable(content, fields).value ==>
              |ParseTable(content, fields).value[name]| == fields > 0 && ParseTable(content, fields).value[name][0] == name
  {
    var table := ParseTable(content, fields).value;
    forall name | name in table ensures |table[name]| == fields > 0 && table[name][0] == name {
      var lines := Lines(content.value.text);
      TableHolds(lines, fields, name, table[name]);
      var i :| RowAt(lines, i, fields, name, table[name]);
    }
  }

  /** Every line that counts is well formed, and no two have the same name. */
  ghost predicate GoodRows(lines: seq<string>, fields: nat) {
    && (forall i :: 0 <= i < |lines| && !Ignored(lines[i]) ==> WellFormed(Split(lines[i], ':'), fields))
    && (forall i, j :: 0 <= i < j < |lines| && !Ignored(lines[i]) && !Ignored(lines[j]) ==>
          Split(lines[i], ':')[0] != Split(lines[j], ':')[0])
  }

  ghost predicate IsNew(lines: seq<string>, name: string) {
    forall i :: 0 <= i < |lines| && !Ignored(lines[i]) ==> Split(lines[i], ':')[0] != name
  }

  /** A file is accepted exactly if its rows are good. */
  lemma {:induction false} TableAccepts(lines: seq<string>, fields: nat)
    ensures Rows(lines, fields).Some? <==> GoodRows(lines, fields)
  {
    hide GoodRows, IsNew, IsAccount;
    if lines == [] {
      NoRowsAreGood(fields);
    } else {
      var n := |lines| - 1;
      TableAccepts(lines[..n], fields);
      GoodShorter(lines, fields);
      if Rows(lines[..n], fields).Some? {
        NameIsTaken(lines[..n], fields, Split(lines[n], ':')[0]);
      }
    }
  }

  lemma NoRowsAreGood(fields: nat)
    ensures GoodRows([], fields)
  {
  }

  lemma NameIsTaken(lines: seq<string>, fields: nat, name: string)
    requires Rows(lines, fields).Some? && GoodRows(lines, fields)
    ensures name !in Rows(lines, fields).value <==> IsNew(lines, name)
  {
    hide IsAccount;
    var table := Rows(lines, fields).value;
    if name in table {
      TableHolds(lines, fields, name, table[name]);
      var i :| RowAt(lines, i, fields, name, table[name]);
    } else {
      forall i | 0 <= i < |lines| && !Ignored(lines[i]) ensures Split(lines[i], ':')[0] != name {
        LastIsNew(lines, fields, name, Split(lines[i], ':'));
        assert !RowAt(lines, i, fields, name, Split(lines[i], ':'));
      }
    }
  }

  lemma GoodShorter(lines: seq<string>, fields: nat)
    requires lines != []
    ensures var n := |lines| - 1;
            GoodRows(lines, fields) <==>
              && GoodRows(lines[..n], fields)
              && (Ignored(lines[n]) ||
                  (WellFormed(Split(lines[n], ':'), fields) && IsNew(lines[..n], Split(lines[n], ':')[0])))
  {
    var n := |lines| - 1;
    assert forall i :: 0 <= i < n ==> lines[..n][i] == lines[i];
  }

  /** A record whose name is new is added, and nothing else changes. */
  lemma TableAppend(content: Option<Content>, fields: nat, row: Row)
    requires ParseTable(content, fields).Some? && row != [] && |row| == fields
    requires IsAccount(row[0]) && row[0] !in ParseTable(content, fields).value
    requires IsRecord(row)
    ensures ParseTable(Some(Appended(content, row)), fields) ==
            Some(ParseTable(content, fields).value[row[0] := row])
  {
    AppendedLines(content, row);
    FirstChar(row);
    RowsPush(Lines(Before(content)), Join(row, ':'), fields);
    assert Rows(Lines(""), fields) == Some(map[]);
  }

  lemma RowsPush(lines: seq<string>, line: string, fields: nat)
    ensures Rows(lines + [line], fields) == AddRow(Rows(lines, fields), line, fields)
  {
    assert (lines + [line])[..|lines|] == lines;
  }

  function Before(content: Option<Content>): string {
    if content.None? then "" else content.value.text
  }

  lemma AppendedLines(content: Option<Content>, row: Row)
    requires row != [] && IsRecord(row) && IsTerminated(Before(content))
    ensures Lines(Appended(content, row).text) == Lines(Before(content)) + [Join(row, ':')]
    ensures IsTerminated(Appended(content, row).text) && Split(Join(row, ':'), ':') == row
  {
    var before, line := Before(content), Join(row, ':');
    RecordLine(row);
    LinesAppend(before, line + "\n");
    OneLine(line);
    AppendedTerminated(before, line);
    assert Appended(content, row).text == before + (line + "\n");
  }

  lemma AppendedTerminated(before: string, line: string)
    requires IsTerminated(before) && '\r' !in line && '\0' !in line
    ensures IsTerminated(before + (line + "\n"))
  {
  }

  /** The fields of a record hold no separator and no line break. */
  predicate IsRecord(row: Row) {
    forall f, c :: f in row && c in f ==> c != ':' && c != '\0' && !IsLineBreak(c)
  }

  lemma RecordLine(row: Row)
    requires row != [] && IsRecord(row)
    ensures Split(Join(row, ':'), ':') == row
    ensures forall c :: c in Join(row, ':') ==> !IsLineBreak(c) && c != '\0' && c != '\r'
  {
    SplitJoin(row, ':');
    forall c | c in Join(row, ':') ensures !IsLineBreak(c) && c != '\0' && c != '\r' {
      JoinedChars(row, ':', c);
    }
  }

  lemma FirstChar(row: Row)
    requires row != [] && row[0] != ""
    ensures Join(row, ':') != "" && Join(row, ':')[0] == row[0][0]
  {
  }

  /** The file with the record appended. */
  function Appended(content: Option<Content>, row: Row): Content
    requires row != []
  {
    var record := Join(row, ':') + "\n";
    if content.None? then Content(record, true) else Content(content.value.text + record, content.value.decodes)
  }

  // ----- Numeric identities -----

  function Id(row: Row): Option<nat> {
    if |row| > 2 then Number(row[2]) else None
  }

  predicate DistinctIds(table: Table) {
    && (forall name :: name in table ==> Id(table[name]).Some?)
    && (forall a, b :: a in table && b in table && a != b ==> Id(table[a]) != Id(table[b]))
  }

  function Ids(table: Table): set<nat> {
    set name | name in table && Id(table[name]).Some? :: Id(table[name]).value
  }

  function ByUid(users: Table): map<nat, string>
    requires DistinctIds(users)
  {
    map name | name in users :: Id(users[name]).value := name
  }

  // ----- _subids -----

  predicate Overlap(a: Extent, b: Extent) {
    a.0 <= b.1 && b.0 <= a.1
  }

  /** The owner that a field names, directly or by its number. */
  function Owner(field: string, users: Table): Option<string>
    requires DistinctIds(users)
  {
    if field != "" && forall c :: c in field ==> IsDigit(c) then
      var n := Number(field);
      if n.Some? && n.value in ByUid(users) then Some(ByUid(users)[n.value]) else None
    else if field in users then Some(field)
    else None
  }

  function ParseExtent(start: Option<nat>, count: Option<nat>): Option<Extent> {
    if start.None? || count.None? || start.value == 0 || count.value == 0 || start.value + count.value - 1 > MAX_ID then None
    else Some((start.value, start.value + count.value - 1))
  }

  predicate Meets(extent: Extent, extents: Extents) {
    exists name :: name in extents && Overlap(extent, extents[name])
  }

  function AddExtent(extents: Option<Extents>, line: string, users: Table): Option<Extents>
    requires DistinctIds(users)
  {
    if extents.None? || Ignored(line) then extents
    else
      var row := Split(line, ':');
      if |row| != 3 then None
      else
        var owner := Owner(row[0], users);
        var extent := ParseExtent(Number(row[1]), Number(row[2]));
        if owner.None? || extent.None? || owner.value in extents.value || Meets(extent.value, extents.value) then None
        else Some(extents.value[owner.value := extent.value])
  }

  function ExtentRows(lines: seq<string>, users: Table): Option<Extents>
    requires DistinctIds(users)
  {
    if lines == [] then Some(map[]) else AddExtent(ExtentRows(lines[..|lines| - 1], users), lines[|lines| - 1], users)
  }

  function ParseExtents(content: Option<Content>, users: Table): Option<Extents>
    requires DistinctIds(users)
  {
    if content.None? then Some(map[])
    else if !content.value.decodes || !Codes.Ascii(content.value.text) || !IsTerminated(content.value.text) then None
    else ExtentRows(Lines(content.value.text), users)
  }

  method ReadExtents(content: Option<Content>, users: Table) returns (r: Option<Extents>)
    requires DistinctIds(users)
    ensures r == ParseExtents(content, users)
  {
    if content.None? {
      return Some(map[]);
    }
    if !content.value.decodes || !Codes.Ascii(content.value.text) || !IsTerminated(content.value.text) {
      return None;
    }
    var lines := Lines(content.value.text);
    var extents: Extents := map[];
    for i := 0 to |lines|
      invariant ExtentRows(lines[..i], users) == Some(extents)
    {
      assert lines[..i + 1][..i] == lines[..i];
      var next := AddExtent(Some(extents), lines[i], users);
      if next.None? {
        ExtentsStayRefused(lines, i + 1, users);
        return None;
      }
      extents := next.value;
    }
    assert lines[..|lines|] == lines;
    return Some(extents);
  }

  lemma {:induction false} ExtentsStayRefused(lines: seq<string>, i: nat, users: Table)
    requires DistinctIds(users) && i <= |lines| && ExtentRows(lines[..i], users).None?
    ensures ExtentRows(lines, users).None?
    decreases |lines|
  {
    if i == |lines| {
      assert lines[..i] == lines;
    } else {
      var shorter := lines[..|lines| - 1];
      assert shorter[..i] == lines[..i];
      ExtentsStayRefused(shorter, i, users);
    }
  }

  /** Accepted extents have known owners and never meet. */
  ghost predicate Apart(extents: Extents, users: Table) {
    && (forall name :: name in extents ==> name in users && 0 < extents[name].0 <= extents[name].1 <= MAX_ID)
    && (forall a, b :: a in extents && b in extents && a != b ==> !Overlap(extents[a], extents[b]))
  }

  lemma {:induction false} ExtentsAreApart(lines: seq<string>, users: Table)
    requires DistinctIds(users) && ExtentRows(lines, users).Some?
    ensures Apart(ExtentRows(lines, users).value, users)
  {
    hide Apart;
    if lines == [] {
      EmptyIsApart(users);
    } else {
      ExtentsAreApart(lines[..|lines| - 1], users);
      AddedIsApart(ExtentRows(lines[..|lines| - 1], users).value, lines[|lines| - 1], users);
    }
  }

  lemma EmptyIsApart(users: Table)
    ensures Apart(map[], users)
  {
  }

  lemma AddedIsApart(extents: Extents, line: string, users: Table)
    requires DistinctIds(users) && Apart(extents, users) && AddExtent(Some(extents), line, users).Some?
    ensures Apart(AddExtent(Some(extents), line, users).value, users)
  {
    if !Ignored(line) {
      var row := Split(line, ':');
      OwnerIsUser(row[0], users);
    }
  }

  lemma OwnerIsUser(field: string, users: Table)
    requires DistinctIds(users)
    ensures Owner(field, users).Some? ==> Owner(field, users).value in users
  {
  }

  /** More users change nothing in a table of extents that was accepted. */
  lemma {:induction false} MoreUsers(lines: seq<string>, users: Table, more: Table)
    requires DistinctIds(users) && DistinctIds(more) && ExtentRows(lines, users).Some?
    requires forall name :: name in users ==> name in more && more[name] == users[name]
    ensures ExtentRows(lines, more) == ExtentRows(lines, users)
  {
    if lines != [] {
      var n := |lines| - 1;
      MoreUsers(lines[..n], users, more);
      if !Ignored(lines[n]) {
        SameOwner(Split(lines[n], ':')[0], users, more);
      }
    }
  }

  lemma SameOwner(field: string, users: Table, more: Table)
    requires DistinctIds(users) && DistinctIds(more) && Owner(field, users).Some?
    requires forall name :: name in users ==> name in more && more[name] == users[name]
    ensures Owner(field, more) == Owner(field, users)
  {
    if field != "" && forall c :: c in field ==> IsDigit(c) {
      var n := Number(field).value;
      var name := ByUid(users)[n];
      assert name in more && Id(more[name]).value == n;
      assert n in ByUid(more);
    }
  }

  lemma ExtentsAppend(content: Option<Content>, users: Table, more: Table, row: Row, extent: Extent)
    requires DistinctIds(users) && DistinctIds(more) && ParseExtents(content, users).Some?
    requires forall name :: name in users ==> name in more && more[name] == users[name]
    requires |row| == 3 && IsRecord(row) && IsAccount(row[0]) && row[0] in more && !IsDigit(row[0][0])
    requires row[0] !in ParseExtents(content, users).value
    requires ParseExtent(Number(row[1]), Number(row[2])) == Some(extent)
    requires !Meets(extent, ParseExtents(content, users).value)
    requires forall f, c :: f in row && c in f ==> c as nat < 0x80
    ensures ParseExtents(Some(Appended(content, row)), more) ==
            Some(ParseExtents(content, users).value[row[0] := extent])
  {
    hide AddExtent, ExtentRows, Meets, ParseExtent,  IsTerminated, IsAccount, Appended, DistinctIds, IsRecord;
    ParsedLines(content, users);
    AppendedLines(content, row);
    AppendedAscii(content, row);
    MoreUsers(Lines(Before(content)), users, more);
    ExtentRowsPush(Lines(Before(content)), Join(row, ':'), more);
    RecordExtent(ParseExtents(content, users).value, row, more, extent);
    ParsedLines(Some(Appended(content, row)), more);
    AppendedDecodes(content, row);
  }

  lemma AppendedDecodes(content: Option<Content>, row: Row)
    requires row != []
    ensures Appended(content, row).decodes == (content.None? || content.value.decodes)
  {
  }

  lemma ParsedLines(content: Option<Content>, users: Table)
    requires DistinctIds(users)
    ensures ParseExtents(content, users).Some? ==>
              && (content.Some? ==> content.value.decodes)
              && Codes.Ascii(Before(content)) && IsTerminated(Before(content))
              && ParseExtents(content, users) == ExtentRows(Lines(Before(content)), users)
  {
    assert ExtentRows(Lines(""), users) == Some(map[]);
  }

  lemma RecordExtent(extents: Extents, row: Row, users: Table, extent: Extent)
    requires DistinctIds(users) && |row| == 3 && IsRecord(row)
    requires IsAccount(row[0]) && row[0] in users && row[0] !in extents && !IsDigit(row[0][0])
    requires ParseExtent(Number(row[1]), Number(row[2])) == Some(extent) && !Meets(extent, extents)
    ensures AddExtent(Some(extents), Join(row, ':'), users) == Some(extents[row[0] := extent])
  {
    RecordLine(row);
    FirstChar(row);
    assert row[0][0] in row[0];
  }

  lemma ExtentRowsPush(lines: seq<string>, line: string, users: Table)
    requires DistinctIds(users)
    ensures ExtentRows(lines + [line], users) == AddExtent(ExtentRows(lines, users), line, users)
  {
    assert (lines + [line])[..|lines|] == lines;
  }

  lemma AppendedAscii(content: Option<Content>, row: Row)
    requires row != [] && Codes.Ascii(Before(content)) && forall f, c :: f in row && c in f ==> c as nat < 0x80
    ensures Codes.Ascii(Appended(content, row).text)
  {
    forall c | c in Join(row, ':') ensures c as nat < 0x80 {
      JoinedChars(row, ':', c);
    }
    var record := Join(row, ':') + "\n";
    forall i | 0 <= i < |record| ensures record[i] as nat < 0x80 {
      if i < |Join(row, ':')| { assert record[i] in Join(row, ':'); }
    }
  }

  // ----- read_validate -----

  function Members(field: string): seq<string> {
    if field == "" then [] else Split(field, ',')
  }

  predicate ValidMembers(field: string, users: Table) {
    var members := Members(field);
    && (forall i, j :: 0 <= i < j < |members| ==> members[i] != members[j])
    && (forall i :: 0 <= i < |members| ==> members[i] in users)
  }

  predicate ValidGroups(groups: Table, gshadow: Table, users: Table) {
    && (forall name :: name in groups ==> |groups[name]| == 4 && ValidMembers(groups[name][3], users))
    && (forall name :: name in gshadow ==> |gshadow[name]| == 4 && ValidMembers(gshadow[name][2], users)
                                           && ValidMembers(gshadow[name][3], users))
  }

  predicate ValidShadow(shadow: Table) {
    forall name, i :: name in shadow && 2 <= i < |shadow[name]| ==> shadow[name][i] == "" || Number(shadow[name][i]).Some?
  }

  predicate ValidPrimaryGroups(users: Table, groups: Table) {
    forall name :: name in users ==> |users[name]| == 7 && Number(users[name][3]).Some?
                                     && Number(users[name][3]).value in Ids(groups)
  }

  predicate Clear(extents: Extents, ids: set<nat>) {
    forall name, id :: name in extents && id in ids ==> !(extents[name].0 <= id <= extents[name].1)
  }

  predicate ValidAccounts(users: Table, groups: Table, shadow: Table, gshadow: Table) {
    && DistinctIds(users) && DistinctIds(groups) && ValidPrimaryGroups(users, groups)
    && ValidGroups(groups, gshadow, users) && ValidShadow(shadow)
    && shadow.Keys == users.Keys && gshadow.Keys == groups.Keys
  }

  function Check(users: Table, groups: Table, shadow: Table, gshadow: Table, raw: Raw): Option<Snapshot> {
    if !ValidAccounts(users, groups, shadow, gshadow) then None
    else
      var subuids, subgids := ParseExtents(raw[SUBUID], users), ParseExtents(raw[SUBGID], users);
      if subuids.None? || subgids.None? || !Clear(subuids.value, Ids(users) + Ids(groups))
         || !Clear(subgids.value, Ids(users) + Ids(groups)) then None
      else Some(Snapshot(users, groups, shadow, gshadow, subuids.value, subgids.value))
  }

  function ReadValidate(raw: Raw): Option<Snapshot> {
    if raw[GROUP].None? || raw[GSHADOW].None? || raw[SHADOW].None? || raw[PASSWD].None? then None
    else
      var users, groups := ParseTable(raw[PASSWD], 7), ParseTable(raw[GROUP], 4);
      var shadow, gshadow := ParseTable(raw[SHADOW], 9), ParseTable(raw[GSHADOW], 4);
      if users.None? || groups.None? || shadow.None? || gshadow.None? then None
      else Check(users.value, groups.value, shadow.value, gshadow.value, raw)
  }

  /** identity.py `read_validate`, table by table. */
  method Validate(raw: Raw) returns (r: Option<Snapshot>)
    ensures r == ReadValidate(raw)
  {
    if raw[GROUP].None? || raw[GSHADOW].None? || raw[SHADOW].None? || raw[PASSWD].None? {
      return None;
    }
    var users := ReadTable(raw[PASSWD], 7);
    var groups := ReadTable(raw[GROUP], 4);
    var shadow := ReadTable(raw[SHADOW], 9);
    var gshadow := ReadTable(raw[GSHADOW], 4);
    if users.None? || groups.None? || shadow.None? || gshadow.None? {
      return None;
    }
    if !ValidAccounts(users.value, groups.value, shadow.value, gshadow.value) {
      return None;
    }
    var subuids := ReadExtents(raw[SUBUID], users.value);
    var subgids := ReadExtents(raw[SUBGID], users.value);
    if subuids.None? || subgids.None? {
      return None;
    }
    var occupied := Ids(users.value) + Ids(groups.value);
    if !Clear(subuids.value, occupied) || !Clear(subgids.value, occupied) {
      return None;
    }
    return Some(Snapshot(users.value, groups.value, shadow.value, gshadow.value, subuids.value, subgids.value));
  }

  /** The extents of an accepted snapshot run upward. */
  lemma AcceptedExtents(raw: Raw)
    requires ReadValidate(raw).Some?
    ensures var s := ReadValidate(raw).value;
            && (forall name :: name in s.subuids ==> s.subuids[name].0 <= s.subuids[name].1)
            && (forall name :: name in s.subgids ==> s.subgids[name].0 <= s.subgids[name].1)
  {
    hide Apart;
    var users := ReadValidate(raw).value.passwd;
    ParsedUpward(raw[SUBUID], users);
    ParsedUpward(raw[SUBGID], users);
  }

  lemma ParsedUpward(content: Option<Content>, users: Table)
    requires DistinctIds(users) && ParseExtents(content, users).Some?
    ensures forall name :: name in ParseExtents(content, users).value ==>
                             ParseExtents(content, users).value[name].0 <= ParseExtents(content, users).value[name].1
  {
    if content.Some? {
      ExtentsAreApart(Lines(content.value.text), users);
    }
  }

  // ----- What is accepted -----

  /** Whose extent a line gives: the user that it names, by a number or directly. */
  lemma OwnerDecides(field: string, users: Table, name: string)
    requires DistinctIds(users)
    ensures Owner(field, users) == Some(name) <==>
            name in users && if field != "" && (forall c :: c in field ==> IsDigit(c))
                             then Number(field).Some? && Number(field) == Number(users[name][2]) else field == name
  {
    if field != "" && forall c :: c in field ==> IsDigit(c) {
      var n := Number(field);
      if name in users && n.Some? && Id(users[name]) == n {
        assert n.value in ByUid(users);
        assert Id(users[ByUid(users)[n.value]]).value == n.value;
      }
    }
  }

  /** Line `i` gives `name` the extent `e`. */
  ghost predicate ExtentAt(lines: seq<string>, i: int, users: Table, name: string, e: Extent)
    requires DistinctIds(users)
  {
    && 0 <= i < |lines| && !Ignored(lines[i]) && |Split(lines[i], ':')| == 3
    && Owner(Split(lines[i], ':')[0], users) == Some(name)
    && Number(Split(lines[i], ':')[1]) == Some(e.0) && e.0 <= e.1
    && Number(Split(lines[i], ':')[2]) == Some(e.1 - e.0 + 1)
  }

  /** The extents are exactly those that the lines give. */
  lemma {:induction false} ExtentsHold(lines: seq<string>, users: Table, name: string, e: Extent)
    requires DistinctIds(users) && ExtentRows(lines, users).Some?
    ensures name in ExtentRows(lines, users).value && ExtentRows(lines, users).value[name] == e <==>
            exists i :: ExtentAt(lines, i, users, name, e)
  {
    if lines != [] {
      var n := |lines| - 1;
      ExtentsHold(lines[..n], users, name, e);
      ExtentsOfShorter(lines, lines[..n], users, name, e);
      if !Ignored(lines[n]) {
        LastOwnerIsNew(lines[..n], users, Owner(Split(lines[n], ':')[0], users).value, e);
      }
    }
  }

  lemma ExtentsOfShorter(lines: seq<string>, shorter: seq<string>, users: Table, name: string, e: Extent)
    requires DistinctIds(users) && lines != [] && shorter == lines[..|lines| - 1]
    ensures (exists i :: ExtentAt(lines, i, users, name, e)) <==>
            (exists i :: ExtentAt(shorter, i, users, name, e)) || ExtentAt(lines, |lines| - 1, users, name, e)
  {
    forall i | 0 <= i < |shorter| ensures ExtentAt(shorter, i, users, name, e) <==> ExtentAt(lines, i, users, name, e) {
    }
  }

  lemma {:induction false} LastOwnerIsNew(lines: seq<string>, users: Table, name: string, e: Extent)
    requires DistinctIds(users) && ExtentRows(lines, users).Some? && name !in ExtentRows(lines, users).value
    ensures !exists i :: ExtentAt(lines, i, users, name, e)
  {
    if lines != [] {
      var shorter := lines[..|lines| - 1];
      LastOwnerIsNew(shorter, users, name, e);
      ExtentsOfShorter(lines, shorter, users, name, e);
    }
  }

  /** Line `i` gives some user an extent of identity numbers. */
  ghost predicate Gives(lines: seq<string>, i: int, users: Table)
    requires DistinctIds(users)
  {
    exists name, e: Extent :: ExtentAt(lines, i, users, name, e) && 0 < e.0 && e.1 <= MAX_ID
  }

  /** What two lines give has different owners and does not meet. */
  ghost predicate Agree(lines: seq<string>, i: int, j: int, users: Table)
    requires DistinctIds(users)
  {
    forall a, e: Extent, b, f: Extent :: ExtentAt(lines, i, users, a, e) && ExtentAt(lines, j, users, b, f) ==>
      a != b && !Overlap(e, f)
  }

  ghost predicate AgreesWithEarlier(lines: seq<string>, n: nat, users: Table)
    requires DistinctIds(users)
  {
    forall i :: 0 <= i < n ==> Agree(lines, i, n, users)
  }

  ghost predicate GoodExtents(lines: seq<string>, users: Table)
    requires DistinctIds(users)
  {
    && (forall i :: 0 <= i < |lines| && !Ignored(lines[i]) ==> Gives(lines, i, users))
    && (forall i, j :: 0 <= i < j < |lines| ==> Agree(lines, i, j, users))
  }

  lemma LastGives(lines: seq<string>, n: nat, users: Table)
    requires DistinctIds(users) && n < |lines| && !Ignored(lines[n])
    ensures var row := Split(lines[n], ':');
            Gives(lines, n, users) <==>
              |row| == 3 && Owner(row[0], users).Some? && ParseExtent(Number(row[1]), Number(row[2])).Some?
  {
    var row := Split(lines[n], ':');
    if |row| == 3 && Owner(row[0], users).Some? && ParseExtent(Number(row[1]), Number(row[2])).Some? {
      assert ExtentAt(lines, n, users, Owner(row[0], users).value, ParseExtent(Number(row[1]), Number(row[2])).value);
    }
  }

  lemma LastGivesThis(lines: seq<string>, n: nat, users: Table, name: string, e: Extent)
    requires DistinctIds(users) && n < |lines| && !Ignored(lines[n]) && Gives(lines, n, users)
    ensures var row := Split(lines[n], ':');
            ExtentAt(lines, n, users, name, e) <==>
              |row| == 3 && Owner(row[0], users) == Some(name) && ParseExtent(Number(row[1]), Number(row[2])) == Some(e)
  {
  }

  lemma GoodExtentsShorter(lines: seq<string>, shorter: seq<string>, users: Table)
    requires DistinctIds(users) && lines != [] && shorter == lines[..|lines| - 1]
    ensures GoodExtents(lines, users) <==>
            && GoodExtents(shorter, users)
            && (Ignored(lines[|lines| - 1]) || Gives(lines, |lines| - 1, users))
            && AgreesWithEarlier(lines, |lines| - 1, users)
  {
    forall i | 0 <= i < |shorter|
      ensures Gives(lines, i, users) <==> Gives(shorter, i, users)
    {
      SameLine(lines, shorter, i, users);
    }
    forall i, j | 0 <= i < j < |shorter| ensures Agree(lines, i, j, users) <==> Agree(shorter, i, j, users) {
      SameLine(lines, shorter, i, users);
      SameLine(lines, shorter, j, users);
    }
  }

  lemma SameLine(lines: seq<string>, shorter: seq<string>, i: nat, users: Table)
    requires DistinctIds(users) && lines != [] && shorter == lines[..|lines| - 1] && i < |shorter|
    ensures forall name, e: Extent :: ExtentAt(lines, i, users, name, e) <==> ExtentAt(shorter, i, users, name, e)
  {
  }

  /** A file of extents is accepted exactly if every line that counts gives a user
      an extent, no user two, and no two extents meet. */
  lemma {:induction false} ExtentsAccept(lines: seq<string>, users: Table)
    requires DistinctIds(users)
    ensures ExtentRows(lines, users).Some? <==> GoodExtents(lines, users)
  {
    hide GoodExtents, Gives, Agree, ExtentAt, DistinctIds, AddExtent;
    if lines == [] {
      NoExtentsAreGood(users);
    } else {
      var n := |lines| - 1;
      ExtentsAccept(lines[..n], users);
      GoodExtentsShorter(lines, lines[..n], users);
      if ExtentRows(lines[..n], users).Some? {
        LastAdds(lines, lines[..n], users);
      } else {
        ExtentsStayRefused(lines, n, users);
      }
    }
  }

  lemma NoExtentsAreGood(users: Table)
    requires DistinctIds(users)
    ensures GoodExtents([], users)
  {
  }

  lemma LastAdds(lines: seq<string>, shorter: seq<string>, users: Table)
    requires DistinctIds(users) && lines != [] && shorter == lines[..|lines| - 1] && ExtentRows(shorter, users).Some?
    ensures AddExtent(ExtentRows(shorter, users), lines[|lines| - 1], users).Some? <==>
            && (Ignored(lines[|lines| - 1]) || Gives(lines, |lines| - 1, users))
            && AgreesWithEarlier(lines, |lines| - 1, users)
  {
    hide Gives, Agree, ExtentAt, DistinctIds, ExtentRows;
    var n := |lines| - 1;
    if Ignored(lines[n]) {
      IgnoredAgrees(lines, n, users);
    } else {
      LastGives(lines, n, users);
      if Gives(lines, n, users) {
        var row := Split(lines[n], ':');
        LastMeets(lines, shorter, users, Owner(row[0], users).value, ParseExtent(Number(row[1]), Number(row[2])).value);
      }
    }
  }

  lemma IgnoredAgrees(lines: seq<string>, n: nat, users: Table)
    requires DistinctIds(users) && n < |lines| && Ignored(lines[n])
    ensures AgreesWithEarlier(lines, n, users)
  {
  }

  lemma LastMeets(lines: seq<string>, shorter: seq<string>, users: Table, owner: string, e: Extent)
    requires DistinctIds(users) && lines != [] && shorter == lines[..|lines| - 1] && ExtentRows(shorter, users).Some?
    requires !Ignored(lines[|lines| - 1]) && Gives(lines, |lines| - 1, users)
    requires Owner(Split(lines[|lines| - 1], ':')[0], users) == Some(owner)
    requires |Split(lines[|lines| - 1], ':')| == 3
    requires ParseExtent(Number(Split(lines[|lines| - 1], ':')[1]), Number(Split(lines[|lines| - 1], ':')[2])) == Some(e)
    ensures var extents := ExtentRows(shorter, users).value;
            owner !in extents && !Meets(e, extents) <==>
              AgreesWithEarlier(lines, |lines| - 1, users)
  {
    hide Gives, ExtentAt, DistinctIds, ExtentRows, ParseExtent, Owner;
    var n, extents := |lines| - 1, ExtentRows(shorter, users).value;
    LastGivesThis(lines, n, users, owner, e);
    forall i, a, f: Extent | 0 <= i < n && ExtentAt(lines, i, users, a, f) ensures a in extents && extents[a] == f {
      SameLine(lines, shorter, i, users);
      ExtentsHold(shorter, users, a, f);
    }
    forall i, a, f: Extent, b, g: Extent | 0 <= i < n && ExtentAt(lines, i, users, a, f) && ExtentAt(lines, n, users, b, g)
      ensures b == owner && g == e
    {
      LastGivesThis(lines, n, users, b, g);
    }
    if a :| a in extents && (a == owner || Overlap(e, extents[a])) {
      ExtentsHold(shorter, users, a, extents[a]);
      var i :| ExtentAt(shorter, i, users, a, extents[a]);
      ExtentIsListed(shorter, i, users, a, extents[a]);
      SameLine(lines, shorter, i, users);
      assert !Agree(lines, i, n, users);
    }
  }

  lemma ExtentIsListed(lines: seq<string>, i: int, users: Table, name: string, e: Extent)
    requires DistinctIds(users) && ExtentAt(lines, i, users, name, e)
    ensures 0 <= i < |lines|
  {
  }

  /** UTF-8 text of whole lines, without carriage returns and zeros. */
  ghost predicate IsTextFile(content: Content) {
    && content.decodes && (forall k :: 0 <= k < |content.text| ==> content.text[k] != '\r' && content.text[k] != '\0')
    && (content.text != "" ==> exists body: string :: content.text == body + "\n")
  }

  lemma TextFileMeans(content: Content)
    ensures IsTextFile(content) <==> content.decodes && IsTerminated(content.text)
  {
    var text := content.text;
    if IsTerminated(text) && text != "" {
      assert text == text[..|text| - 1] + "\n";
    }
  }

  /** A file that is there is accepted exactly if it is a text file with good
      rows, and with good extents in ASCII; an absent file holds nothing. */
  lemma FilesAccept(content: Option<Content>, fields: nat, users: Table)
    ensures ParseTable(content, fields).Some? <==>
            (content.Some? ==> IsTextFile(content.value) && GoodRows(Lines(content.value.text), fields))
    ensures DistinctIds(users) ==>
              (ParseExtents(content, users).Some? <==>
               (content.Some? ==>
                  && IsTextFile(content.value) && (forall k :: 0 <= k < |content.value.text| ==> content.value.text[k] < 128 as char)
                  && GoodExtents(Lines(content.value.text), users)))
  {
    hide GoodRows, GoodExtents, IsTextFile, IsTerminated, DistinctIds;
    if content.Some? {
      TextFileMeans(content.value);
      TableAccepts(Lines(content.value.text), fields);
      if DistinctIds(users) {
        ExtentsAccept(Lines(content.value.text), users);
      }
    }
  }

  /** Distinct numbers in the third field. */
  ghost predicate Numbered(table: Table) {
    && (forall name :: name in table ==> |table[name]| > 2 && Number(table[name][2]).Some?)
    && (forall a, b :: a in table && b in table && a != b ==> Number(table[a][2]) != Number(table[b][2]))
  }

  /** A list of different users. */
  ghost predicate ListsUsers(field: string, users: Table) {
    field != "" ==>
      && (forall i :: 0 <= i < |Split(field, ',')| ==> Split(field, ',')[i] in users)
      && (forall i, j :: 0 <= i < j < |Split(field, ',')| ==> Split(field, ',')[i] != Split(field, ',')[j])
  }

  /** A consistent database of users and groups. */
  ghost predicate Consistent(users: Table, groups: Table, shadow: Table, gshadow: Table) {
    && Numbered(users) && Numbered(groups)
    && (forall name :: name in users ==>
          |users[name]| == 7 && Number(users[name][3]).Some?
          && exists group :: group in groups && Number(groups[group][2]) == Number(users[name][3]))
    && (forall name :: name in groups ==> |groups[name]| == 4 && ListsUsers(groups[name][3], users))
    && (forall name :: name in gshadow ==>
          |gshadow[name]| == 4 && ListsUsers(gshadow[name][2], users) && ListsUsers(gshadow[name][3], users))
    && (forall name, k :: name in shadow && 2 <= k < |shadow[name]| && shadow[name][k] != "" ==> Number(shadow[name][k]).Some?)
    && (forall name :: name in shadow <==> name in users) && (forall name :: name in gshadow <==> name in groups)
  }

  /** No user or group has a number in one of the extents. */
  ghost predicate Outside(table: Table, extents: Extents) {
    forall name, owner :: name in table && owner in extents && Id(table[name]).Some? ==>
      !(extents[owner].0 <= Id(table[name]).value <= extents[owner].1)
  }

  lemma NumberedDecides(table: Table)
    ensures DistinctIds(table) <==> Numbered(table)
  {
    if Numbered(table) {
      forall name | name in table ensures Id(table[name]).Some? {
      }
    } else if DistinctIds(table) {
      forall name | name in table ensures |table[name]| > 2 && Number(table[name][2]).Some? {
        assert Id(table[name]).Some?;
      }
    }
  }

  lemma ListsUsersDecides(field: string, users: Table)
    ensures ValidMembers(field, users) <==> ListsUsers(field, users)
  {
    if field == "" {
      assert Members(field) == [];
    } else {
      assert Members(field) == Split(field, ',');
    }
  }

  lemma OutsideDecides(users: Table, groups: Table, extents: Extents)
    ensures Clear(extents, Ids(users) + Ids(groups)) <==> Outside(users, extents) && Outside(groups, extents)
  {
    if Clear(extents, Ids(users) + Ids(groups)) {
      forall name | name in users && Id(users[name]).Some? ensures Id(users[name]).value in Ids(users) + Ids(groups) {
      }
      forall name | name in groups && Id(groups[name]).Some? ensures Id(groups[name]).value in Ids(users) + Ids(groups) {
      }
    }
  }

  lemma GroupsDecide(groups: Table, gshadow: Table, users: Table)
    ensures ValidGroups(groups, gshadow, users) <==>
            && (forall name :: name in groups ==> |groups[name]| == 4 && ListsUsers(groups[name][3], users))
            && (forall name :: name in gshadow ==>
                  |gshadow[name]| == 4 && ListsUsers(gshadow[name][2], users) && ListsUsers(gshadow[name][3], users))
  {
    forall field ensures ValidMembers(field, users) <==> ListsUsers(field, users) {
      ListsUsersDecides(field, users);
    }
  }

  lemma PrimaryGroupsDecide(users: Table, groups: Table)
    requires DistinctIds(groups)
    ensures ValidPrimaryGroups(users, groups) <==>
            forall name :: name in users ==>
              |users[name]| == 7 && Number(users[name][3]).Some?
              && exists group :: group in groups && Id(groups[group]) == Number(users[name][3])
  {
  }

  lemma ConsistentDecides(users: Table, groups: Table, shadow: Table, gshadow: Table)
    ensures ValidAccounts(users, groups, shadow, gshadow) <==> Consistent(users, groups, shadow, gshadow)
  {
    hide ValidGroups, ValidPrimaryGroups, DistinctIds, Numbered, ListsUsers;
    NumberedDecides(users);
    NumberedDecides(groups);
    GroupsDecide(groups, gshadow, users);
    if Numbered(groups) {
      PrimaryGroupsDecide(users, groups);
      NumberedIds(groups);
    }
    assert shadow.Keys == users.Keys <==> forall name :: name in shadow <==> name in users;
    assert gshadow.Keys == groups.Keys <==> forall name :: name in gshadow <==> name in groups;
  }

  lemma NumberedIds(table: Table)
    requires Numbered(table)
    ensures forall name :: name in table ==> |table[name]| > 2 && Id(table[name]) == Number(table[name][2])
  {
  }

  /** Exactly the consistent databases are accepted whose extents parse and stay
      clear of all users and groups; and the snapshot holds their tables. */
  lemma AcceptsExactly(raw: Raw, s: Snapshot)
    ensures ReadValidate(raw) == Some(s) <==>
            && raw[GROUP].Some? && raw[GSHADOW].Some? && raw[SHADOW].Some? && raw[PASSWD].Some?
            && ParseTable(raw[PASSWD], 7) == Some(s.passwd) && ParseTable(raw[GROUP], 4) == Some(s.groups)
            && ParseTable(raw[SHADOW], 9) == Some(s.shadow) && ParseTable(raw[GSHADOW], 4) == Some(s.gshadow)
            && Consistent(s.passwd, s.groups, s.shadow, s.gshadow) && DistinctIds(s.passwd)
            && ParseExtents(raw[SUBUID], s.passwd) == Some(s.subuids)
            && ParseExtents(raw[SUBGID], s.passwd) == Some(s.subgids)
            && Outside(s.passwd, s.subuids) && Outside(s.groups, s.subuids)
            && Outside(s.passwd, s.subgids) && Outside(s.groups, s.subgids)
  {
    hide ParseTable, ParseExtents, Consistent, Outside, Clear;
    var users, groups := ParseTable(raw[PASSWD], 7), ParseTable(raw[GROUP], 4);
    var shadow, gshadow := ParseTable(raw[SHADOW], 9), ParseTable(raw[GSHADOW], 4);
    if users.Some? && groups.Some? && shadow.Some? && gshadow.Some? {
      ConsistentDecides(users.value, groups.value, shadow.value, gshadow.value);
      OutsideDecides(s.passwd, s.groups, s.subuids);
      OutsideDecides(s.passwd, s.groups, s.subgids);
    }
  }
}
