/** The text of an account file: lines, colon-separated fields, numbers and
    names, as management-lifecycle/identity.py reads them. */
module AccountText {
  import opened Prelude

  const MAX_ID: nat := 0xFFFF_FFFE

  // ----- Lines: str.splitlines -----

  predicate IsLineBreak(c: char) {
    c as nat in {0x0a, 0x0b, 0x0c, 0x0d, 0x1c, 0x1d, 0x1e, 0x85, 0x2028, 0x2029}
  }

  function LineLength(text: string): (k: nat)
    ensures k <= |text| && (k < |text| ==> IsLineBreak(text[k]))
    ensures forall i :: 0 <= i < k ==> !IsLineBreak(text[i])
  {
    if text == "" || IsLineBreak(text[0]) then 0 else 1 + LineLength(text[1..])
  }

  function Lines(text: string): (lines: seq<string>) {
    if text == "" then []
    else
      var k := LineLength(text);
      [text[..k]] + if k == |text| then [] else Lines(text[k + 1..])
  }

  predicate IsWhole(text: string) {
    text == "" || IsLineBreak(text[|text| - 1])
  }

  lemma {:induction false} LinesAppend(a: string, b: string)
    requires IsWhole(a)
    ensures Lines(a + b) == Lines(a) + Lines(b)
  {
    hide IsLineBreak, Lines;
    if a == "" {
      assert a + b == b;
      FirstLine(a);
    } else {
      var k := LineLength(a);
      LineLengthIs(a, k, b);
      var rest := a[k + 1..];
      assert (a + b)[k + 1..] == rest + b && (a + b)[..k] == a[..k];
      LinesAppend(rest, b);
      FirstLine(a);
      FirstLine(a + b);
    }
  }

  lemma FirstLine(text: string)
    ensures text == "" ==> Lines(text) == []
    ensures var k := LineLength(text);
            k < |text| ==> Lines(text) == [text[..k]] + Lines(text[k + 1..])
  {
  }

  lemma {:induction false} LineLengthIs(a: string, k: nat, b: string)
    requires k < |a| && IsLineBreak(a[k]) && forall i :: 0 <= i < k ==> !IsLineBreak(a[i])
    ensures LineLength(a) == k && LineLength(a + b) == k
  {
    hide IsLineBreak;
    if k > 0 {
      LineLengthIs(a[1..], k - 1, b);
      assert (a + b)[1..] == a[1..] + b;
    }
  }

  lemma OneLine(line: string)
    requires forall c :: c in line ==> !IsLineBreak(c)
    ensures Lines(line + "\n") == [line]
  {
    var text := line + "\n";
    LineLengthIs(text, |line|, "");
    assert text + "" == text && text[|line| + 1..] == "" && text[..|line|] == line;
    assert Lines("") == [];
  }

  // ----- Fields: str.split -----

  function Split(text: string, sep: char): (fields: seq<string>)
    ensures fields != []
  {
    if sep !in text then [text]
    else
      var k := IndexOf(text, sep);
      [text[..k]] + Split(text[k + 1..], sep)
  }

  function IndexOf(text: string, c: char): (k: nat)
    requires c in text
    ensures k < |text| && text[k] == c && c !in text[..k]
  {
    if text[0] == c then 0 else 1 + IndexOf(text[1..], c)
  }

  lemma SplitFirst(field: string, sep: char, rest: string)
    requires sep !in field
    ensures Split(field + [sep] + rest, sep) == [field] + Split(rest, sep)
  {
    var text := field + [sep] + rest;
    IndexOfFirst(text, sep, |field|);
    assert text[..|field|] == field && text[|field| + 1..] == rest;
  }

  lemma {:induction false} IndexOfFirst(text: string, c: char, n: nat)
    requires n < |text| && text[n] == c && forall i :: 0 <= i < n ==> text[i] != c
    ensures IndexOf(text, c) == n
  {
    if n > 0 {
      IndexOfFirst(text[1..], c, n - 1);
    }
  }

  /** A row is the text of its fields with a separator between them. */
  function Join(fields: seq<string>, sep: char): string
    requires fields != []
  {
    if |fields| == 1 then fields[0] else fields[0] + [sep] + Join(fields[1..], sep)
  }

  lemma {:induction false} SplitJoin(fields: seq<string>, sep: char)
    requires fields != [] && forall f :: f in fields ==> sep !in f
    ensures Split(Join(fields, sep), sep) == fields
  {
    if |fields| > 1 {
      SplitJoin(fields[1..], sep);
      SplitFirst(fields[0], sep, Join(fields[1..], sep));
      assert fields == [fields[0]] + fields[1..];
    }
  }

  lemma {:induction false} JoinedChars(fields: seq<string>, sep: char, c: char)
    requires fields != [] && c in Join(fields, sep)
    ensures c == sep || exists f :: f in fields && c in f
  {
    if |fields| > 1 {
      if c in Join(fields[1..], sep) {
        JoinedChars(fields[1..], sep, c);
      } else if c != sep {
        assert fields[0] in fields && c in fields[0];
      }
    } else {
      assert fields[0] in fields && c in fields[0];
    }
  }

  // ----- Numbers -----

  predicate IsDigit(c: char) {
    '0' <= c <= '9'
  }

  function Value(digits: string): nat
    requires forall c :: c in digits ==> IsDigit(c)
  {
    if digits == "" then 0
    else
      var n := |digits| - 1;
      assert digits[n] in digits && forall c :: c in digits[..n] ==> c in digits;
      assert IsDigit(digits[n]);
      10 * Value(digits[..n]) + (digits[n] as nat - '0' as nat)
  }

  /** identity.py `_number`: canonical decimal, at most ten digits and MAX_ID. */
  function Number(text: string): (r: Option<nat>)
    ensures r.Some? ==> r.value <= MAX_ID
  {
    if 0 < |text| <= 10 && (forall c :: c in text ==> IsDigit(c)) && (text[0] == '0' ==> |text| == 1)
       && Value(text) <= MAX_ID then Some(Value(text))
    else None
  }

  function Digit(n: nat): char
    requires n < 10
  {
    '0' + n as char
  }

  /** How a number is written into a record. */
  function Decimal(n: nat): (s: string)
    ensures |s| > 0 && forall c :: c in s ==> IsDigit(c)
  {
    if n < 10 then [Digit(n)] else Decimal(n / 10) + [Digit(n % 10)]
  }

  lemma {:induction false} DecimalValue(n: nat)
    ensures Value(Decimal(n)) == n
    ensures Decimal(n)[0] == '0' ==> n == 0
  {
    if n < 10 {
      assert Decimal(n)[..0] == "";
    } else {
      DecimalValue(n / 10);
      var s := Decimal(n);
      assert s[..|s| - 1] == Decimal(n / 10);
    }
  }

  lemma {:induction false} DecimalLength(n: nat, k: nat)
    requires k >= 1 && n < Power(k)
    ensures |Decimal(n)| <= k
  {
    if n >= 10 {
      DecimalLength(n / 10, k - 1);
    }
  }

  function Power(k: nat): nat {
    if k == 0 then 1 else 10 * Power(k - 1)
  }

  /** Every identity number that is written reads back. */
  lemma NumberOfDecimal(n: nat)
    requires n <= MAX_ID
    ensures Number(Decimal(n)) == Some(n)
  {
    DecimalValue(n);
    assert Power(1) == 10 && Power(3) == 1000 && Power(5) == 100_000 && Power(7) == 10_000_000;
    assert Power(9) == 1_000_000_000 && Power(10) == 10_000_000_000;
    DecimalLength(n, 10);
    if Decimal(n)[0] == '0' {
      assert Decimal(0) == [Digit(0)];
    }
  }

  lemma {:induction false} CanonicalDigits(text: string)
    requires text != "" && (forall c :: c in text ==> IsDigit(c)) && (text[0] == '0' ==> |text| == 1)
    ensures Decimal(Value(text)) == text && (text[0] != '0' ==> Value(text) > 0)
  {
    hide Decimal;
    var n := |text| - 1;
    assert text[n] in text && IsDigit(text[n]) && forall c :: c in text[..n] ==> c in text;
    assert text == text[..n] + [text[n]];
    var d := text[n] as nat - '0' as nat;
    if n == 0 {
      assert text[..0] == "";
      DecimalPush(0, d);
    } else {
      CanonicalDigits(text[..n]);
      DecimalPush(Value(text[..n]), d);
    }
  }

  lemma DecimalPush(m: nat, d: nat)
    requires d < 10
    ensures Decimal(10 * m + d) == (if m == 0 then "" else Decimal(m)) + [Digit(d)]
  {
  }

  /** Exactly the decimal spellings of the identity numbers are numbers. */
  lemma NumberDecides(text: string, n: nat)
    ensures Number(text) == Some(n) <==> n <= MAX_ID && text == Decimal(n)
  {
    if Number(text) == Some(n) {
      CanonicalDigits(text);
    } else if n <= MAX_ID && text == Decimal(n) {
      NumberOfDecimal(n);
    }
  }

  // ----- Names -----

  predicate IsLetter(c: char) {
    'a' <= c <= 'z' || 'A' <= c <= 'Z' || c == '_'
  }

  /** The ACCOUNT pattern: `[a-zA-Z_][a-zA-Z0-9_.-]*\$?`. */
  predicate IsAccount(name: string) {
    && name != "" && IsLetter(name[0])
    && forall i :: 0 < i < |name| ==>
         IsLetter(name[i]) || IsDigit(name[i]) || name[i] in {'.', '-'} || (name[i] == '$' && i == |name| - 1)
  }

  /** The pattern part by part: a first character, any number of others, and
      perhaps a dollar sign. */
  lemma AccountDecides(name: string)
    ensures IsAccount(name) <==>
            exists first: char, rest: string, last: string ::
              && name == [first] + rest + last && (last == "" || last == "$") && IsLetter(first)
              && forall c :: c in rest ==> IsLetter(c) || IsDigit(c) || c == '.' || c == '-'
  {
    if IsAccount(name) {
      var n := |name|;
      var dollar := n > 1 && name[n - 1] == '$';
      var rest, last := if dollar then name[1..n - 1] else name[1..], if dollar then "$" else "";
      assert name == [name[0]] + rest + last;
      forall c | c in rest ensures IsLetter(c) || IsDigit(c) || c == '.' || c == '-' {
        var i :| 0 <= i < |rest| && rest[i] == c;
        assert name[i + 1] == c;
      }
    }
  }
}
