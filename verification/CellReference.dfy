/** Spreadsheet coordinates: bijective base-26 columns and decimal rows. */
module CellReference {
  import opened Wrappers

  const MAX_COLUMN := 16384
  const MAX_ROW := 1048576

  datatype Coordinate = Coordinate(column: nat, row: nat)

  predicate IsLetter(c: char) { 'A' <= c <= 'Z' }

  predicate IsDigit(c: char) { '0' <= c <= '9' }

  predicate Letters(s: string) { forall k | 0 <= k < |s| :: IsLetter(s[k]) }

  predicate Digits(s: string) { forall k | 0 <= k < |s| :: IsDigit(s[k]) }

  function LetterValue(c: char): (v: nat)
    requires IsLetter(c)
    ensures 1 <= v <= 26
  {
    c as int - 'A' as int + 1
  }

  function Letter(v: nat): (c: char)
    requires 1 <= v <= 26
    ensures IsLetter(c) && LetterValue(c) == v
  {
    ('A' as int + v - 1) as char
  }

  /** The source's fold: each letter is a digit from 1 to 26. */
  function ColumnNumber(s: string): nat
    requires Letters(s)
  {
    if s == "" then 0 else ColumnNumber(s[..|s| - 1]) * 26 + LetterValue(s[|s| - 1])
  }

  /** The spreadsheet's own column names, with no zero digit. */
  function ColumnName(n: nat): (s: string)
    ensures Letters(s)
  {
    if n == 0 then "" else ColumnName((n - 1) / 26) + [Letter((n - 1) % 26 + 1)]
  }

  function RowNumber(s: string): nat
    requires Digits(s)
  {
    if s == "" then 0 else RowNumber(s[..|s| - 1]) * 10 + (s[|s| - 1] as int - '0' as int)
  }

  function RowName(n: nat): (s: string)
    ensures Digits(s)
  {
    if n == 0 then "" else RowName(n / 10) + [('0' as int + n % 10) as char]
  }

  lemma {:induction false} ColumnNumberOfName(n: nat)
    ensures ColumnNumber(ColumnName(n)) == n
  {
    if n != 0 {
      ColumnNumberOfName((n - 1) / 26);
      var s := ColumnName(n);
      assert s[..|s| - 1] == ColumnName((n - 1) / 26);
    }
  }

  lemma {:induction false} ColumnNameOfNumber(s: string)
    requires Letters(s)
    ensures ColumnName(ColumnNumber(s)) == s
    ensures s != "" ==> ColumnNumber(s) > 0
  {
    if s != "" {
      var m, v := ColumnNumber(s[..|s| - 1]), LetterValue(s[|s| - 1]);
      ColumnNameOfNumber(s[..|s| - 1]);
      assert ColumnNumber(s) == m * 26 + v;
      assert (m * 26 + v - 1) / 26 == m && (m * 26 + v - 1) % 26 == v - 1;
      assert s == s[..|s| - 1] + [s[|s| - 1]];
    }
  }

  lemma {:induction false} RowNumberOfName(n: nat)
    ensures RowNumber(RowName(n)) == n
  {
    if n != 0 {
      RowNumberOfName(n / 10);
      var s := RowName(n);
      assert s[..|s| - 1] == RowName(n / 10);
    }
  }

  lemma {:induction false} RowNameOfNumber(s: string)
    requires Digits(s) && (s == "" || s[0] != '0')
    ensures RowName(RowNumber(s)) == s
    ensures s != "" ==> RowNumber(s) > 0
  {
    if s != "" {
      var m, v := RowNumber(s[..|s| - 1]), s[|s| - 1] as int - '0' as int;
      RowNameOfNumber(s[..|s| - 1]);
      assert (m * 10 + v) / 10 == m && (m * 10 + v) % 10 == v;
      assert s == s[..|s| - 1] + [s[|s| - 1]];
      assert |s| == 1 ==> m == 0 && v > 0;
    }
  }

  /** The longest prefix of letters. */
  function LetterPrefix(s: string): (r: string)
    ensures |r| <= |s| && r == s[..|r|] && Letters(r)
    ensures |r| < |s| ==> !IsLetter(s[|r|])
  {
    if s != "" && IsLetter(s[0]) then
      var r := LetterPrefix(s[1..]);
      assert s[..|r| + 1] == [s[0]] + s[1..][..|r|];
      [s[0]] + r
    else ""
  }

  function DropDollar(s: string): (r: string)
    ensures |r| <= |s|
  {
    if s != "" && s[0] == '$' then s[1..] else s
  }

  /** `absolute` allows the `$` markers; without it the reference must be bare. */
  function Read(s: string, absolute: bool): Option<Coordinate> {
    var t := if absolute then DropDollar(s) else s;
    var letters := LetterPrefix(t);
    var u := if absolute then DropDollar(t[|letters|..]) else t[|letters|..];
    if !(1 <= |letters| <= 3 && 1 <= |u| <= 7 && Digits(u) && u[0] != '0') then None
    else
      var column, row := ColumnNumber(letters), RowNumber(u);
      if column <= MAX_COLUMN && row <= MAX_ROW then Some(Coordinate(column, row)) else None
  }

  function Print(c: Coordinate): string {
    ColumnName(c.column) + RowName(c.row)
  }

  lemma {:induction false} LetterPrefixSplit(a: string, b: string)
    requires Letters(a) && (b == "" || !IsLetter(b[0]))
    ensures LetterPrefix(a + b) == a
  {
    if a == "" {
      assert a + b == b;
    } else {
      assert (a + b)[1..] == a[1..] + b;
      LetterPrefixSplit(a[1..], b);
    }
  }

  /** A bare reference is the unique spelling of its coordinate, so equal coordinates mean equal references. */
  lemma BareReferenceIsCanonical(s: string)
    requires Read(s, false).Some?
    ensures Print(Read(s, false).value) == s
    ensures Read(s, true) == Read(s, false)
    ensures Read(s, false).value.column > 0 && Read(s, false).value.row > 0
  {
    hide ColumnNumber; hide ColumnName; hide RowNumber; hide RowName; hide LetterPrefix;
    var letters := LetterPrefix(s);
    var u := s[|letters|..];
    ColumnNameOfNumber(letters);
    RowNameOfNumber(u);
    assert s == letters + u;
    assert s[0] == letters[0];
  }

  lemma BareReferencesAreInjective(s: string, t: string)
    requires Read(s, false).Some? && Read(s, false) == Read(t, false)
    ensures s == t
  {
    BareReferenceIsCanonical(s);
    BareReferenceIsCanonical(t);
  }

  /** The largest column a name of `k` letters can spell. */
  function LastColumn(k: nat): nat {
    if k == 0 then 0 else 26 * LastColumn(k - 1) + 26
  }

  lemma {:induction false} ColumnLength(n: nat, k: nat)
    requires n <= LastColumn(k)
    ensures |ColumnName(n)| <= k
  {
    if n > 0 {
      assert (n - 1) / 26 <= LastColumn(k - 1);
      ColumnLength((n - 1) / 26, k - 1);
    }
  }

  function Pow10(k: nat): (p: nat) {
    if k == 0 then 1 else 10 * Pow10(k - 1)
  }

  lemma {:induction false} RowLength(n: nat, k: nat)
    requires n < Pow10(k)
    ensures |RowName(n)| <= k
  {
    if n > 0 {
      RowLength(n / 10, k - 1);
    }
  }

  lemma NameLengths(c: Coordinate)
    requires 0 < c.column <= MAX_COLUMN && 0 < c.row <= MAX_ROW
    ensures 1 <= |ColumnName(c.column)| <= 3 && 1 <= |RowName(c.row)| <= 7 && RowName(c.row)[0] != '0'
  {
    assert LastColumn(3) == 26 * LastColumn(2) + 26 == 18278;
    ColumnLength(c.column, 3);
    assert Pow10(7) == 10 * Pow10(6) == 100 * Pow10(5) == 1000 * Pow10(4);
    assert Pow10(4) == 10 * Pow10(3) == 100 * Pow10(2) == 10000;
    RowLength(c.row, 7);
    RowLeads(c.row);
  }

  lemma {:induction false} RowLeads(n: nat)
    requires n > 0
    ensures |RowName(n)| > 0 && RowName(n)[0] != '0'
  {
    if n >= 10 {
      RowLeads(n / 10);
    }
  }

  /** Every coordinate inside the sheet limits is read back from its spelling. */
  lemma CoordinateRoundTrip(c: Coordinate)
    requires 0 < c.column <= MAX_COLUMN && 0 < c.row <= MAX_ROW
    ensures Read(Print(c), false) == Some(c)
  {
    var letters, u := ColumnName(c.column), RowName(c.row);
    NameLengths(c);
    assert !IsLetter(u[0]) by {
      assert IsDigit(u[0]);
    }
    LetterPrefixSplit(letters, u);
    assert (letters + u)[|letters|..] == u;
    ColumnNumberOfName(c.column);
    RowNumberOfName(c.row);
  }

  /** A reference, with its column and its row each marked as absolute or not. */
  function Marked(c: Coordinate, column: bool, row: bool): string {
    Dollar(column) + (ColumnName(c.column) + (Dollar(row) + RowName(c.row)))
  }

  function Dollar(marked: bool): string {
    if marked then "$" else ""
  }

  lemma DollarIs(s: string)
    ensures s == Dollar(s != DropDollar(s)) + DropDollar(s)
  {
  }

  lemma DollarDropped(marked: bool, s: string)
    requires s != "" && s[0] != '$'
    ensures DropDollar(Dollar(marked) + s) == s
  {
  }

  ghost predicate InSheet(c: Coordinate) {
    1 <= c.column <= 16384 && 1 <= c.row <= 1048576
  }

  /** The references read are exactly the spellings of the places of a sheet, with marks in none, one or both places. */
  lemma ReadIs(s: string, c: Coordinate)
    ensures Read(s, true) == Some(c) <==>
            InSheet(c) && (s == Marked(c, false, false) || s == Marked(c, false, true) || s == Marked(c, true, false) || s == Marked(c, true, true))
    ensures Read(s, false) == Some(c) <==> InSheet(c) && s == Print(c)
  {
    hide Read; hide Marked;
    if Read(s, true) == Some(c) {
      ReadIsSpelled(s);
    }
    if Read(s, false) == Some(c) {
      BareReferenceIsCanonical(s);
      ReadIsSpelled(s);
    }
    if InSheet(c) {
      MarkedIsRead(c, false, false);
      MarkedIsRead(c, false, true);
      MarkedIsRead(c, true, false);
      MarkedIsRead(c, true, true);
      CoordinateRoundTrip(c);
    }
  }

  lemma ReadIsSpelled(s: string)
    requires Read(s, true).Some?
    ensures var c := Read(s, true).value;
      InSheet(c) && (s == Marked(c, false, false) || s == Marked(c, false, true) || s == Marked(c, true, false) || s == Marked(c, true, true))
  {
    hide *;
    var t, letters, u := ReadParts(s);
    ColumnNameOfNumber(letters);
    RowNameOfNumber(u);
    DollarIs(s);
    DollarIs(t[|letters|..]);
    Spelling(s, Read(s, true).value, letters, t[|letters|..], u, s != t, t[|letters|..] != u);
  }

  lemma ReadParts(s: string) returns (t: string, letters: string, u: string)
    requires Read(s, true).Some?
    ensures var c := Read(s, true).value;
      && t == DropDollar(s) && |letters| <= |t| && t == letters + t[|letters|..] && u == DropDollar(t[|letters|..])
      && Letters(letters) && letters != "" && Digits(u) && u != "" && u[0] != '0'
      && c == Coordinate(ColumnNumber(letters), RowNumber(u)) && InSheet(c)
  {
    hide ColumnName; hide RowName; hide LetterPrefix; hide DropDollar;
    t := DropDollar(s);
    letters := LetterPrefix(t);
    u := DropDollar(t[|letters|..]);
    ColumnNameOfNumber(letters);
    RowNameOfNumber(u);
    hide ColumnNumber; hide RowNumber;
  }

  lemma Spelling(s: string, c: Coordinate, letters: string, v: string, u: string, column: bool, row: bool)
    requires s == Dollar(column) + (letters + v) && v == Dollar(row) + u && letters == ColumnName(c.column) && u == RowName(c.row)
    ensures s == Marked(c, column, row)
    ensures s == Marked(c, false, false) || s == Marked(c, false, true) || s == Marked(c, true, false) || s == Marked(c, true, true)
  {
    hide Dollar; hide ColumnName; hide RowName;
  }

  lemma MarkedIsRead(c: Coordinate, column: bool, row: bool)
    requires InSheet(c)
    ensures Read(Marked(c, column, row), true) == Some(c)
  {
    hide ColumnNumber; hide ColumnName; hide RowNumber; hide RowName; hide LetterPrefix; hide DropDollar; hide Dollar;
    var letters, u := ColumnName(c.column), RowName(c.row);
    var v := Dollar(row) + u;
    NameLengths(c);
    ColumnNumberOfName(c.column);
    RowNumberOfName(c.row);
    MarkedSplits(letters, u, row);
    assert (letters + v)[0] == letters[0] && (letters + v)[|letters|..] == v;
    DollarDropped(column, letters + v);
    DollarDropped(row, u);
  }

  lemma MarkedSplits(letters: string, u: string, row: bool)
    requires Letters(letters) && letters != "" && Digits(u) && u != ""
    ensures LetterPrefix(letters + (Dollar(row) + u)) == letters && letters[0] != '$' && u[0] != '$'
  {
    hide LetterPrefix;
    var v := Dollar(row) + u;
    assert !IsLetter(v[0]) by {
      assert IsDigit(u[0]);
    }
    assert IsLetter(letters[0]);
    LetterPrefixSplit(letters, v);
  }
}
