/** Text as JavaScript sees it: UTF-16 code units, with the units `\s` and `trim` treat as space. */
module Utf16 {
  type CodeUnit = x: int | 0 <= x < 0x1_0000
  type Text = seq<CodeUnit>

  const QUOTE: CodeUnit := 34
  const BACKSLASH: CodeUnit := 92
  const SEMICOLON: CodeUnit := 59
  const PIPE: CodeUnit := 124

  predicate IsSpace(c: CodeUnit) {
    9 <= c <= 13 || c == 32 || c == 0xA0 || c == 0x1680 || 0x2000 <= c <= 0x200A || c == 0x2028 || c == 0x2029
    || c == 0x202F || c == 0x205F || c == 0x3000 || c == 0xFEFF
  }

  /** The space characters and line ends of the language, one by one. */
  const SPACES: set<CodeUnit> := {
    9, 10, 11, 12, 13, 32, 160, 5760, 8192, 8193, 8194, 8195, 8196, 8197, 8198, 8199, 8200, 8201, 8202,
    8232, 8233, 8239, 8287, 12288, 65279}

  lemma SpacesAre(c: CodeUnit)
    ensures IsSpace(c) <==> c in SPACES
  {
  }

  predicate Blank(s: Text) {
    forall k | 0 <= k < |s| :: IsSpace(s[k])
  }

  function TrimStart(s: Text): (r: Text)
    ensures |r| <= |s| && r == s[|s| - |r|..]
    ensures r != [] ==> !IsSpace(r[0])
  {
    if s != [] && IsSpace(s[0]) then
      var r := TrimStart(s[1..]);
      assert s[|s| - |r|..] == s[1..][|s[1..]| - |r|..];
      r
    else s
  }

  lemma {:induction false} TrimStartDropsBlanks(s: Text)
    ensures Blank(s[..|s| - |TrimStart(s)|])
  {
    if s != [] && IsSpace(s[0]) {
      TrimStartDropsBlanks(s[1..]);
      var n := |s| - |TrimStart(s)|;
      assert forall k | 0 < k < n :: s[k] == s[1..][..n - 1][k - 1];
    }
  }

  function TrimEnd(s: Text): (r: Text)
    ensures |r| <= |s| && r == s[..|r|]
  {
    if s != [] && IsSpace(s[|s| - 1]) then TrimEnd(s[..|s| - 1]) else s
  }

  function Trim(s: Text): Text {
    TrimEnd(TrimStart(s))
  }

  lemma {:induction false} TrimStartStops(s: Text, k: nat)
    requires k < |s| && !IsSpace(s[k])
    ensures |s| - |TrimStart(s)| <= k
  {
    if k > 0 {
      TrimStartStops(s[1..], k - 1);
    }
  }

  // The characterisation of TrimStart: it is the only split into blanks and a rest that does not start blank.
  lemma TrimStartCons(c: CodeUnit, rest: Text)
    requires IsSpace(c)
    ensures TrimStart([c] + rest) == TrimStart(rest)
  {
    assert ([c] + rest)[1..] == rest;
  }

  lemma {:induction false} TrimStartSplit(blanks: Text, rest: Text)
    requires Blank(blanks) && (rest == [] || !IsSpace(rest[0]))
    ensures TrimStart(blanks + rest) == rest
  {
    if blanks == [] {
      assert blanks + rest == rest;
    } else {
      hide TrimStart;
      assert blanks + rest == [blanks[0]] + (blanks[1..] + rest);
      TrimStartCons(blanks[0], blanks[1..] + rest);
      TrimStartSplit(blanks[1..], rest);
    }
  }
}

/**
 * The compact answer-list parser. `ParseList` is the source's index loop; `Parse` is the function it computes.
 * What the parser is for is stated against a grammar that knows nothing about scanning: a list is a
 * delimiter-joined sequence of plain or quoted segments.
 */
module CompactList {
  import opened Wrappers
  import opened Utf16

  const MAX_TEXT := 32767
  const MAX_CHOICES := 500

  datatype Failure =
    | MissingText | LongList | InvalidList | UnsupportedEscape
    | UnclosedQuote | QuotedSuffix | UnquotedQuote | EmptyChoice | TooManyChoices | DuplicateChoice

  predicate Literal(s: Text) {
    |s| <= MAX_TEXT && !Blank(s)
  }

  predicate Distinct(fields: seq<Text>) {
    forall i, j | 0 <= i < j < |fields| :: fields[i] != fields[j]
  }

  predicate HasEscape(s: Text, d: CodeUnit) {
    |s| >= 2 && ((s[0] == BACKSLASH && s[1] == d) || HasEscape(s[1..], d))
  }

  predicate Delimits(d: CodeUnit) {
    d == SEMICOLON || d == PIPE
  }

  // ---- The function the parser computes -------------------------------------------------------

  /** The content of a quoted entry and what follows its closing quote; None when the quote never closes. */
  function ReadQuoted(t: Text): (r: Option<(Text, Text)>)
    ensures r.Some? ==> |r.value.1| < |t|
  {
    if t == [] then None
    else if t[0] != QUOTE then
      match ReadQuoted(t[1..])
      case None => None
      case Some(p) => Some(([t[0]] + p.0, p.1))
    else if |t| > 1 && t[1] == QUOTE then
      match ReadQuoted(t[2..])
      case None => None
      case Some(p) => Some(([QUOTE] + p.0, p.1))
    else Some(([], t[1..]))
  }

  function Until(t: Text, d: CodeUnit): (r: Text)
    ensures |r| <= |t| && r == t[..|r|] && d !in r
    ensures |r| < |t| ==> t[|r|] == d
  {
    if t == [] || t[0] == d then [] else
      var r := Until(t[1..], d);
      assert t[..|r| + 1] == [t[0]] + t[1..][..|r|];
      [t[0]] + r
  }

  /** A quoted entry, given the text after its opening quote; only blanks may follow the closing quote. */
  function ReadQuotedField(t: Text, d: CodeUnit): (r: Result<(Text, Text), Failure>)
    ensures r.Ok? ==> |r.value.1| <= |t| && (r.value.1 == [] || r.value.1[0] == d)
  {
    match ReadQuoted(t)
    case None => Err(UnclosedQuote)
    case Some(p) =>
      var rest := TrimStart(p.1);
      if rest != [] && rest[0] != d then Err(QuotedSuffix) else Ok((p.0, rest))
  }

  function ReadPlainField(t: Text, d: CodeUnit, trim: bool): (r: Result<(Text, Text), Failure>)
    ensures r.Ok? ==> |r.value.1| <= |t| && (r.value.1 == [] || r.value.1[0] == d)
  {
    var f := Until(t, d);
    if QUOTE in f then Err(UnquotedQuote) else Ok((if trim then Trim(f) else f, t[|f|..]))
  }

  /** One entry and the text left after it: empty, or starting at the delimiter. */
  function ReadField(t: Text, d: CodeUnit, trim: bool): (r: Result<(Text, Text), Failure>)
    ensures r.Ok? ==> |r.value.1| <= |t| && (r.value.1 == [] || r.value.1[0] == d)
  {
    var u := if trim then TrimStart(t) else t;
    if u != [] && u[0] == QUOTE then ReadQuotedField(u[1..], d) else ReadPlainField(t, d, trim)
  }

  function ReadFields(t: Text, d: CodeUnit, trim: bool, count: nat): Result<seq<Text>, Failure>
    decreases |t|
  {
    match ReadField(t, d, trim)
    case Err(e) => Err(e)
    case Ok(p) =>
      if !Literal(p.0) then Err(EmptyChoice)
      else if count + 1 > MAX_CHOICES then Err(TooManyChoices)
      else if p.1 == [] then Ok([p.0])
      else Prepend([p.0], ReadFields(p.1[1..], d, trim, count + 1))
  }

  // The unfolding of ReadFields, for proofs that keep its definition out of sight.
  lemma ReadFieldsStep(t: Text, d: CodeUnit, trim: bool, count: nat)
    ensures ReadFields(t, d, trim, count) ==
            match ReadField(t, d, trim)
            case Err(e) => Err(e)
            case Ok(p) =>
              if !Literal(p.0) then Err(EmptyChoice)
              else if count + 1 > MAX_CHOICES then Err(TooManyChoices)
              else if p.1 == [] then Ok([p.0])
              else Prepend([p.0], ReadFields(p.1[1..], d, trim, count + 1))
  {
    hide ReadField;
  }

  function Prepend(fields: seq<Text>, r: Result<seq<Text>, Failure>): Result<seq<Text>, Failure> {
    if r.Ok? then Ok(fields + r.value) else r
  }

  function Parse(value: Text, d: CodeUnit, trim: bool): Result<seq<Text>, Failure> {
    if Blank(value) then Err(MissingText)
    else if |value| > MAX_TEXT then Err(LongList)
    else if !Delimits(d) then Err(InvalidList)
    else if HasEscape(value, d) then Err(UnsupportedEscape)
    else
      match ReadFields(value, d, trim, 0)
      case Err(e) => Err(e)
      case Ok(fields) => if Distinct(fields) then Ok(fields) else Err(DuplicateChoice)
  }

  // ---- The source's loops ----------------------------------------------------------------------

  method FindEscape(value: Text, d: CodeUnit) returns (found: bool)
    ensures found == HasEscape(value, d)
  {
    var i := 0;
    while i + 1 < |value|
      invariant 0 <= i <= |value|
      invariant HasEscape(value, d) == HasEscape(value[i..], d)
    {
      if value[i] == BACKSLASH && value[i + 1] == d {
        return true;
      }
      assert value[i..][1..] == value[i + 1..];
      i := i + 1;
    }
    return false;
  }

  method SkipSpace(value: Text, start: nat) returns (i: nat)
    requires start <= |value|
    ensures start <= i <= |value|
    ensures value[i..] == TrimStart(value[start..])
    ensures Blank(value[start..i])
  {
    i := start;
    while i < |value| && IsSpace(value[i])
      invariant start <= i <= |value|
      invariant forall k | start <= k < i :: IsSpace(value[k])
    {
      i := i + 1;
    }
    assert value[start..] == value[start..i] + value[i..];
    TrimStartSplit(value[start..i], value[i..]);
  }

  /** The quoted branch, entered just after the opening quote. */
  method ScanQuoted(value: Text, start: nat) returns (closed: bool, field: Text, i: nat)
    requires start <= |value|
    ensures start <= i <= |value|
    ensures ReadQuoted(value[start..]) == if closed then Some((field, value[i..])) else None
    ensures closed ==> start < i
  {
    i, field, closed := start, [], false;
    assert ReadQuoted(value[start..]).Some? ==> [] + ReadQuoted(value[start..]).value.0 == ReadQuoted(value[start..]).value.0;
    while i < |value|
      invariant start <= i <= |value|
      invariant match ReadQuoted(value[i..])
                case None => ReadQuoted(value[start..]) == None
                case Some(p) => ReadQuoted(value[start..]) == Some((field + p.0, p.1))
    {
      var rest := value[i..];
      assert rest[1..] == value[i + 1..];
      if value[i] != QUOTE {
        ghost var r := ReadQuoted(value[i + 1..]);
        assert r.Some? ==> field + ([value[i]] + r.value.0) == field + [value[i]] + r.value.0;
        field := field + [value[i]];
        i := i + 1;
      } else if i + 1 < |value| && value[i + 1] == QUOTE {
        assert rest[2..] == value[i + 2..];
        ghost var r := ReadQuoted(value[i + 2..]);
        assert r.Some? ==> field + ([QUOTE] + r.value.0) == field + [QUOTE] + r.value.0;
        field := field + [QUOTE];
        i := i + 2;
      } else {
        assert ReadQuoted(rest) == Some(([], rest[1..]));
        assert field + [] == field;
        i := i + 1;
        closed := true;
        return;
      }
    }
  }

  method ScanQuotedField(value: Text, d: CodeUnit, start: nat) returns (r: Result<(Text, nat), Failure>)
    requires start <= |value|
    ensures r.Ok? ==> start <= r.value.1 <= |value|
    ensures ReadQuotedField(value[start..], d)
            == if r.Ok? then Ok((r.value.0, value[r.value.1..])) else Err(r.error)
  {
    hide ReadQuoted; hide TrimStart;
    var closed, field, i := ScanQuoted(value, start);
    if !closed {
      return Err(UnclosedQuote);
    }
    i := SkipSpace(value, i);
    if i < |value| && value[i] != d {
      return Err(QuotedSuffix);
    }
    return Ok((field, i));
  }

  /** The unquoted branch: `i` has already been moved past blanks, the field still starts at `start`. */
  method ScanPlainField(value: Text, d: CodeUnit, trim: bool, start: nat, skipped: nat) returns (r: Result<(Text, nat), Failure>)
    requires start <= skipped <= |value| && Blank(value[start..skipped]) && Delimits(d)
    ensures r.Ok? ==> start <= r.value.1 <= |value|
    ensures ReadPlainField(value[start..], d, trim)
            == if r.Ok? then Ok((r.value.0, value[r.value.1..])) else Err(r.error)
  {
    hide Until; hide Trim;
    var i := skipped;
    while i < |value| && value[i] != d
      invariant start <= i <= |value|
      invariant forall k | start <= k < i :: value[k] == value[start..i][k - start] && value[k] != d
    {
      i := i + 1;
    }
    var field := value[start..i];
    UntilSplit(field, value[i..], d);
    assert value[start..] == field + value[i..];
    if QUOTE in field {
      return Err(UnquotedQuote);
    }
    assert value[start..][|field|..] == value[i..];
    return Ok((if trim then Trim(field) else field, i));
  }

  /** One turn of the outer loop up to the delimiter. */
  method ScanField(value: Text, d: CodeUnit, trim: bool, start: nat) returns (r: Result<(Text, nat), Failure>)
    requires start <= |value| && Delimits(d)
    ensures r.Ok? ==> start <= r.value.1 <= |value|
    ensures ReadField(value[start..], d, trim)
            == if r.Ok? then Ok((r.value.0, value[r.value.1..])) else Err(r.error)
  {
    hide ReadQuotedField; hide ReadPlainField; hide TrimStart;
    var i := start;
    if trim {
      i := SkipSpace(value, start);
    }
    ghost var u := value[i..];
    assert u == if trim then TrimStart(value[start..]) else value[start..];
    if i < |value| && value[i] == QUOTE {
      assert u[1..] == value[i + 1..];
      r := ScanQuotedField(value, d, i + 1);
    } else {
      r := ScanPlainField(value, d, trim, start, i);
    }
  }

  lemma {:induction false} UntilSplit(field: Text, rest: Text, d: CodeUnit)
    requires d !in field && (rest == [] || rest[0] == d)
    ensures Until(field + rest, d) == field
  {
    if field == [] {
      assert field + rest == rest;
    } else {
      UntilSplit(field[1..], rest, d);
      assert (field + rest)[1..] == field[1..] + rest && (field + rest)[0] == field[0];
      assert [field[0]] + field[1..] == field;
    }
  }

  method ScanFields(value: Text, d: CodeUnit, trim: bool) returns (r: Result<seq<Text>, Failure>)
    requires Delimits(d)
    ensures r == ReadFields(value, d, trim, 0)
  {
    hide ReadField; hide ReadFields; hide Literal; hide Delimits;
    var fields: seq<Text> := [];
    var i := 0;
    assert value[0..] == value;
    assert ReadFields(value, d, trim, 0).Ok? ==> [] + ReadFields(value, d, trim, 0).value == ReadFields(value, d, trim, 0).value;
    while true
      invariant 0 <= i <= |value|
      invariant |fields| <= MAX_CHOICES
      invariant ReadFields(value, d, trim, 0) == Prepend(fields, ReadFields(value[i..], d, trim, |fields|))
      decreases |value| - i
    {
      ReadFieldsStep(value[i..], d, trim, |fields|);
      var scanned := ScanField(value, d, trim, i);
      if scanned.Err? {
        return Err(scanned.error);
      }
      var (field, end) := scanned.value;
      if !Literal(field) {
        return Err(EmptyChoice);
      }
      ghost var seen := fields;
      fields := fields + [field];
      if |fields| > MAX_CHOICES {
        return Err(TooManyChoices);
      }
      if end == |value| {
        return Ok(fields);
      }
      assert value[end..][1..] == value[end + 1..];
      ghost var rest := ReadFields(value[end + 1..], d, trim, |fields|);
      assert rest.Ok? ==> seen + ([field] + rest.value) == fields + rest.value;
      i := end + 1;
    }
  }

  method ParseList(value: Text, d: CodeUnit, trim: bool) returns (r: Result<seq<Text>, Failure>)
    ensures r == Parse(value, d, trim)
  {
    hide ReadFields; hide HasEscape;
    if Blank(value) {
      return Err(MissingText);
    }
    if |value| > MAX_TEXT {
      return Err(LongList);
    }
    if d != SEMICOLON && d != PIPE {
      return Err(InvalidList);
    }
    var escaped := FindEscape(value, d);
    if escaped {
      return Err(UnsupportedEscape);
    }
    r := ScanFields(value, d, trim);
    if r.Ok? && !Distinct(r.value) {
      return Err(DuplicateChoice);
    }
  }

  // ---- The grammar -----------------------------------------------------------------------------

  datatype Segment = Plain(text: Text) | Quoted(lead: Text, content: Text, trail: Text)

  function Doubled(s: Text): Text {
    if s == [] then [] else (if s[0] == QUOTE then [QUOTE, QUOTE] else [s[0]]) + Doubled(s[1..])
  }

  function Raw(g: Segment): Text {
    match g
    case Plain(text) => text
    case Quoted(lead, content, trail) => lead + ([QUOTE] + Doubled(content) + [QUOTE]) + trail
  }

  function Meaning(g: Segment, trim: bool): Text {
    match g
    case Plain(text) => if trim then Trim(text) else text
    case Quoted(_, content, _) => content
  }

  /** Padding before an opening quote is part of the grammar only when padding is trimmed. */
  predicate WellFormed(g: Segment, d: CodeUnit, trim: bool) {
    match g
    case Plain(text) => d !in text && QUOTE !in text
    case Quoted(lead, _, trail) => Blank(lead) && Blank(trail) && (!trim ==> lead == [])
  }

  function Render(gs: seq<Segment>, d: CodeUnit): Text {
    if gs == [] then []
    else if |gs| == 1 then Raw(gs[0])
    else Raw(gs[0]) + [d] + Render(gs[1..], d)
  }

  function Meanings(gs: seq<Segment>, trim: bool): (r: seq<Text>)
    ensures |r| == |gs|
    ensures forall k | 0 <= k < |gs| :: r[k] == Meaning(gs[k], trim)
  {
    if gs == [] then [] else [Meaning(gs[0], trim)] + Meanings(gs[1..], trim)
  }

  predicate AllWellFormed(gs: seq<Segment>, d: CodeUnit, trim: bool) {
    forall k | 0 <= k < |gs| :: WellFormed(gs[k], d, trim)
  }

  predicate AllLiteral(fields: seq<Text>) {
    forall k | 0 <= k < |fields| :: Literal(fields[k])
  }

  predicate Choices(fields: seq<Text>) {
    1 <= |fields| <= MAX_CHOICES && AllLiteral(fields) && Distinct(fields)
  }

  /** There is something to read. */
  ghost predicate Visible(s: Text) {
    exists c <- s :: c !in SPACES
  }

  lemma VisibleIs(s: Text)
    ensures Visible(s) <==> !Blank(s)
  {
    forall c: CodeUnit
      ensures IsSpace(c) <==> c in SPACES
    {
      SpacesAre(c);
    }
    hide IsSpace;
    if !Blank(s) {
      var k :| 0 <= k < |s| && !IsSpace(s[k]);
      assert s[k] in s && s[k] !in SPACES;
    }
  }

  /** Between one and 500 visible texts of bounded length, no two the same. */
  ghost predicate Options(fields: seq<Text>) {
    && 1 <= |fields| <= 500 && (forall f <- fields :: |f| <= 32767 && Visible(f))
    && forall i, j :: 0 <= i < |fields| && 0 <= j < |fields| && fields[i] == fields[j] ==> i == j
  }

  lemma OptionsAre(fields: seq<Text>)
    ensures Options(fields) <==> Choices(fields)
  {
    hide Visible; hide Blank;
    forall k | 0 <= k < |fields|
      ensures fields[k] in fields && (Visible(fields[k]) <==> !Blank(fields[k]))
    {
      VisibleIs(fields[k]);
    }
  }

  ghost predicate Reads(value: Text, d: CodeUnit, trim: bool, fields: seq<Text>, gs: seq<Segment>) {
    AllWellFormed(gs, d, trim) && Render(gs, d) == value && Meanings(gs, trim) == fields
  }

  lemma {:induction false} ReadQuotedInverts(content: Text, rest: Text)
    requires rest == [] || rest[0] != QUOTE
    ensures ReadQuoted(Doubled(content) + [QUOTE] + rest) == Some((content, rest))
  {
    var t := Doubled(content) + [QUOTE] + rest;
    if content == [] {
      assert t == [QUOTE] + rest;
      assert t[1..] == rest;
    } else {
      ReadQuotedInverts(content[1..], rest);
      var tail := Doubled(content[1..]) + [QUOTE] + rest;
      if content[0] == QUOTE {
        assert t == [QUOTE, QUOTE] + tail;
        assert t[2..] == tail;
      } else {
        assert t == [content[0]] + tail;
        assert t[1..] == tail;
      }
      assert content == [content[0]] + content[1..];
    }
  }

  lemma {:induction false} ReadQuotedSound(t: Text)
    requires ReadQuoted(t).Some?
    ensures t == Doubled(ReadQuoted(t).value.0) + [QUOTE] + ReadQuoted(t).value.1
  {
    var p := ReadQuoted(t).value;
    if t[0] != QUOTE {
      ReadQuotedSound(t[1..]);
      assert p.0[1..] == ReadQuoted(t[1..]).value.0;
      assert t == [t[0]] + t[1..];
    } else if |t| > 1 && t[1] == QUOTE {
      ReadQuotedSound(t[2..]);
      assert p.0[1..] == ReadQuoted(t[2..]).value.0;
      assert t == [t[0], t[1]] + t[2..];
    } else {
      assert t == [t[0]] + t[1..];
    }
  }

  lemma ReadPlainComplete(text: Text, rest: Text, d: CodeUnit, trim: bool)
    requires Delimits(d) && d !in text && QUOTE !in text && (rest == [] || rest[0] == d)
    ensures ReadField(text + rest, d, trim) == Ok((if trim then Trim(text) else text, rest))
  {
    hide ReadQuotedField; hide TrimStart; hide TrimEnd; hide Until;
    var t := text + rest;
    UntilSplit(text, rest, d);
    var u := if trim then TrimStart(t) else t;
    var k := |t| - |u|;
    if rest != [] {
      TrimStartStops(t, |text|);
    }
    assert u != [] ==> t[k] == u[0] && u[0] != QUOTE;
    assert t[|text|..] == rest;
  }

  lemma ReadQuotedComplete(lead: Text, content: Text, trail: Text, rest: Text, d: CodeUnit, trim: bool)
    requires Delimits(d) && Blank(lead) && Blank(trail) && (!trim ==> lead == []) && (rest == [] || rest[0] == d)
    ensures ReadField(lead + ([QUOTE] + Doubled(content) + [QUOTE]) + trail + rest, d, trim) == Ok((content, rest))
  {
    hide ReadQuoted; hide TrimStart; hide TrimEnd; hide Until; hide Doubled;
    var t := lead + ([QUOTE] + Doubled(content) + [QUOTE]) + trail + rest;
    var after := trail + rest;
    var body := [QUOTE] + (Doubled(content) + [QUOTE] + after);
    assert t == lead + body;
    TrimStartSplit(lead, body);
    assert (if trim then TrimStart(t) else t) == body;
    assert body[1..] == Doubled(content) + [QUOTE] + after;
    assert after != [] ==> after[0] != QUOTE;
    ReadQuotedInverts(content, after);
    TrimStartSplit(trail, rest);
  }

  lemma ReadFieldComplete(g: Segment, rest: Text, d: CodeUnit, trim: bool)
    requires Delimits(d) && WellFormed(g, d, trim) && (rest == [] || rest[0] == d)
    ensures ReadField(Raw(g) + rest, d, trim) == Ok((Meaning(g, trim), rest))
  {
    hide ReadField; hide Doubled; hide Trim; hide Blank;
    match g
    case Plain(text) => ReadPlainComplete(text, rest, d, trim);
    case Quoted(lead, content, trail) => ReadQuotedComplete(lead, content, trail, rest, d, trim);
  }

  lemma {:induction false} ReadFieldsComplete(gs: seq<Segment>, d: CodeUnit, trim: bool, count: nat)
    requires gs != [] && Delimits(d) && AllWellFormed(gs, d, trim)
    requires AllLiteral(Meanings(gs, trim))
    requires count + |gs| <= MAX_CHOICES
    ensures ReadFields(Render(gs, d), d, trim, count) == Ok(Meanings(gs, trim))
    decreases |gs|
  {
    hide ReadField; hide ReadFields; hide Raw; hide Meaning; hide Literal; hide WellFormed;
    var f := Meaning(gs[0], trim);
    assert Meanings(gs, trim)[0] == f;
    ReadFieldsStep(Render(gs, d), d, trim, count);
    if |gs| == 1 {
      ReadFieldComplete(gs[0], [], d, trim);
      assert Raw(gs[0]) + [] == Raw(gs[0]);
      assert Meanings(gs, trim) == [f];
    } else {
      var rest := [d] + Render(gs[1..], d);
      ReadFieldComplete(gs[0], rest, d, trim);
      assert Render(gs, d) == Raw(gs[0]) + rest;
      assert rest[1..] == Render(gs[1..], d);
      assert Meanings(gs[1..], trim) == Meanings(gs, trim)[1..];
      ReadFieldsComplete(gs[1..], d, trim, count + 1);
    }
  }

  lemma ReadQuotedFieldSound(t: Text, d: CodeUnit) returns (content: Text, trail: Text)
    requires ReadQuotedField(t, d).Ok?
    ensures Blank(trail) && content == ReadQuotedField(t, d).value.0
    ensures t == Doubled(content) + [QUOTE] + trail + ReadQuotedField(t, d).value.1
  {
    hide ReadQuoted; hide TrimStart; hide Doubled;
    var p := ReadQuoted(t).value;
    ReadQuotedSound(t);
    var rest := TrimStart(p.1);
    TrimStartDropsBlanks(p.1);
    content, trail := p.0, p.1[..|p.1| - |rest|];
    assert p.1 == trail + rest;
  }

  lemma Regroup(lead: Text, content: Text, trail: Text, rest: Text)
    ensures lead + ([QUOTE] + (content + [QUOTE] + trail + rest)) == lead + ([QUOTE] + content + [QUOTE]) + trail + rest
  {
  }

  lemma ReadQuotedSegment(t: Text, d: CodeUnit, lead: Text, u: Text) returns (g: Segment)
    requires t == lead + ([QUOTE] + u) && ReadQuotedField(u, d).Ok? && Blank(lead)
    ensures g.Quoted? && g.lead == lead && Blank(g.trail) && g.content == ReadQuotedField(u, d).value.0
    ensures t == Raw(g) + ReadQuotedField(u, d).value.1
  {
    hide ReadQuotedField; hide Doubled; hide Blank;
    var content, trail := ReadQuotedFieldSound(u, d);
    g := Quoted(lead, content, trail);
    Regroup(lead, Doubled(content), trail, ReadQuotedField(u, d).value.1);
  }

  lemma ReadPlainSegment(t: Text, d: CodeUnit, trim: bool) returns (g: Segment)
    requires ReadPlainField(t, d, trim).Ok?
    ensures g.Plain? && WellFormed(g, d, trim) && Meaning(g, trim) == ReadPlainField(t, d, trim).value.0
    ensures t == Raw(g) + ReadPlainField(t, d, trim).value.1
  {
    hide Until; hide Trim;
    g := Plain(Until(t, d));
  }

  lemma ReadFieldSound(t: Text, d: CodeUnit, trim: bool) returns (g: Segment)
    requires ReadField(t, d, trim).Ok?
    ensures WellFormed(g, d, trim)
    ensures Meaning(g, trim) == ReadField(t, d, trim).value.0
    ensures t == Raw(g) + ReadField(t, d, trim).value.1
  {
    hide ReadQuotedField; hide ReadPlainField; hide TrimStart; hide Raw; hide Blank;
    var u := if trim then TrimStart(t) else t;
    if u != [] && u[0] == QUOTE {
      var lead := t[..|t| - |u|];
      TrimStartDropsBlanks(t);
      assert u == [QUOTE] + u[1..];
      assert t == lead + u;
      assert !trim ==> lead == [];
      BlankEmpty();
      g := ReadQuotedSegment(t, d, lead, u[1..]);
    } else {
      g := ReadPlainSegment(t, d, trim);
    }
  }

  lemma BlankEmpty()
    ensures Blank([])
  {
  }

  lemma {:induction false} ReadFieldsSound(t: Text, d: CodeUnit, trim: bool, count: nat) returns (gs: seq<Segment>)
    requires Delimits(d) && ReadFields(t, d, trim, count).Ok?
    ensures gs != [] && Reads(t, d, trim, ReadFields(t, d, trim, count).value, gs)
    ensures count + |gs| <= MAX_CHOICES
    ensures AllLiteral(ReadFields(t, d, trim, count).value)
    decreases |t|
  {
    hide ReadField; hide ReadFields; hide Raw; hide Meaning; hide Literal; hide WellFormed;
    ReadFieldsStep(t, d, trim, count);
    var g := ReadFieldSound(t, d, trim);
    var p := ReadField(t, d, trim).value;
    if p.1 == [] {
      gs := [g];
      assert Raw(g) + [] == Raw(g);
      assert Meanings(gs, trim) == [Meaning(g, trim)];
    } else {
      var tail := ReadFieldsSound(p.1[1..], d, trim, count + 1);
      gs := [g] + tail;
      assert gs[1..] == tail;
      assert p.1 == [d] + p.1[1..];
      assert t == Raw(g) + [d] + Render(tail, d);
    }
  }

  lemma {:induction false} NoEscapeWithoutDelimiter(s: Text, d: CodeUnit)
    requires d !in s
    ensures !HasEscape(s, d)
  {
    if |s| >= 2 {
      NoEscapeWithoutDelimiter(s[1..], d);
    }
  }

  lemma {:induction false} EscapeSplit(a: Text, b: Text, d: CodeUnit)
    ensures HasEscape(a + b, d)
            <==> HasEscape(a, d) || HasEscape(b, d) || (a != [] && b != [] && a[|a| - 1] == BACKSLASH && b[0] == d)
  {
    if a == [] {
      assert a + b == b;
    } else {
      assert (a + b)[1..] == a[1..] + b;
      EscapeSplit(a[1..], b, d);
      if |a| == 1 {
        assert a[1..] + b == b;
      }
    }
  }

  lemma EscapeCons(c: CodeUnit, rest: Text, d: CodeUnit)
    ensures HasEscape([c] + rest, d) <==> HasEscape(rest, d) || (rest != [] && c == BACKSLASH && rest[0] == d)
  {
    assert ([c] + rest)[1..] == rest;
  }

  lemma {:induction false} EscapeDoubled(s: Text, d: CodeUnit)
    requires Delimits(d)
    ensures HasEscape(Doubled(s), d) <==> HasEscape(s, d)
  {
    hide HasEscape;
    if s == [] {
      assert Doubled(s) == s;
    } else {
      EscapeDoubled(s[1..], d);
      var rest := Doubled(s[1..]);
      assert s == [s[0]] + s[1..];
      EscapeCons(s[0], s[1..], d);
      EscapeCons(s[0], rest, d);
      if s[0] == QUOTE {
        assert Doubled(s) == [QUOTE] + ([QUOTE] + rest);
        EscapeCons(QUOTE, [QUOTE] + rest, d);
      } else {
        assert Doubled(s) == [s[0]] + rest;
        assert s[1..] != [] ==> rest != [] && rest[0] == s[1];
      }
    }
  }

  lemma {:induction false} EscapeQuoted(s: Text, d: CodeUnit)
    requires Delimits(d)
    ensures HasEscape([QUOTE] + Doubled(s) + [QUOTE], d) <==> HasEscape(s, d)
  {
    EscapeDoubled(s, d);
    EscapeSplit([QUOTE] + Doubled(s), [QUOTE], d);
    EscapeSplit([QUOTE], Doubled(s), d);
  }

  lemma {:induction false} NoEscapeInMeanings(gs: seq<Segment>, d: CodeUnit, trim: bool, k: nat)
    requires Delimits(d) && AllWellFormed(gs, d, trim) && !HasEscape(Render(gs, d), d) && k < |gs|
    ensures !HasEscape(Meaning(gs[k], trim), d)
    decreases |gs|
  {
    if |gs| > 1 {
      EscapeSplit(Raw(gs[0]) + [d], Render(gs[1..], d), d);
      EscapeSplit(Raw(gs[0]), [d], d);
      if k > 0 {
        NoEscapeInMeanings(gs[1..], d, trim, k - 1);
      }
    }
    if k == 0 {
      match gs[0]
      case Plain(text) =>
        var cut := TrimStart(text);
        assert forall x | x in Trim(text) :: x in cut;
        assert forall x | x in cut :: x in text;
        NoEscapeWithoutDelimiter(Meaning(gs[0], trim), d);
      case Quoted(lead, content, trail) =>
        var quoted := [QUOTE] + Doubled(content) + [QUOTE];
        EscapeSplit(lead + quoted, trail, d);
        EscapeSplit(lead, quoted, d);
        EscapeQuoted(content, d);
    }
  }

  /** The parser accepts exactly the texts the grammar generates, with exactly the grammar's meaning. */
  lemma ParseAcceptsExactlyTheGrammar(value: Text, d: CodeUnit, trim: bool, fields: seq<Text>)
    ensures Parse(value, d, trim) == Ok(fields)
            <==> && Visible(value) && |value| <= 32767 && d in {SEMICOLON, PIPE} && !HasEscape(value, d)
                 && Options(fields)
                 && exists gs :: Reads(value, d, trim, fields, gs)
  {
    VisibleIs(value);
    OptionsAre(fields);
    hide Visible; hide Options; hide HasEscape;
    if Parse(value, d, trim) == Ok(fields) {
      var gs := ReadFieldsSound(value, d, trim, 0);
      assert Reads(value, d, trim, fields, gs);
    }
    if !Blank(value) && |value| <= MAX_TEXT && Delimits(d) && !HasEscape(value, d) && Choices(fields) {
      forall gs | Reads(value, d, trim, fields, gs)
        ensures Parse(value, d, trim) == Ok(fields)
      {
        ReadFieldsComplete(gs, d, trim, 0);
      }
    }
  }

  // ---- Printing --------------------------------------------------------------------------------

  /** Every entry quoted, inner quotes doubled. */
  function Print(fields: seq<Text>, d: CodeUnit): Text {
    Render(AsQuoted(fields), d)
  }

  function AsQuoted(fields: seq<Text>): (gs: seq<Segment>)
    ensures |gs| == |fields|
    ensures forall k | 0 <= k < |fields| :: gs[k] == Quoted([], fields[k], [])
  {
    if fields == [] then [] else [Quoted([], fields[0], [])] + AsQuoted(fields[1..])
  }

  lemma {:induction false} EscapePrinted(fields: seq<Text>, d: CodeUnit)
    requires Delimits(d)
    ensures HasEscape(Print(fields, d), d) <==> exists k | 0 <= k < |fields| :: HasEscape(fields[k], d)
    decreases |fields|
  {
    if fields != [] {
      var gs := AsQuoted(fields);
      assert Raw(gs[0]) == [QUOTE] + Doubled(fields[0]) + [QUOTE];
      EscapeQuoted(fields[0], d);
      if |fields| > 1 {
        assert gs[1..] == AsQuoted(fields[1..]);
        EscapePrinted(fields[1..], d);
        EscapeSplit(Raw(gs[0]) + [d], Print(fields[1..], d), d);
        EscapeSplit(Raw(gs[0]), [d], d);
        assert forall k | 0 < k < |fields| :: fields[k] == fields[1..][k - 1];
        if HasEscape(Print(fields[1..], d), d) {
          var k :| 0 <= k < |fields[1..]| && HasEscape(fields[1..][k], d);
          assert HasEscape(fields[k + 1], d);
        }
      }
    }
  }

  /** Printing then parsing gives the list back exactly when the list itself is a legal list of choices. */
  lemma RoundTrip(fields: seq<Text>, d: CodeUnit, trim: bool)
    requires Delimits(d)
    ensures Parse(Print(fields, d), d, trim) == Ok(fields)
            <==> && Options(fields)
                 && (forall k | 0 <= k < |fields| :: !HasEscape(fields[k], d))
                 && |Print(fields, d)| <= MAX_TEXT
  {
    var printed, gs := Print(fields, d), AsQuoted(fields);
    OptionsAre(fields);
    VisibleIs(printed);
    hide Options; hide Visible;
    EscapePrinted(fields, d);
    if Choices(fields) && |printed| <= MAX_TEXT {
      assert printed[0] == QUOTE by {
        assert Raw(gs[0])[0] == QUOTE;
      }
      assert !IsSpace(printed[0]);
      assert Meanings(gs, trim) == fields;
      assert Reads(printed, d, trim, fields, gs);
    }
    ParseAcceptsExactlyTheGrammar(printed, d, trim, fields);
  }

  /** Whatever was accepted can be printed and read back, under either padding option. */
  lemma ReprintIsFixedPoint(value: Text, d: CodeUnit, trim: bool, trimAgain: bool)
    requires Parse(value, d, trim).Ok?
    requires |Print(Parse(value, d, trim).value, d)| <= MAX_TEXT
    ensures Parse(Print(Parse(value, d, trim).value, d), d, trimAgain) == Parse(value, d, trim)
  {
    var fields := Parse(value, d, trim).value;
    var gs := ReadFieldsSound(value, d, trim, 0);
    forall k | 0 <= k < |fields|
      ensures !HasEscape(fields[k], d)
    {
      NoEscapeInMeanings(gs, d, trim, k);
    }
    ParseAcceptsExactlyTheGrammar(value, d, trim, fields);
    RoundTrip(fields, d, trimAgain);
  }
}
