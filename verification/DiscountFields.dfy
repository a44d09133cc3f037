/** What the adapter's validation of a discount's fields accepts: its dates are calendar dates, compared in their order. */
module DiscountFields {
  import opened DiscountBody

  function Power(width: nat): nat {
    if width == 0 then 1 else 10 * Power(width - 1)
  }

  /** A number in so many digits. */
  function Spelled(n: nat, width: nat): string {
    if width == 0 then "" else Spelled(n / 10, width - 1) + ['0' + (n % 10) as char]
  }

  lemma {:induction false} SpelledDecimal(n: nat, width: nat)
    requires n < Power(width)
    ensures |Spelled(n, width)| == width && Digits(Spelled(n, width)) && Decimal(Spelled(n, width)) == n
  {
    if width > 0 {
      SpelledDecimal(n / 10, width - 1);
      assert Spelled(n, width)[..width - 1] == Spelled(n / 10, width - 1);
    }
  }

  lemma {:induction false} DecimalSpelled(s: string)
    requires Digits(s)
    ensures Decimal(s) < Power(|s|) && Spelled(Decimal(s), |s|) == s
  {
    if s != "" {
      var init := s[..|s| - 1];
      DecimalSpelled(init);
      assert Decimal(s) / 10 == Decimal(init) && Decimal(s) % 10 == (s[|s| - 1] - '0') as nat;
      assert s == init + [s[|s| - 1]];
    }
  }

  /** A day of the Gregorian calendar. */
  ghost predicate Calendar(year: nat, month: nat, day: nat) {
    && year <= 9999 && 1 <= month <= 12 && 1 <= day
    && (|| day <= 28
        || (day == 29 && (month != 2 || (year % 4 == 0 && year % 100 != 0) || year % 400 == 0))
        || (day == 30 && month != 2)
        || (day == 31 && month in {1, 3, 5, 7, 8, 10, 12}))
  }

  function DateText(year: nat, month: nat, day: nat): string {
    Spelled(year, 4) + ("-" + (Spelled(month, 2) + ("-" + Spelled(day, 2))))
  }

  lemma Powers()
    ensures Power(2) == 100 && Power(4) == 10000
  {
    assert Power(0) == 1 && Power(1) == 10 && Power(3) == 1000;
  }

  lemma Pieces(a: string, b: string, c: string)
    requires |a| == 4 && |b| == 2 && |c| == 2
    ensures var s := a + ("-" + (b + ("-" + c)));
            |s| == 10 && s[4] == '-' && s[7] == '-' && s[..4] == a && s[5..7] == b && s[8..] == c
  {
    var s, t := a + ("-" + (b + ("-" + c))), b + ("-" + c);
    assert s[5..] == t && t[..2] == b && t[3..] == c;
    assert s[5..7] == t[..2] && s[8..] == t[3..];
  }

  lemma DateParts(year: nat, month: nat, day: nat)
    requires year <= 9999 && month <= 99 && day <= 99
    ensures var s := DateText(year, month, day);
            |s| == 10 && s[4] == '-' && s[7] == '-' && s[..4] == Spelled(year, 4) && s[5..7] == Spelled(month, 2) && s[8..] == Spelled(day, 2)
  {
    hide Spelled; hide Power; hide Decimal;
    Powers();
    SpelledDecimal(year, 4);
    SpelledDecimal(month, 2);
    SpelledDecimal(day, 2);
    Pieces(Spelled(year, 4), Spelled(month, 2), Spelled(day, 2));
  }

  lemma DateOf(v: Value)
    requires CalendarDate(v)
    ensures var s := v.text;
      |s| == 10 && Digits(s[..4]) && Digits(s[5..7]) && Digits(s[8..])
      && Calendar(Decimal(s[..4]), Decimal(s[5..7]), Decimal(s[8..])) && s == DateText(Decimal(s[..4]), Decimal(s[5..7]), Decimal(s[8..]))
  {
    hide Decimal; hide Power;
    var s := v.text;
    Powers();
    DecimalSpelled(s[..4]);
    DecimalSpelled(s[5..7]);
    DecimalSpelled(s[8..]);
    assert s == s[..4] + (["-"[0]] + (s[5..7] + (["-"[0]] + s[8..])));
    hide Spelled;
  }

  /** The dates accepted are exactly the spellings of the days there are. */
  lemma DateIs(v: Value)
    ensures CalendarDate(v) <==>
            exists year: nat, month: nat, day: nat :: Calendar(year, month, day) && v == Text(DateText(year, month, day))
  {
    if CalendarDate(v) {
      DateOf(v);
      assert v == Text(v.text);
    }
    forall year: nat, month: nat, day: nat | Calendar(year, month, day) && v == Text(DateText(year, month, day))
      ensures CalendarDate(v)
    {
      DayIsAccepted(year, month, day);
    }
  }

  lemma DayIsAccepted(year: nat, month: nat, day: nat)
    requires Calendar(year, month, day)
    ensures CalendarDate(Text(DateText(year, month, day)))
  {
    hide Decimal; hide Power;
    Powers();
    DateParts(year, month, day);
    SpelledDecimal(year, 4);
    SpelledDecimal(month, 2);
    SpelledDecimal(day, 2);
    hide Spelled; hide DateText;
  }

  /** Comparing the texts is comparing the numbers, then what follows. */
  lemma {:induction false} LaterSpelled(n: nat, m: nat, width: nat, s: string, t: string)
    requires n < Power(width) && m < Power(width)
    ensures Later(Spelled(n, width) + s, Spelled(m, width) + t) <==> n > m || (n == m && Later(s, t))
  {
    if width == 0 {
      assert "" + s == s && "" + t == t;
    } else {
      var c, d := '0' + (n % 10) as char, '0' + (m % 10) as char;
      LaterSpelled(n / 10, m / 10, width - 1, [c] + s, [d] + t);
      assert Spelled(n, width) + s == Spelled(n / 10, width - 1) + ([c] + s);
      assert Spelled(m, width) + t == Spelled(m / 10, width - 1) + ([d] + t);
      assert ([c] + s)[1..] == s && ([d] + t)[1..] == t;
    }
  }

  lemma LaterSame(c: string, s: string, t: string)
    requires |c| == 1
    ensures Later(c + s, c + t) <==> Later(s, t)
  {
    assert (c + s)[1..] == s && (c + t)[1..] == t;
  }

  /** The texts of two days are compared as the days are. */
  lemma LaterIsChronological(year: nat, month: nat, day: nat, y: nat, m: nat, d: nat)
    requires Calendar(year, month, day) && Calendar(y, m, d)
    ensures Later(DateText(year, month, day), DateText(y, m, d)) <==>
            year > y || (year == y && (month > m || (month == m && day > d)))
  {
    hide Later; hide Spelled; hide Power;
    Powers();
    var rest, other := Spelled(month, 2) + ("-" + Spelled(day, 2)), Spelled(m, 2) + ("-" + Spelled(d, 2));
    LaterSpelled(year, y, 4, "-" + rest, "-" + other);
    LaterSame("-", rest, other);
    LaterSpelled(month, m, 2, "-" + Spelled(day, 2), "-" + Spelled(d, 2));
    LaterSame("-", Spelled(day, 2), Spelled(d, 2));
    LaterSpelled(day, d, 2, "", "");
    assert Spelled(day, 2) + "" == Spelled(day, 2) && Spelled(d, 2) + "" == Spelled(d, 2);
    NotLater();
  }

  lemma NotLater()
    ensures !Later("", "")
  {
  }

  /** What `trim` removes, one by one. */
  const BLANKS: set<char> := {
    '\t', '\n', '\U{0B}', '\U{0C}', '\r', ' ', '\U{A0}', '\U{1680}', '\U{2000}', '\U{2001}', '\U{2002}', '\U{2003}', '\U{2004}',
    '\U{2005}', '\U{2006}', '\U{2007}', '\U{2008}', '\U{2009}', '\U{200A}', '\U{2028}', '\U{2029}', '\U{202F}', '\U{205F}', '\U{3000}',
    '\U{FEFF}'}

  lemma BlanksAre(c: char)
    ensures Space(c) <==> c in BLANKS
  {
    if '\U{2000}' <= c <= '\U{200A}' {
      assert 0x2000 <= c as int <= 0x200A;
      assert c == (c as int) as char;
    }
  }

  /** A text of a length, with something in it to be seen. */
  ghost predicate Named(row: Row, f: Field, max: nat) {
    f in row && row[f].Text? && |row[f].text| <= max && exists c <- row[f].text :: c !in BLANKS
  }

  ghost predicate Flagged(row: Row, f: Field) {
    f in row && (row[f] == Flag(true) || row[f] == Flag(false))
  }

  /** An amount, a price, or a percentage up to a hundred. */
  ghost predicate Priced(v: Value) {
    && v.Object? && v.fields.Keys == {"type", "value"} && v.fields["value"].Number? && 0 <= v.fields["value"].n
    && (|| v.fields["type"] == Text("BY_AMOUNT") || v.fields["type"] == Text("FLAT_PRICE")
        || (v.fields["type"] == Text("BY_PERCENTAGE") && v.fields["value"].n <= 100))
  }

  /** The two days, if given, in this order. */
  ghost predicate Dated(row: Row) {
    && (EffectiveFrom in row ==> exists y: nat, m: nat, d: nat :: Calendar(y, m, d) && row[EffectiveFrom] == Text(DateText(y, m, d)))
    && (EffectiveTo in row ==> exists y: nat, m: nat, d: nat :: Calendar(y, m, d) && row[EffectiveTo] == Text(DateText(y, m, d)))
    && forall y: nat, m: nat, d: nat, y': nat, m': nat, d': nat |
         && EffectiveFrom in row && row[EffectiveFrom] == Text(DateText(y, m, d)) && Calendar(y, m, d)
         && EffectiveTo in row && row[EffectiveTo] == Text(DateText(y', m', d')) && Calendar(y', m', d') ::
         y < y' || (y == y' && (m < m' || (m == m' && d <= d')))
  }

  /** The bodies that may be sent, but for their capacity. */
  lemma ValidBodyIs(body: Row)
    ensures ValidBody(body) <==>
            && Named(body, Name, 50) && Named(body, Code, 30) && Type in body && body[Type] == Text("DISCOUNT_CODE")
            && Flagged(body, Active) && Flagged(body, Stackable) && Flagged(body, IncludeGuestsTowardsCapacity)
            && Flagged(body, AutoApply) && Flagged(body, ApplyToAllAgendaItems)
            && AudienceType in body && (body[AudienceType] == Text("PRIMARY") || body[AudienceType] == Text("GUEST") || body[AudienceType] == Text("ALL"))
            && Field.Method in body && Priced(body[Field.Method])
            && (Field.Note in body ==> body[Field.Note].Text? && |body[Field.Note].text| <= 300)
            && Dated(body)
  {
    DatedIs(body);
    NamedIs(body, Name, 50);
    NamedIs(body, Code, 30);
    hide NonBlank; hide CalendarDate; hide Later; hide Dated; hide Named; hide ValidMethod; hide Priced;
    if Field.Method in body {
      PricedIs(body[Field.Method]);
    }
    assert forall f | f in {Active, Stackable, IncludeGuestsTowardsCapacity, AutoApply, ApplyToAllAgendaItems} ::
      Flagged(body, f) <==> f in body && body[f].Flag?;
  }

  lemma NamedIs(row: Row, f: Field, max: nat)
    ensures Named(row, f, max) <==> f in row && NonBlank(row[f], max)
  {
    forall c: char
      ensures Space(c) <==> c in BLANKS
    {
      BlanksAre(c);
    }
    hide Space;
    if f in row && NonBlank(row[f], max) {
      var k :| 0 <= k < |row[f].text| && !Space(row[f].text[k]);
      assert row[f].text[k] in row[f].text && row[f].text[k] !in BLANKS;
    }
  }

  lemma PricedIs(v: Value)
    ensures ValidMethod(v) <==> Priced(v)
  {
    if ValidMethod(v) {
      assert v.fields.Keys == {"type", "value"};
    }
    if Priced(v) {
      assert "type" in v.fields.Keys && "value" in v.fields.Keys;
    }
  }

  lemma DatedIs(row: Row)
    ensures Dated(row) <==>
            && (forall f | f in row && Date(f) :: CalendarDate(row[f]))
            && (EffectiveFrom in row && EffectiveTo in row ==> !Later(row[EffectiveFrom].text, row[EffectiveTo].text))
  {
    hide CalendarDate; hide Later; hide DateText; hide Calendar;
    if EffectiveFrom in row {
      DateIs(row[EffectiveFrom]);
    }
    if EffectiveTo in row {
      DateIs(row[EffectiveTo]);
    }
    assert forall f | f in row && Date(f) :: f == EffectiveFrom || f == EffectiveTo;
    if EffectiveFrom in row && EffectiveTo in row {
      forall y: nat, m: nat, d: nat, y': nat, m': nat, d': nat |
        Calendar(y, m, d) && Calendar(y', m', d') && row[EffectiveFrom] == Text(DateText(y, m, d)) && row[EffectiveTo] == Text(DateText(y', m', d'))
        ensures Later(row[EffectiveFrom].text, row[EffectiveTo].text) <==> y > y' || (y == y' && (m > m' || (m == m' && d > d')))
      {
        LaterIsChronological(y, m, d, y', m', d');
      }
    }
  }
}
