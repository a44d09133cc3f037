/** Preparing a discount PUT that loses nothing, and what a matching readback then proves. */
module DiscountBody {
  import opened Wrappers

  datatype Value = Null | Flag(on: bool) | Number(n: int) | Text(text: string) | Object(fields: map<string, Value>) | List(items: seq<Value>)

  datatype Field =
    | Id | Level | Event | Created | CreatedBy | LastModified | LastModifiedBy
    | Name | Active | Stackable | Method | EffectiveFrom | EffectiveTo | Note | Code | AudienceType
    | IncludeGuestsTowardsCapacity | AutoApply | ApplyToAllAgendaItems | Type | Capacity
    | Unreviewed(name: string)

  type Row = map<Field, Value>

  const TOTAL := "total"
  const USED := "used"

  predicate Audit(f: Field) { f.LastModified? || f.LastModifiedBy? }

  predicate Date(f: Field) { f.EffectiveFrom? || f.EffectiveTo? }

  predicate Writable(f: Field) {
    !(f.Id? || f.Level? || f.Event? || f.Created? || f.CreatedBy? || Audit(f) || f.Unreviewed?)
  }

  predicate Patchable(f: Field) {
    Writable(f) && !f.Type? && !f.Code? && !f.ApplyToAllAgendaItems?
  }

  /** Null is the caller's way to clear a date, never a value on the wire. */
  function DropNullDates(row: Row): Row {
    map f | f in row && !(Date(f) && row[f] == Null) :: row[f]
  }

  /** What two rows must agree on: everything but audit stamps, with null and absent dates the same. */
  function Business(row: Row): Row {
    map f | f in row && !Audit(f) && !(Date(f) && row[f] == Null) :: row[f]
  }

  function CapacityOf(row: Row): map<string, Value> {
    if Capacity in row && row[Capacity].Object? then row[Capacity].fields else map[]
  }

  datatype Refusal = LossyBaseline | BadCapacityBaseline | InvalidBody | CapacityBelowUse

  predicate CapacityBaselineOk(before: Row) {
    && Capacity in before && before[Capacity].Object?
    && (forall k | k in before[Capacity].fields :: k == TOTAL || k == USED)
    && USED in before[Capacity].fields && before[Capacity].fields[USED].Number? && before[Capacity].fields[USED].n >= 0
  }

  /** The capacity part of the field validation. */
  predicate CapacityBodyOk(body: Row) {
    && Capacity in body && body[Capacity].Object?
    && (forall k | k in body[Capacity].fields :: k == TOTAL)
    && TOTAL in body[Capacity].fields && body[Capacity].fields[TOTAL].Number?
    && -1 <= body[Capacity].fields[TOTAL].n <= 32767
  }

  function Original(code: string, before: Option<Row>): Row {
    match before
    case None => map[Type := Text("DISCOUNT_CODE"), Code := Text(code), ApplyToAllAgendaItems := Flag(false)]
    case Some(row) =>
      var total := if TOTAL in CapacityOf(row) then map[TOTAL := CapacityOf(row)[TOTAL]] else map[];
      map f | f in row && Writable(f) :: if f.Capacity? then Object(total) else row[f]
  }

  /** `valid` stands for the checks of names, flags, audience, method, note and dates; `ValidBody` is what they are. */
  function Prepare(code: string, patch: Row, before: Option<Row>, valid: Row -> bool): Result<Row, Refusal> {
    if before.Some? && exists f | f in before.value :: f.Unreviewed? then Err(LossyBaseline)
    else if before.Some? && !CapacityBaselineOk(before.value) then Err(BadCapacityBaseline)
    else
      var body := DropNullDates(Original(code, before) + patch);
      if !CapacityBodyOk(body) || !valid(body) then Err(InvalidBody)
      else if before.Some? && body[Capacity].fields[TOTAL].n != -1 && body[Capacity].fields[TOTAL].n < before.value[Capacity].fields[USED].n
      then Err(CapacityBelowUse)
      else Ok(body)
  }

  /** What `trim` removes. */
  predicate Space(c: char) {
    c in " \t\n\r\U{0B}\U{0C}\U{A0}\U{1680}\U{2028}\U{2029}\U{202F}\U{205F}\U{3000}\U{FEFF}" || '\U{2000}' <= c <= '\U{200A}'
  }

  predicate NonBlank(v: Value, max: nat) {
    v.Text? && |v.text| <= max && exists k | 0 <= k < |v.text| :: !Space(v.text[k])
  }

  function Days(year: nat, month: nat): nat {
    if month in {4, 6, 9, 11} then 30
    else if month != 2 then 31
    else if year % 4 == 0 && (year % 100 != 0 || year % 400 == 0) then 29 else 28
  }

  predicate Digits(s: string) {
    forall k | 0 <= k < |s| :: '0' <= s[k] <= '9'
  }

  function Decimal(s: string): nat
    requires Digits(s)
  {
    if s == "" then 0 else 10 * Decimal(s[..|s| - 1]) + (s[|s| - 1] - '0') as nat
  }

  /** A calendar date, as in 2026-02-28. */
  predicate CalendarDate(v: Value) {
    && v.Text? && |v.text| == 10 && v.text[4] == '-' && v.text[7] == '-'
    && Digits(v.text[..4]) && Digits(v.text[5..7]) && Digits(v.text[8..])
    && 1 <= Decimal(v.text[5..7]) <= 12
    && 1 <= Decimal(v.text[8..]) <= Days(Decimal(v.text[..4]), Decimal(v.text[5..7]))
  }

  predicate Later(a: string, b: string) {
    a != "" && (b == "" || a[0] > b[0] || (a[0] == b[0] && Later(a[1..], b[1..])))
  }

  predicate ValidMethod(v: Value) {
    && v.Object? && (forall k | k in v.fields :: k == "type" || k == "value")
    && "type" in v.fields && v.fields["type"] in {Text("BY_AMOUNT"), Text("BY_PERCENTAGE"), Text("FLAT_PRICE")}
    && "value" in v.fields && v.fields["value"].Number? && v.fields["value"].n >= 0
    && (v.fields["type"] == Text("BY_PERCENTAGE") ==> v.fields["value"].n <= 100)
  }

  /** The adapter's own validation of a body, but for its capacity. */
  predicate ValidBody(body: Row) {
    && Name in body && NonBlank(body[Name], 50) && Code in body && NonBlank(body[Code], 30)
    && Type in body && body[Type] == Text("DISCOUNT_CODE")
    && (forall f | f in {Active, Stackable, IncludeGuestsTowardsCapacity, AutoApply, ApplyToAllAgendaItems} :: f in body && body[f].Flag?)
    && AudienceType in body && body[AudienceType] in {Text("PRIMARY"), Text("GUEST"), Text("ALL")}
    && Field.Method in body && ValidMethod(body[Field.Method])
    && (Field.Note in body ==> body[Field.Note].Text? && |body[Field.Note].text| <= 300)
    && (forall f | f in body && Date(f) :: CalendarDate(body[f]))
    && (EffectiveFrom in body && EffectiveTo in body ==> !Later(body[EffectiveFrom].text, body[EffectiveTo].text))
  }

  // ---- The fields of the interface, listed -----------------------------------------------------------------

  const DATES: set<Field> := {EffectiveFrom, EffectiveTo}

  const AUDITS: set<Field> := {LastModified, LastModifiedBy}

  /** Besides the capacity, which is sent as its total. */
  const CARRIED: set<Field> := {
    Name, Active, Stackable, Field.Method, EffectiveFrom, EffectiveTo, Field.Note, Code, AudienceType,
    IncludeGuestsTowardsCapacity, AutoApply, ApplyToAllAgendaItems, Type}

  const PATCHED: set<Field> := {
    Name, Active, Stackable, Field.Method, EffectiveFrom, EffectiveTo, Field.Note, AudienceType,
    IncludeGuestsTowardsCapacity, AutoApply, Capacity}

  lemma FieldsAreListed(f: Field)
    ensures Date(f) <==> f in DATES
    ensures Audit(f) <==> f in AUDITS
    ensures Writable(f) <==> f in CARRIED || f == Capacity
    ensures Patchable(f) <==> f in PATCHED
  {
  }

  lemma PatchIsListed(patch: Row)
    ensures (forall f | f in patch :: Patchable(f)) <==> (forall f | f in patch :: f in PATCHED)
  {
    forall f
      ensures Patchable(f) <==> f in PATCHED
    {
      FieldsAreListed(f);
    }
  }

  ghost predicate Present(row: Row, f: Field) {
    f in row && !(f in {EffectiveFrom, EffectiveTo} && row[f] == Null)
  }

  /** The same value in both, or none; a null date is none. */
  ghost predicate SameField(a: Row, b: Row, f: Field) {
    (Present(a, f) <==> Present(b, f)) && (Present(a, f) ==> a[f] == b[f])
  }

  /** Unpatched fields keep their value, patched ones take it, cleared dates are gone, and nothing else is sent. */
  ghost predicate FieldCarried(body: Row, before: Row, patch: Row, f: Field) {
    && (f in CARRIED && f !in patch ==> SameField(body, before, f))
    && (f in patch && Present(patch, f) ==> f in body && body[f] == patch[f])
    && (f in patch && !Present(patch, f) ==> f !in body)
    && (f in body ==> Present(body, f) && (f in CARRIED || f == Capacity) && (f in before || f in patch))
  }

  /** An object that holds a total and, in a row, its recorded use. */
  function TotalOf(row: Row): Option<Value> {
    if Capacity in row && row[Capacity].Object? && TOTAL in row[Capacity].fields then Some(row[Capacity].fields[TOTAL]) else None
  }

  function UseOf(row: Row): Option<Value> {
    if Capacity in row && row[Capacity].Object? && USED in row[Capacity].fields then Some(row[Capacity].fields[USED]) else None
  }

  /** A total of the range, never below the recorded use. */
  ghost predicate TotalFits(total: Value, used: Value) {
    total.Number? && -1 <= total.n <= 32767 && used.Number? && 0 <= used.n && (total.n == -1 || used.n <= total.n)
  }

  /** The body drops nothing it was not asked to drop; capacity is sent as its total, never below recorded use. */
  ghost predicate Carries(body: Row, before: Row, patch: Row) {
    && (forall f :: FieldCarried(body, before, patch, f))
    && UseOf(before).Some? && TotalOf(body).Some? && TotalFits(TotalOf(body).value, UseOf(before).value)
    && Capacity in body && body[Capacity] == Object(map[TOTAL := TotalOf(body).value])
    && (Capacity !in patch ==> TotalOf(body) == TotalOf(before))
  }

  lemma PreparedField(code: string, patch: Row, before: Row, valid: Row -> bool, f: Field)
    requires forall f | f in patch :: f in PATCHED
    requires Prepare(code, patch, Some(before), valid).Ok?
    ensures FieldCarried(Prepare(code, patch, Some(before), valid).value, before, patch, f)
  {
    OkIsOriginal(code, patch, Some(before), valid);
    hide Prepare;
    FieldsAreListed(f);
    if f in patch {
      if Present(patch, f) {
        PatchedField(code, patch, Some(before), f);
      } else {
        ClearedField(code, patch, Some(before), f);
      }
    } else if f != Capacity {
      KeptField(code, patch, before, f);
    }
    hide Original;
  }

  lemma PreparedBodyPreserves(code: string, patch: Row, before: Row, valid: Row -> bool)
    requires forall f | f in patch :: f in PATCHED
    requires Prepare(code, patch, Some(before), valid).Ok?
    ensures Carries(Prepare(code, patch, Some(before), valid).value, before, patch)
  {
    hide FieldCarried;
    forall f
      ensures FieldCarried(Prepare(code, patch, Some(before), valid).value, before, patch, f)
    {
      PreparedField(code, patch, before, valid, f);
    }
    PreparedCapacity(code, patch, before, valid);
  }

  lemma PreparedCapacity(code: string, patch: Row, before: Row, valid: Row -> bool)
    requires Prepare(code, patch, Some(before), valid).Ok?
    ensures var body := Prepare(code, patch, Some(before), valid).value;
      && UseOf(before).Some? && TotalOf(body).Some? && TotalFits(TotalOf(body).value, UseOf(before).value)
      && Capacity in body && body[Capacity] == Object(map[TOTAL := TotalOf(body).value])
      && (Capacity !in patch ==> TotalOf(body) == TotalOf(before))
  {
    var body := Prepare(code, patch, Some(before), valid).value;
    assert body[Capacity].fields.Keys == {TOTAL};
  }

  /** A row of which the adapter knows every field. */
  ghost predicate Reviewed(before: Row) {
    forall f | f in before :: f in CARRIED || f == Capacity || f in {Id, Level, Event, Created, CreatedBy, LastModified, LastModifiedBy}
  }

  /** A baseline's capacity: its recorded use, and perhaps a total. */
  ghost predicate Accountable(before: Row) {
    && UseOf(before).Some? && UseOf(before).value.Number? && UseOf(before).value.n >= 0
    && (before[Capacity].fields.Keys == {USED} || before[Capacity].fields.Keys == {TOTAL, USED})
  }

  /** The total that is asked for, or else the one there was, and nothing beside it. */
  ghost predicate AsksTotal(patch: Row, before: Row, total: Value) {
    if Capacity in patch then patch[Capacity] == Object(map[TOTAL := total]) else TotalOf(before) == Some(total)
  }

  /** Exactly what an update is refused for before anything is written. */
  lemma PreparesExactly(code: string, patch: Row, before: Row, valid: Row -> bool)
    requires forall f | f in patch :: f in PATCHED
    ensures var body := DropNullDates(Original(code, Some(before)) + patch);
            Prepare(code, patch, Some(before), valid).Ok? <==>
              && Reviewed(before) && Accountable(before) && valid(body)
              && exists total :: AsksTotal(patch, before, total) && TotalFits(total, UseOf(before).value)
  {
    var body := DropNullDates(Original(code, Some(before)) + patch);
    ReviewedIs(before);
    AccountableIs(before);
    if Prepare(code, patch, Some(before), valid).Ok? {
      PreparedCapacity(code, patch, before, valid);
      assert AsksTotal(patch, before, TotalOf(body).value) by {
        AskedCapacity(code, patch, before);
      }
    }
    if Reviewed(before) && Accountable(before) && valid(body) && exists total :: AsksTotal(patch, before, total) && TotalFits(total, UseOf(before).value) {
      var total :| AsksTotal(patch, before, total) && TotalFits(total, UseOf(before).value);
      AskedBody(code, patch, before, total);
    }
  }

  lemma ReviewedIs(before: Row)
    ensures Reviewed(before) <==> !(exists f | f in before :: f.Unreviewed?)
  {
  }

  lemma AccountableIs(before: Row)
    ensures Accountable(before) <==> CapacityBaselineOk(before)
  {
    if CapacityBaselineOk(before) {
      var fields := before[Capacity].fields;
      assert if TOTAL in fields then fields.Keys == {TOTAL, USED} else fields.Keys == {USED};
    }
  }

  lemma AskedCapacity(code: string, patch: Row, before: Row)
    requires CapacityBaselineOk(before)
    ensures var body := DropNullDates(Original(code, Some(before)) + patch);
            Capacity in body && body[Capacity] == if Capacity in patch then patch[Capacity]
              else Object(if TOTAL in CapacityOf(before) then map[TOTAL := CapacityOf(before)[TOTAL]] else map[])
  {
  }

  lemma AskedBody(code: string, patch: Row, before: Row, total: Value)
    requires CapacityBaselineOk(before) && AsksTotal(patch, before, total) && TotalFits(total, UseOf(before).value)
    ensures var body := DropNullDates(Original(code, Some(before)) + patch);
            Capacity in body && body[Capacity] == Object(map[TOTAL := total]) && CapacityBodyOk(body)
  {
    AskedCapacity(code, patch, before);
    hide DropNullDates; hide Original;
  }

  /** What the adapter expects to read back after its PUT. */
  function Expected(before: Row, body: Row, patch: Row): Row {
    var merged := (before + body)[Capacity := Object(CapacityOf(before) + CapacityOf(body))];
    map f | f in merged && !(f in patch && Date(f) && patch[f] == Null) :: merged[f]
  }

  /** The body the reconciliation sends: item-scoped rules always carry the scope flag. */
  function Scoped(body: Row, items: bool): Row {
    if items then body[ApplyToAllAgendaItems := Flag(true)] else body
  }

  /** Equal to the baseline outside the patch, the scope flag and the capacity total; equal to the patch inside it. */
  ghost predicate Preserved(saved: Row, before: Row, patch: Row, items: bool) {
    && (forall f | f !in AUDITS && f !in patch && f != Capacity && !(items && f == ApplyToAllAgendaItems) :: SameField(saved, before, f))
    && (forall f | f in patch && f != Capacity && Present(patch, f) :: f in saved && saved[f] == patch[f])
    && (forall f | f in patch && !Present(patch, f) :: !Present(saved, f))
    && (items ==> ApplyToAllAgendaItems in saved && saved[ApplyToAllAgendaItems] == Flag(true))
  }

  ghost predicate CapacityPreserved(saved: Row, before: Row, body: Row) {
    && (forall k | k != TOTAL :: (k in CapacityOf(saved) <==> k in CapacityOf(before))
                                 && (k in CapacityOf(saved) ==> CapacityOf(saved)[k] == CapacityOf(before)[k]))
    && TOTAL in CapacityOf(saved) && TOTAL in CapacityOf(body) && CapacityOf(saved)[TOTAL] == CapacityOf(body)[TOTAL]
  }

  lemma BusinessEqual(a: Row, b: Row, f: Field)
    requires Business(a) == Business(b) && f !in AUDITS
    ensures SameField(a, b, f)
  {
    FieldsAreListed(f);
    assert f in Business(a) <==> Present(a, f);
    assert f in Business(b) <==> Present(b, f);
    assert f in Business(a) ==> Business(a)[f] == a[f];
    assert f in Business(b) ==> Business(b)[f] == b[f];
  }

  lemma ExpectedField(before: Row, body: Row, patch: Row, items: bool, f: Field)
    requires FieldCarried(body, before, patch, f) && f != Capacity && (f in patch ==> f in PATCHED)
    ensures f !in patch && !(items && f == ApplyToAllAgendaItems) ==> SameField(Expected(before, Scoped(body, items), patch), before, f)
    ensures var expected := Expected(before, Scoped(body, items), patch);
            && (f in patch && !Present(patch, f) ==> f !in expected)
            && (f in patch && Present(patch, f) ==> f in expected && expected[f] == patch[f])
  {
    hide CapacityOf;
    FieldsAreListed(f);
  }

  lemma ExpectedScope(before: Row, body: Row, patch: Row)
    requires ApplyToAllAgendaItems !in patch
    ensures var expected := Expected(before, Scoped(body, true), patch);
            ApplyToAllAgendaItems in expected && expected[ApplyToAllAgendaItems] == Flag(true)
  {
  }

  lemma ExpectedCapacity(before: Row, body: Row, patch: Row, items: bool)
    ensures var expected := Expected(before, Scoped(body, items), patch);
            Capacity in expected && expected[Capacity] == Object(CapacityOf(before) + CapacityOf(body))
  {
  }

  lemma FieldOf(body: Row, before: Row, patch: Row, f: Field)
    requires Carries(body, before, patch)
    ensures FieldCarried(body, before, patch, f)
  {
  }

  /** What the readback says of one field. */
  ghost predicate FieldPreserved(saved: Row, before: Row, patch: Row, items: bool, f: Field) {
    && (f !in patch && !(items && f == ApplyToAllAgendaItems) ==> SameField(saved, before, f))
    && (f in patch && Present(patch, f) ==> f in saved && saved[f] == patch[f])
    && (f in patch && !Present(patch, f) ==> !Present(saved, f))
  }

  lemma FieldReadback(before: Row, body: Row, patch: Row, items: bool, saved: Row, f: Field)
    requires (f in patch ==> f in PATCHED) && FieldCarried(body, before, patch, f) && f !in AUDITS && f != Capacity
    requires Business(saved) == Business(Expected(before, Scoped(body, items), patch))
    ensures FieldPreserved(saved, before, patch, items, f)
  {
    hide FieldCarried; hide Expected; hide Scoped; hide Business; hide CapacityOf;
    BusinessEqual(saved, Expected(before, Scoped(body, items), patch), f);
    ExpectedField(before, body, patch, items, f);
  }

  lemma AllPreserved(saved: Row, before: Row, patch: Row, items: bool)
    requires forall f | f in patch :: f in PATCHED
    requires forall f | f !in AUDITS && f != Capacity :: FieldPreserved(saved, before, patch, items, f)
    requires items ==> ApplyToAllAgendaItems in saved && saved[ApplyToAllAgendaItems] == Flag(true)
    ensures Preserved(saved, before, patch, items)
  {
    hide SameField;
    forall f | f !in AUDITS && f != Capacity
      ensures f !in patch && !(items && f == ApplyToAllAgendaItems) ==> SameField(saved, before, f)
      ensures f in patch && Present(patch, f) ==> f in saved && saved[f] == patch[f]
      ensures f in patch && !Present(patch, f) ==> !Present(saved, f)
    {
      assert FieldPreserved(saved, before, patch, items, f);
    }
  }

  /** An accepted readback, for a body prepared from the baseline and the patch. */
  lemma ReadbackPreserves(before: Row, body: Row, patch: Row, items: bool, saved: Row)
    requires forall f | f in patch :: f in PATCHED
    requires Carries(body, before, patch)
    requires Business(saved) == Business(Expected(before, Scoped(body, items), patch))
    ensures Preserved(saved, before, patch, items) && CapacityPreserved(saved, before, body)
  {
    hide *;
    forall f | f !in AUDITS && f != Capacity
      ensures FieldPreserved(saved, before, patch, items, f)
    {
      FieldOf(body, before, patch, f);
      FieldReadback(before, body, patch, items, saved, f);
    }
    if items {
      ScopeReadback(before, body, patch, saved);
    }
    AllPreserved(saved, before, patch, items);
    CarriedCapacity(body, before, patch);
    ReadbackCapacity(before, body, patch, items, saved);
  }

  lemma CarriedCapacity(body: Row, before: Row, patch: Row)
    requires Carries(body, before, patch)
    ensures Capacity in before && before[Capacity].Object? && TotalOf(body).Some? && CapacityOf(body) == map[TOTAL := TotalOf(body).value]
  {
    hide FieldCarried;
  }

  lemma ScopeReadback(before: Row, body: Row, patch: Row, saved: Row)
    requires forall f | f in patch :: f in PATCHED
    requires Business(saved) == Business(Expected(before, Scoped(body, true), patch))
    ensures ApplyToAllAgendaItems in saved && saved[ApplyToAllAgendaItems] == Flag(true)
  {
    ExpectedScope(before, body, patch);
    hide Expected; hide Scoped; hide Business;
    BusinessEqual(saved, Expected(before, Scoped(body, true), patch), ApplyToAllAgendaItems);
  }

  lemma ReadbackCapacity(before: Row, body: Row, patch: Row, items: bool, saved: Row)
    requires TotalOf(body).Some? && CapacityOf(body) == map[TOTAL := TotalOf(body).value]
    requires Business(saved) == Business(Expected(before, Scoped(body, items), patch))
    ensures CapacityPreserved(saved, before, body)
  {
    hide Expected; hide Scoped; hide Business;
    var expected := Expected(before, Scoped(body, items), patch);
    BusinessEqual(saved, expected, Capacity);
    ExpectedCapacity(before, body, patch, items);
    assert CapacityOf(saved) == CapacityOf(before) + CapacityOf(body);
  }

  // ---- A prepared body, field by field ----------------------------------------------------------------------

  lemma OkIsOriginal(code: string, patch: Row, before: Option<Row>, valid: Row -> bool)
    requires Prepare(code, patch, before, valid).Ok?
    ensures Prepare(code, patch, before, valid).value == DropNullDates(Original(code, before) + patch)
  {
    hide DropNullDates; hide Original; hide CapacityBodyOk; hide CapacityBaselineOk;
  }

  lemma PatchedField(code: string, patch: Row, before: Option<Row>, f: Field)
    requires f in patch && !(Date(f) && patch[f] == Null)
    ensures var body := DropNullDates(Original(code, before) + patch); f in body && body[f] == patch[f]
  {
    hide Original;
  }

  lemma ClearedField(code: string, patch: Row, before: Option<Row>, f: Field)
    requires f in patch && Date(f) && patch[f] == Null
    ensures f !in DropNullDates(Original(code, before) + patch)
  {
    hide Original;
  }

  lemma NewField(code: string, patch: Row, f: Field)
    requires f !in patch
    ensures var body := DropNullDates(Original(code, None) + patch);
            && (f in body <==> f in {Type, Code, ApplyToAllAgendaItems})
            && (f == Type ==> body[f] == Text("DISCOUNT_CODE")) && (f == Code ==> body[f] == Text(code))
            && (f == ApplyToAllAgendaItems ==> body[f] == Flag(false))
  {
  }

  lemma KeptField(code: string, patch: Row, row: Row, f: Field)
    requires f !in patch && f != Capacity
    ensures var body := DropNullDates(Original(code, Some(row)) + patch);
            (f in body <==> f in row && Writable(f) && !(Date(f) && row[f] == Null)) && (f in body ==> body[f] == row[f])
  {
    hide CapacityOf;
  }
}
