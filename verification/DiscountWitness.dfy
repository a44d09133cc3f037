/** A concrete request and what may happen to it elsewhere. Every check is the adapter's own. */
module DiscountWitness {
  import opened Wrappers
  import opened LinkKeys
  import opened DiscountBody
  import opened WriteEvidence
  import opened Remote
  import opened Reconcile
  import opened DiscountUpdate
  import opened DiscountCreate

  // ---- The request ------------------------------------------------------------------------------------------

  const CODE := "WEEK"

  const UNLIMITED := Object(map[TOTAL := Number(-1)])

  const TEN_PERCENT := Object(map["type" := Text("BY_PERCENTAGE"), "value" := Number(10)])

  const ONE_ITEM := [Item(AdmissionItem, "11111111-1111-1111-1111-111111111111")]

  function Terms(): Row {
    map[Name := Text("Week"), Stackable := Flag(false), Field.Method := TEN_PERCENT, AudienceType := Text("ALL"),
        IncludeGuestsTowardsCapacity := Flag(false), AutoApply := Flag(false), Capacity := UNLIMITED]
  }

  function Patch(active: bool): Row {
    Terms()[Active := Flag(active)]
  }

  /** To create the code, active, for one item. */
  function Wanted(): Input {
    Input(CODE, None, Patch(true), true, Some(ONE_ITEM), None)
  }

  /** What a patch makes of the fields it leaves to the adapter. */
  function Completed(patch: Row): Row {
    patch[Type := Text("DISCOUNT_CODE")][Code := Text(CODE)][ApplyToAllAgendaItems := Flag(false)]
  }

  lemma TermValues()
    ensures var p := Terms();
      && Name in p && p[Name] == Text("Week") && Stackable in p && p[Stackable] == Flag(false)
      && Field.Method in p && p[Field.Method] == TEN_PERCENT && AudienceType in p && p[AudienceType] == Text("ALL")
      && IncludeGuestsTowardsCapacity in p && p[IncludeGuestsTowardsCapacity] == Flag(false)
      && AutoApply in p && p[AutoApply] == Flag(false) && Capacity in p && p[Capacity] == UNLIMITED
  {
  }

  /** A field that is patched, with a value, and is neither a date nor the note. */
  ghost predicate Plain(patch: Row, f: Field)
    requires f in patch
  {
    Patchable(f) && patch[f] != Null && !Date(f) && f != Field.Note
  }

  lemma TermFields(f: Field)
    requires f in Terms()
    ensures Plain(Terms(), f)
  {
    assert f in {Name, Stackable, Field.Method, AudienceType, IncludeGuestsTowardsCapacity, AutoApply, Capacity};
    TermValues();
  }

  lemma PatchFields(active: bool)
    ensures var p := Patch(active);
      && Name in p && p[Name] == Text("Week") && Active in p && p[Active] == Flag(active) && Stackable in p && p[Stackable] == Flag(false)
      && Field.Method in p && p[Field.Method] == TEN_PERCENT && AudienceType in p && p[AudienceType] == Text("ALL")
      && IncludeGuestsTowardsCapacity in p && p[IncludeGuestsTowardsCapacity] == Flag(false)
      && AutoApply in p && p[AutoApply] == Flag(false) && Capacity in p && p[Capacity] == UNLIMITED
      && (forall f | f in p :: Plain(p, f))
    ensures Patch(false).Keys == Patch(true).Keys && Patch(false) == Patch(true)[Active := Flag(false)]
  {
    hide Terms;
    TermValues();
    forall f | f in Patch(active)
      ensures Plain(Patch(active), f)
    {
      if f != Active {
        TermFields(f);
      }
    }
  }

  lemma CompletedField(patch: Row, f: Field)
    ensures f in Completed(patch) <==> f in patch || f in {Type, Code, ApplyToAllAgendaItems}
    ensures f in {Type, Code, ApplyToAllAgendaItems} ==> f in Completed(map[]) && Completed(patch)[f] == Completed(map[])[f]
    ensures f in patch && f !in {Type, Code, ApplyToAllAgendaItems} ==> Completed(patch)[f] == patch[f]
    ensures f in Completed(map[]) <==> f in {Type, Code, ApplyToAllAgendaItems}
  {
  }

  lemma CompletedValues(patch: Row)
    ensures var body := Completed(patch);
      && Type in body && body[Type] == Text("DISCOUNT_CODE") && Code in body && body[Code] == Text(CODE)
      && ApplyToAllAgendaItems in body && body[ApplyToAllAgendaItems] == Flag(false)
  {
  }

  // ---- The adapter's own validation accepts it ----------------------------------------------------------------

  lemma NamesAndMethod()
    ensures NonBlank(Text("Week"), 50) && NonBlank(Text(CODE), 30) && ValidMethod(TEN_PERCENT)
  {
    assert !Space("Week"[0]) && !Space(CODE[0]);
    assert Text("Week").text[0] == 'W' && Text(CODE).text[0] == 'W';
  }

  lemma ValidWhen(body: Row)
    requires Name in body && body[Name] == Text("Week") && Code in body && body[Code] == Text(CODE) && Type in body && body[Type] == Text("DISCOUNT_CODE")
    requires Active in body && Stackable in body && IncludeGuestsTowardsCapacity in body && AutoApply in body && ApplyToAllAgendaItems in body
    requires body[Active].Flag? && body[Stackable].Flag? && body[IncludeGuestsTowardsCapacity].Flag? && body[AutoApply].Flag?
    requires body[ApplyToAllAgendaItems].Flag?
    requires AudienceType in body && body[AudienceType] == Text("ALL") && Field.Method in body && body[Field.Method] == TEN_PERCENT
    requires Field.Note !in body && forall f | f in body :: !Date(f)
    ensures ValidBody(body)
  {
    hide NonBlank; hide ValidMethod; hide CalendarDate; hide Later;
    NamesAndMethod();
  }

  lemma UnlimitedIsOk(body: Row)
    requires Capacity in body && body[Capacity] == UNLIMITED
    ensures CapacityBodyOk(body)
  {
  }

  lemma PatchIsValid(active: bool)
    ensures var body := Completed(Patch(active));
            ValidBody(body) && CapacityBodyOk(body) && Capacity in body && body[Capacity] == UNLIMITED && Field.Note !in body
  {
    hide Patch; hide Completed; hide ValidBody; hide CapacityBodyOk;
    var p, body := Patch(active), Completed(Patch(active));
    PatchFields(active);
    CompletedValues(p);
    forall f
      ensures f in p ==> f in body && body[f] == p[f]
      ensures f in body ==> !Date(f) && f != Field.Note
    {
      CompletedField(p, f);
    }
    ValidWhen(body);
    UnlimitedIsOk(body);
  }

  lemma PreparedWhen(patch: Row, before: Option<Row>, valid: Row -> bool, body: Row)
    requires DropNullDates(Original(CODE, before) + patch) == body && CapacityBodyOk(body) && valid(body)
    requires Capacity in body && body[Capacity] == UNLIMITED
    requires before.Some? ==> CapacityBaselineOk(before.value) && forall f | f in before.value :: !f.Unreviewed?
    ensures Prepare(CODE, patch, before, valid) == Ok(body)
  {
    hide DropNullDates; hide Original;
  }

  /** Put over no row, a patch is completed. */
  lemma NewlyCompleted(patch: Row)
    requires forall f | f in patch :: Plain(patch, f)
    ensures DropNullDates(Original(CODE, None) + patch) == Completed(patch)
  {
    hide DropNullDates; hide Original; hide Completed;
    var body := DropNullDates(Original(CODE, None) + patch);
    CompletedValues(patch);
    forall f
      ensures f in body <==> f in Completed(patch)
      ensures f in body ==> body[f] == Completed(patch)[f]
    {
      CompletedField(patch, f);
      if f in patch {
        PatchedField(CODE, patch, None, f);
      } else {
        NewField(CODE, patch, f);
      }
    }
  }

  /** A row that has nothing of its own outside a patch but the note. */
  ghost predicate Covered(row: Row, patch: Row) {
    && (forall f | f in row && Writable(f) && f !in patch && f != Field.Note :: f in Completed(map[]) && row[f] == Completed(map[])[f])
    && (forall f | f in Completed(map[]) :: f in row)
  }

  /** Put over such a row, a patch is completed and the note is carried over. */
  lemma Overwritten(patch: Row, row: Row)
    requires (forall f | f in patch :: Plain(patch, f)) && Capacity in patch && Covered(row, patch)
    ensures DropNullDates(Original(CODE, Some(row)) + patch)
         == if Field.Note in row then Completed(patch)[Field.Note := row[Field.Note]] else Completed(patch)
  {
    hide DropNullDates; hide Original; hide Completed;
    var body := DropNullDates(Original(CODE, Some(row)) + patch);
    var expected := if Field.Note in row then Completed(patch)[Field.Note := row[Field.Note]] else Completed(patch);
    forall f
      ensures f in body <==> f in expected
      ensures f in body ==> body[f] == expected[f]
    {
      CompletedField(patch, f);
      if f in patch {
        PatchedField(CODE, patch, Some(row), f);
      } else {
        KeptField(CODE, patch, row, f);
      }
    }
  }

  lemma NewIsPrepared(active: bool)
    ensures Prepare(CODE, Patch(active), None, ValidBody) == Ok(Completed(Patch(active)))
  {
    hide *;
    PatchFields(active);
    PatchIsValid(active);
    NewlyCompleted(Patch(active));
    PreparedWhen(Patch(active), None, ValidBody, Completed(Patch(active)));
  }

  lemma WantedIsInactive()
    ensures Inactive(Wanted()) == Wanted().(patch := Patch(false), items := None) && ValidInput(Wanted())
    ensures var w := Wanted();
            w.items.Some? && w.removes.None? && w.discountId.None? && w.createIfMissing && w.code == CODE && w.patch == Patch(true)
  {
    hide Patch; hide ValidItems;
    PatchFields(true);
    OneItemIsValid();
  }

  lemma OneItemIsValid()
    ensures ValidItems(ONE_ITEM)
  {
  }

  // ---- A row the remote may hold ------------------------------------------------------------------------------

  const ROW_ID := "22222222-2222-2222-2222-222222222222"

  function Usage(used: int): Value {
    Object(map[TOTAL := Number(-1), USED := Number(used)])
  }

  /** The row of a completed patch, with an identity and so many uses. */
  function RowOf(patch: Row, used: int): Row {
    Completed(patch)[Id := Text(ROW_ID)][Level := Text("EVENT")][Capacity := Usage(used)]
  }

  lemma RowValues(patch: Row, used: nat)
    requires forall f | f in patch :: Plain(patch, f)
    ensures var row := RowOf(patch, used);
      && Matched(row) && IdOf(row) == Some(ROW_ID) && CapacityBaselineOk(row) && Code in row && row[Code] == Text(CODE)
      && (Active in patch ==> Active in row && row[Active] == patch[Active]) && Field.Note !in row
  {
    hide Completed;
    var row := RowOf(patch, used);
    CompletedValues(patch);
    CompletedField(patch, Active);
    CompletedField(patch, Field.Note);
    assert row[Id] == Text(ROW_ID) && row[Level] == Text("EVENT") && row[Type] == Text("DISCOUNT_CODE") && row[Code] == Text(CODE);
    assert row[Capacity] == Usage(used);
    assert |ROW_ID| == ID_LENGTH;
  }

  lemma RowField(patch: Row, used: int, f: Field)
    requires f != Capacity && f != Id && f != Level
    ensures (f in RowOf(patch, used) <==> f in Completed(patch)) && (f in Completed(patch) ==> RowOf(patch, used)[f] == Completed(patch)[f])
  {
    hide Completed;
  }

  lemma RowIsCovered(patch: Row, used: int)
    requires (forall f | f in patch :: Plain(patch, f)) && Capacity in patch
    ensures var row := RowOf(patch, used); Covered(row, patch) && forall f | f in row :: !f.Unreviewed?
  {
    hide Completed; hide RowOf;
    var row := RowOf(patch, used);
    forall f
      ensures f in row && Writable(f) && f !in patch && f != Field.Note ==> f in Completed(map[]) && row[f] == Completed(map[])[f]
      ensures f in Completed(map[]) ==> f in row
      ensures f in row ==> !f.Unreviewed?
    {
      if f != Capacity && f != Id && f != Level {
        RowField(patch, used, f);
        CompletedField(patch, f);
      }
      CompletedField(map[], f);
    }
  }

  // ---- A run that switches off somebody else's discount ---------------------------------------------------------

  /** The same code, in use, made by someone else under another name. */
  function Taken(): Row {
    RowOf(Patch(true), 7)[Name := Text("Staff")]
  }

  /** One item is linked to it. */
  const TAKEN_LINKS := [LinkRow(ROW_ID, KeyOf(Item(AdmissionItem, "33333333-3333-3333-3333-333333333333")))]

  function Lately(n: nat): Option<Row> {
    if n == 0 then None else Some(Taken())
  }

  lemma TakenFacts()
    ensures Matched(Taken()) && IdOf(Taken()) == Some(ROW_ID) && CapacityBaselineOk(Taken()) && Field.Note !in Taken() && On(Taken())
    ensures Code in Taken() && Taken()[Code] == Text(CODE)
    ensures Covered(Taken(), Patch(false)) && forall f | f in Taken() :: !f.Unreviewed?
  {
    hide *;
    PatchFields(true);
    PatchFields(false);
    RowValues(Patch(true), 7);
    RowIsCovered(Patch(true), 7);
    TakenIsRenamed();
    Renamed(RowOf(Patch(true), 7), Patch(true), Text("Staff"));
    SameFieldsCovered(Taken(), Patch(true), Patch(false));
  }

  lemma TakenIsRenamed()
    ensures Taken() == RowOf(Patch(true), 7)[Name := Text("Staff")]
  {
  }

  lemma Renamed(row: Row, patch: Row, name: Value)
    requires Matched(row) && IdOf(row) == Some(ROW_ID) && CapacityBaselineOk(row) && Field.Note !in row && Code in row && row[Code] == Text(CODE)
    requires Active in row && row[Active] == Flag(true) && Covered(row, patch) && Name in patch && forall f | f in row :: !f.Unreviewed?
    ensures var r := row[Name := name];
      && Matched(r) && IdOf(r) == Some(ROW_ID) && CapacityBaselineOk(r) && Field.Note !in r && Code in r && r[Code] == Text(CODE)
      && On(r) && Covered(r, patch) && forall f | f in r :: !f.Unreviewed?
  {
    hide Completed;
  }

  lemma SameFieldsCovered(row: Row, patch: Row, other: Row)
    requires Covered(row, patch) && patch.Keys == other.Keys
    ensures Covered(row, other)
  {
    hide Completed; hide Writable;
    assert forall f :: f in patch <==> f in other;
  }

  /** The inactive configuration can be applied to the row. */
  lemma TakenIsPrepared()
    ensures Prepare(CODE, Patch(false), Some(Taken()), ValidBody) == Ok(Completed(Patch(false)))
  {
    hide *;
    PatchFields(false);
    PatchIsValid(false);
    TakenFacts();
    Overwritten(Patch(false), Taken());
    PreparedWhen(Patch(false), Some(Taken()), ValidBody, Completed(Patch(false)));
  }

  lemma TakenLinksAreDistinct(discount: string)
    ensures Distinct(Of(TAKEN_LINKS, discount))
  {
    hide KeyOf;
    assert TAKEN_LINKS[1..] == [];
  }

  lemma TakenOvertakes()
    ensures Overtakes(Wanted(), Some(Some(Taken())), ValidBody)
  {
    hide ValidBody; hide Prepare; hide Patch; hide Taken; hide IdOf; hide Matched; hide Covered; hide On; hide CapacityBaselineOk;
    TakenFacts();
    TakenIsPrepared();
    WantedIsInactive();
  }

  lemma TakenIsShown(c: Cvent, event: EventData)
    requires c.script == Some(Script(event, Lately, TAKEN_LINKS))
    ensures Appears(c, Wanted(), event, ValidBody, 1) && c.script.value.rows(0).None? && c.script.value.rows(1) == Some(Taken())
  {
    hide ValidBody; hide Overtakes; hide Patch; hide Taken; hide Matched; hide On; hide Of; hide IdOf; hide CapacityBaselineOk; hide Covered;
    TakenFacts();
    TakenOvertakes();
    forall discount
      ensures Distinct(Of(TAKEN_LINKS, discount))
    {
      TakenLinksAreDistinct(discount);
    }
  }

  /**
   * Nothing is refused; one thing happens elsewhere: the code comes into existence, in use and linked, between the two
   * catalog readings. The one write sent overwrites it and switches it off, and the operation fails.
   */
  method SwitchedOff(event: EventData, polls: nat) returns (c: Cvent, r: Result<Row, Problem>)
    ensures r.Err? && |c.sent| == 1 && c.sent[0].write == Update(ROW_ID, Completed(Patch(false)))
    ensures Matched(Taken()) && On(Taken()) && IdOf(Taken()) == Some(ROW_ID) && Completed(Patch(false))[Active] == Flag(false)
  {
    hide *;
    c := new Cvent(Some(Script(event, Lately, TAKEN_LINKS)), None);
    WantedIsInactive();
    NewIsPrepared(true);
    TakenFacts();
    TakenIsShown(c, event);
    PatchFields(false);
    CompletedField(Patch(false), Active);
    ghost var trail, ws, outer, inner;
    r, trail, ws, outer, inner := ConfigureDiscount(c, Wanted(), event, ValidBody, polls);
    assert c.sent == ws;
    PlannedIsTaken(trail.plan);
  }

  lemma PlannedIsTaken(p: Plan)
    requires Planned(p, Inactive(Wanted()), Taken(), ValidBody)
    ensures p.discount == ROW_ID && p.body == Completed(Patch(false))
  {
    hide Prepare; hide ValidBody; hide Completed; hide Patch; hide Taken; hide Matched; hide CapacityBaselineOk; hide Covered; hide On;
    TakenFacts();
    TakenIsPrepared();
    WantedIsInactive();
  }

  // ---- A row of the request's own, with a note nobody asked for --------------------------------------------------

  /** What the remote makes of the inactive creation: unused, with an empty note. */
  function Saved(): Row {
    RowOf(Patch(false), 0)[Field.Note := Text("")]
  }

  lemma UsageIncludesTotal()
    ensures IncludesValue(Usage(0), UNLIMITED)
  {
    var saved := map[TOTAL := Number(-1), USED := Number(0)];
    assert TOTAL in saved && saved[TOTAL] == Number(-1);
    assert IncludesValue(Number(-1), Number(-1));
  }

  lemma SavedFacts()
    ensures IdOf(Saved()) == Some(ROW_ID) && CapacityBaselineOk(Saved()) && Field.Note in Saved() && Saved()[Field.Note] == Text("")
    ensures Covered(Saved(), Patch(true)) && forall f | f in Saved() :: !f.Unreviewed?
  {
    hide Completed; hide Patch; hide RowOf;
    PatchFields(false);
    RowValues(Patch(false), 0);
    RowIsCovered(Patch(false), 0);
  }

  lemma SavedField(f: Field)
    requires f in Completed(Patch(false))
    ensures f in Saved() && IncludesValue(Saved()[f], Completed(Patch(false))[f])
  {
    hide IncludesValue; hide Completed; hide Patch; hide Usage; hide RowOf;
    PatchFields(false);
    PatchIsValid(false);
    CompletedField(Patch(false), f);
    hide ValidBody; hide CapacityBodyOk;
    assert f != Field.Note && f != Id && f != Level;
    if f == Capacity {
      SavedCapacity();
    } else {
      RowField(Patch(false), 0, f);
      IncludesSelf(Completed(Patch(false))[f]);
    }
  }

  lemma SavedCapacity()
    ensures Capacity in Saved() && IncludesValue(Saved()[Capacity], UNLIMITED)
  {
    hide IncludesValue; hide Completed; hide Patch; hide Usage;
    UsageIncludesTotal();
  }

  lemma SavedIncludes()
    ensures Includes(Saved(), Completed(Patch(false)))
  {
    hide IncludesValue; hide Completed; hide Patch; hide Saved;
    forall f | f in Completed(Patch(false))
      ensures f in Saved() && IncludesValue(Saved()[f], Completed(Patch(false))[f])
    {
      SavedField(f);
    }
  }

  lemma NotedIsValid(body: Row)
    requires ValidBody(body) && CapacityBodyOk(body)
    ensures ValidBody(body[Field.Note := Text("")]) && CapacityBodyOk(body[Field.Note := Text("")])
  {
    hide NonBlank; hide ValidMethod; hide CalendarDate; hide Later;
    var noted := body[Field.Note := Text("")];
    assert forall f | f in noted && f != Field.Note :: f in body && noted[f] == body[f];
  }

  lemma SavedIsPrepared()
    ensures Prepare(CODE, Patch(true), Some(Saved()), ValidBody) == Ok(Completed(Patch(true))[Field.Note := Text("")])
  {
    hide *;
    PatchFields(true);
    PatchIsValid(true);
    NotedIsValid(Completed(Patch(true)));
    SavedFacts();
    Overwritten(Patch(true), Saved());
    PreparedWhen(Patch(true), Some(Saved()), ValidBody, Completed(Patch(true))[Field.Note := Text("")]);
  }
}
