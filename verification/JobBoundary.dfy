/**
 * The two sides of the process boundary together: the writes the adapter sends, with the evidence it records between
 * them, judged one by one by the gate of the job.
 */
module JobBoundary {
  import opened Wrappers
  import opened LinkKeys
  import opened DiscountBody
  import opened WriteEvidence
  import opened Remote
  import opened Reconcile
  import opened DiscountUpdate
  import opened DiscountCreate
  import opened DiscountWitness
  import G = WriteGate
  import I = GateInterleaving

  // ---- What the gate is asked and told ------------------------------------------------------------------

  const ADMISSION := "AdmissionItem:"
  const QUANTITY := "QuantityItem:"

  /** The item behind an association key. */
  function ItemOf(key: Key): Item {
    if ADMISSION <= key then Item(AdmissionItem, key[|ADMISSION|..])
    else if QUANTITY <= key then Item(QuantityItem, key[|QUANTITY|..])
    else Item(QuantityItem, "")
  }

  lemma ItemOfKey(item: Item)
    ensures ItemOf(KeyOf(item)) == item
  {
    var key := KeyOf(item);
    match item.kind
    case AdmissionItem =>
      assert key == ADMISSION + item.id;
    case QuantityItem =>
      assert key == QUANTITY + item.id;
      assert key[0] != ADMISSION[0];
  }

  /** The command's input, as the gate has it. */
  function DataOf(input: Input, event: string): G.Data {
    G.Data(event, false, input.code, input.discountId, input.createIfMissing, input.items, input.removes,
           if Active in input.patch then Some(input.patch[Active]) else None)
  }

  /** How the adapter puts a write to the gate. `before` is the row an update started from. */
  function Asked(s: Sent, before: Row): G.Prepared {
    match s.write
    case Create(body) => G.Prepared(G.NoPhase, G.Post, G.Discounts, None, Some(body), None, None, None, None, None)
    case LinkNew(id, key) => G.Prepared(G.LinkNewItem, G.Put, G.ItemLink(id, ItemOf(key).id), None, None, Some(id), Some(ItemOf(key)), None, None, None)
    case Finalize(id, body) => G.Prepared(G.FinalizeNew, G.Put, G.Discount(id), s.row, Some(body), Some(id), None, None, None, None)
    case RemoveLink(id, key, existing, expected) =>
      G.Prepared(G.RemoveItem, G.Delete, G.ItemLink(id, ItemOf(key).id), Some(before), None, Some(id), Some(ItemOf(key)), Some(existing), Some(expected), Some(204))
    case AddLink(id, key, existing) =>
      G.Prepared(G.AddItem, G.Put, G.ItemLink(id, ItemOf(key).id), Some(before), None, Some(id), Some(ItemOf(key)), Some(existing), None, None)
    case Update(id, body) => G.Prepared(G.UpdateExisting, G.Put, G.Discount(id), Some(before), Some(body), Some(id), None, None, None, None)
  }

  function Heard(g: G.State, d: G.Data, es: seq<Evidence>): G.State {
    if es == [] then g else G.Learn(Heard(g, d, es[..|es| - 1]), d, es[|es| - 1])
  }

  /** The gate after a write is accepted. */
  function Accept(g: G.State, d: G.Data, p: G.Prepared): G.State {
    G.Book(g, d, p).(dispatched := true)
  }

  /** The gate when it is asked for the last of some writes, the others having been accepted. */
  function Facing(d: G.Data, before: Row, ws: seq<Sent>): G.State
    requires ws != []
    decreases |ws|, 0
  {
    Heard(GateAfter(d, before, ws[..|ws| - 1]), d, ws[|ws| - 1].noted)
  }

  function GateAfter(d: G.Data, before: Row, ws: seq<Sent>): G.State
    decreases |ws|, 1
  {
    if ws == [] then G.INITIAL else Accept(Facing(d, before, ws), d, Asked(ws[|ws| - 1], before))
  }

  /** The gate admits write `i`. */
  ghost predicate AdmittedAt(d: G.Data, before: Row, ws: seq<Sent>, i: nat)
    requires i < |ws|
  {
    G.Admits(Facing(d, before, ws[..i + 1]), d, Asked(ws[i], before))
  }

  function RouteOf(s: Sent, before: Row): (G.Verb, G.Path) {
    (Asked(s, before).verb, Asked(s, before).path)
  }

  lemma LearnKeepsPaths(g: G.State, d: G.Data, e: Evidence)
    ensures var h := G.Learn(g, d, e);
            h.sentPaths == g.sentPaths && h.sentLinks == g.sentLinks && h.finalized == g.finalized && h.dispatched == g.dispatched && h.first == g.first
  {
  }

  lemma {:induction false} HeardKeepsPaths(g: G.State, d: G.Data, es: seq<Evidence>)
    ensures var h := Heard(g, d, es);
            h.sentPaths == g.sentPaths && h.sentLinks == g.sentLinks && h.finalized == g.finalized && h.dispatched == g.dispatched && h.first == g.first
  {
    hide G.Learn;
    if es != [] {
      HeardKeepsPaths(g, d, es[..|es| - 1]);
      LearnKeepsPaths(Heard(g, d, es[..|es| - 1]), d, es[|es| - 1]);
    }
  }

  /** The gate has booked exactly the routes of the writes. */
  lemma {:induction false} RoutesBooked(d: G.Data, before: Row, ws: seq<Sent>, r: (G.Verb, G.Path))
    ensures r in GateAfter(d, before, ws).sentPaths <==> exists j :: 0 <= j < |ws| && RouteOf(ws[j], before) == r
  {
    hide Asked; hide Heard; hide G.LinksNew; hide G.Finalizes;
    if ws != [] {
      var most, last := ws[..|ws| - 1], ws[|ws| - 1];
      RoutesBooked(d, before, most, r);
      HeardKeepsPaths(GateAfter(d, before, most), d, last.noted);
      if exists j :: 0 <= j < |most| && RouteOf(most[j], before) == r {
        var j :| 0 <= j < |most| && RouteOf(most[j], before) == r;
        assert RouteOf(ws[j], before) == r;
      }
      if exists j :: 0 <= j < |ws| && RouteOf(ws[j], before) == r {
        var j :| 0 <= j < |ws| && RouteOf(ws[j], before) == r;
        assert j < |most| ==> RouteOf(most[j], before) == r;
        assert RouteOf(ws[|ws| - 1], before) == (Asked(last, before).verb, Asked(last, before).path);
      }
      assert RouteOf(ws[|ws| - 1], before) == (Asked(last, before).verb, Asked(last, before).path);
    }
  }

  lemma FacingUnbooked(d: G.Data, before: Row, ws: seq<Sent>, i: nat)
    requires i < |ws| && forall j | 0 <= j < i :: RouteOf(ws[j], before) != RouteOf(ws[i], before)
    ensures RouteOf(ws[i], before) !in Facing(d, before, ws[..i + 1]).sentPaths
  {
    hide RouteOf; hide Heard; hide GateAfter;
    assert ws[..i + 1][..i] == ws[..i];
    RoutesBooked(d, before, ws[..i], RouteOf(ws[i], before));
    HeardKeepsPaths(GateAfter(d, before, ws[..i]), d, ws[i].noted);
  }

  // ---- Updates ------------------------------------------------------------------------------------------

  lemma ListedItem(items: seq<Item>, key: Key) returns (k: nat)
    requires key in KeysOf(items)
    ensures k < |items| && KeysOf(items)[k] == key && items[k] == ItemOf(key) && KeyOf(ItemOf(key)) == key
  {
    hide KeyOf; hide ItemOf;
    k :| 0 <= k < |KeysOf(items)| && KeysOf(items)[k] == key;
    ItemOfKey(items[k]);
  }

  /** Different keys of one valid list are of items with different identities. */
  lemma KeysSeparateItems(items: seq<Item>, a: Key, b: Key)
    requires ValidItems(items) && a in KeysOf(items) && b in KeysOf(items) && a != b
    ensures ItemOf(a).id != ItemOf(b).id
  {
    hide KeyOf; hide ItemOf;
    var i := ListedItem(items, a);
    var j := ListedItem(items, b);
    assert i < j || j < i;
  }

  lemma DroppedIsWithout(keys: seq<Key>, key: Key)
    ensures G.Dropped(keys, key) == Without(keys, key)
  {
  }

  /** What an update may ask for. */
  ghost predicate Sound(p: Plan, input: Input, row: Row, valid: Row -> bool, ws: seq<Sent>) {
    && ValidInput(input) && Planned(p, input, row, valid) && Legal(p, ws) && Ordered(p.start)
    && KeepsSome(p) && (input.removes.Some? ==> Active in p.before && p.before[Active].Flag?)
  }

  lemma UpdateRoutesDiffer(p: Plan, input: Input, row: Row, valid: Row -> bool, ws: seq<Sent>, j: nat, i: nat)
    requires Sound(p, input, row, valid, ws) && j < i < |ws|
    ensures RouteOf(ws[j], p.before) != RouteOf(ws[i], p.before)
  {
    hide KeepsSome; hide Legal; hide Ordered; hide ValidItems; hide Prepare; hide Scoped; hide Matched; hide IdOf; hide KeyOf; hide ItemOf; hide Patchable;
    assert WriteLegal(p, ws, i) && WriteLegal(p, ws, j) by { LegalAt(p, ws, i); LegalAt(p, ws, j); }
    hide After;
    assert ws[j].write.RemoveLink? || ws[j].write.AddLink?;
    if !ws[i].write.Update? && ws[j].write.RemoveLink? == ws[i].write.RemoveLink? {
      NoLinkWrittenTwice(p, ws, j, i);
      if ws[i].write.RemoveLink? {
        KeysSeparateItems(input.removes.value, ws[j].write.key, ws[i].write.key);
      } else {
        KeysSeparateItems(input.items.value, ws[j].write.key, ws[i].write.key);
      }
    }
  }

  lemma LegalAt(p: Plan, ws: seq<Sent>, i: nat)
    requires Legal(p, ws) && i < |ws|
    ensures WriteLegal(p, ws, i)
  {
    hide WriteLegal;
  }

  lemma BaselineIff(p: Plan, input: Input, d: G.Data, w: Sent)
    requires Matched(p.before) && IdOf(p.before) == Some(p.discount) && Code in p.before && p.before[Code] == Text(input.code)
    requires !d.volume && d.identity == input.code
    requires Asked(w, p.before).baseline == Some(p.before) && Asked(w, p.before).discountId == Some(p.discount)
    ensures G.ExistingBaseline(d, Asked(w, p.before)) <==> G.OwnEvent(p.before, d.event)
  {
    hide Asked;
  }

  /** What a removal in a sound plan looks like. */
  lemma RemovalFacts(p: Plan, input: Input, valid: Row -> bool, ws: seq<Sent>, i: nat) returns (k: nat)
    requires Sound(p, input, p.before, valid, ws) && i < |ws| && ws[i].write.RemoveLink?
    ensures var w := ws[i].write;
      && input.removes.Some? && k < |input.removes.value| && input.removes.value[k] == ItemOf(w.key) && KeyOf(ItemOf(w.key)) == w.key
      && w.discount == p.discount && w.key in w.existing && w.expected == G.Dropped(w.existing, w.key)
      && (On(p.before) ==> w.expected != [])
  {
    hide Legal; hide ValidItems; hide Prepare; hide Scoped; hide KeyOf; hide ItemOf; hide Patchable; hide After; hide Without; hide G.Dropped; hide Ordered;
    hide Matched; hide IdOf; hide On;
    LegalAt(p, ws, i);
    k := ListedItem(input.removes.value, ws[i].write.key);
    DroppedIsWithout(ws[i].write.existing, ws[i].write.key);
    if On(p.before) {
      NeverEmptied(p, ws);
    }
  }

  /** The gate's test of a removal. */
  lemma RemovalPasses(p: Plan, input: Input, event: string, valid: Row -> bool, ws: seq<Sent>, i: nat)
    requires Sound(p, input, p.before, valid, ws) && i < |ws| && ws[i].write.RemoveLink? && G.OwnEvent(p.before, event)
    ensures G.Unlinks(DataOf(input, event), Asked(ws[i], p.before))
  {
    hide Legal; hide ValidItems; hide Prepare; hide Scoped; hide KeyOf; hide ItemOf; hide Patchable; hide G.Dropped; hide G.OwnEvent; hide Ordered; hide KeepsSome;
    var k := RemovalFacts(p, input, valid, ws, i);
    BaselineIff(p, input, DataOf(input, event), ws[i]);
    NonEmptyItems(input);
    hide Matched; hide G.ExistingBaseline; hide IdOf;
    assert G.ListsItem(input.removes, Some(ItemOf(ws[i].write.key)));
    assert forall n | 0 <= n < |input.items.value| :: input.items.value[n].id != input.removes.value[k].id;
  }

  lemma NonEmptyItems(input: Input)
    requires ValidInput(input)
    ensures input.items.Some? ==> input.items.value != []
  {
  }

  lemma ChangePasses(p: Plan, input: Input, data: Input, event: string, valid: Row -> bool, ws: seq<Sent>, i: nat)
    requires Sound(p, input, p.before, valid, ws) && i < |ws| && !ws[i].write.RemoveLink? && G.OwnEvent(p.before, event)
    requires data.code == input.code && data.discountId == input.discountId && (input.items.Some? ==> data.items == input.items)
    ensures G.ChangesExisting(DataOf(data, event), Asked(ws[i], p.before))
  {
    hide Legal; hide ValidInput; hide Prepare; hide Scoped; hide ItemOf; hide After; hide G.OwnEvent; hide Ordered; hide KeepsSome; hide KeysOf;
    LegalAt(p, ws, i);
    BaselineIff(p, input, DataOf(data, event), ws[i]);
    hide Matched; hide G.ExistingBaseline; hide IdOf; hide Business;
    if ws[i].write.AddLink? {
      NothingAdded(p, input, ws, i);
      var k := ListedItem(input.items.value, ws[i].write.key);
      assert G.ListsItem(data.items, Some(ItemOf(ws[i].write.key)));
    }
  }

  lemma NothingAdded(p: Plan, input: Input, ws: seq<Sent>, i: nat)
    requires p.adds == Adds(input) && i < |ws| && WriteLegal(p, ws, i) && ws[i].write.AddLink?
    ensures input.items.Some? && ws[i].write.key in KeysOf(input.items.value)
  {
    hide After; hide KeysOf;
  }

  /** An update's write can only be admitted as a change of the existing row. */
  lemma OnlyOnOwnRow(p: Plan, data: Input, event: string, valid: Row -> bool, w: Sent, g: G.State)
    requires Matched(p.before) && IdOf(p.before) == Some(p.discount) && Code in p.before && p.before[Code] == Text(data.code)
    requires (w.write.RemoveLink? || w.write.AddLink? || w.write.Update?) && w.write.discount == p.discount
    requires G.Admits(g, DataOf(data, event), Asked(w, p.before))
    ensures G.OwnEvent(p.before, event)
  {
    hide G.OwnEvent; hide G.Dropped; hide KeyOf; hide ItemOf; hide Matched; hide G.FinalBody; hide G.Has; hide IdOf;
  }

  /**
   * No update is refused half-way: whatever evidence is recorded in between, the gate admits all of its writes if the
   * row names this event or none, and none of them otherwise. `data` is the command's input, of which an overtaken
   * creation's update is a part.
   */
  lemma UpdateIsAdmitted(p: Plan, input: Input, data: Input, event: string, valid: Row -> bool, ws: seq<Sent>, i: nat)
    requires Sound(p, input, p.before, valid, ws) && i < |ws|
    requires data == input || (input == Inactive(data) && input.removes.None?)
    ensures AdmittedAt(DataOf(data, event), p.before, ws, i) <==> G.OwnEvent(p.before, event)
  {
    hide G.OwnEvent; hide Asked; hide DataOf; hide Facing;
    var d := DataOf(data, event);
    forall j | 0 <= j < i
      ensures RouteOf(ws[j], p.before) != RouteOf(ws[i], p.before)
    {
      UpdateRoutesDiffer(p, input, p.before, valid, ws, j, i);
    }
    FacingUnbooked(d, p.before, ws, i);
    var g := Facing(d, p.before, ws[..i + 1]);
    LegalAt(p, ws, i);
    if G.OwnEvent(p.before, event) {
      if ws[i].write.RemoveLink? {
        RemovalPasses(p, input, event, valid, ws, i);
        NothingRemoved(p, input, ws, i);
      } else {
        ChangePasses(p, input, data, event, valid, ws, i);
      }
      Admitted(g, d, Asked(ws[i], p.before));
    } else if G.Admits(g, d, Asked(ws[i], p.before)) {
      OnlyOnOwnRow(p, data, event, valid, ws[i], g);
    }
  }

  lemma NothingRemoved(p: Plan, input: Input, ws: seq<Sent>, i: nat)
    requires p.removes == Removes(input) && i < |ws| && WriteLegal(p, ws, i) && ws[i].write.RemoveLink?
    ensures input.removes.Some?
  {
    hide After;
  }

  lemma Admitted(g: G.State, d: G.Data, p: G.Prepared)
    requires G.ChangesExisting(d, p) || G.Unlinks(d, p) || G.Creates(g, d, p) || G.LinksNew(g, d, p) || G.Finalizes(g, d, p)
    requires (p.verb, p.path) !in g.sentPaths
    ensures G.Admits(g, d, p)
  {
    hide G.ChangesExisting; hide G.Unlinks; hide G.Creates; hide G.LinksNew; hide G.Finalizes;
  }

  // ---- Creations ----------------------------------------------------------------------------------------

  lemma {:induction false} HeardNothing(g: G.State, d: G.Data, es: seq<Evidence>)
    requires Unmatched(es)
    ensures Heard(g, d, es) == g
  {
    if es != [] {
      HeardNothing(g, d, es[..|es| - 1]);
    }
  }

  lemma HeardLast(g: G.State, d: G.Data, es: seq<Evidence>)
    requires es != [] && Unmatched(es[..|es| - 1])
    ensures Heard(g, d, es) == G.Learn(g, d, es[|es| - 1])
  {
    hide G.Learn; hide Unmatched;
    HeardNothing(g, d, es[..|es| - 1]);
  }

  /** The gate when it is asked for write `i` of a creation, after the first. */
  ghost predicate Following(g: G.State, b: Birth, i: nat)
    requires 1 <= i <= |b.keys| + 1
  {
    && g.created == Some(b.id) && !g.finalized
    && g.first.Some? && g.first.value.verb.Post? && g.first.value.body == Some(b.first)
    && (forall l | l in g.sentLinks :: exists j :: 0 <= j < i - 1 && l == ItemOf(b.keys[j]).id)
    && (forall j | 0 <= j < i - 1 :: b.keys[j] in g.verified)
  }

  /** The body of a creation has the type and the code. */
  lemma FirstFields(b: Birth, input: Input, valid: Row -> bool)
    requires (forall f | f in input.patch :: Patchable(f)) && Prepare(input.code, Inactive(input).patch, None, valid) == Ok(b.first)
    ensures Type in b.first && b.first[Type] == Text("DISCOUNT_CODE") && Code in b.first && b.first[Code] == Text(input.code)
  {
  }

  lemma IncludedFields(b: Birth, input: Input, valid: Row -> bool)
    requires (forall f | f in input.patch :: Patchable(f)) && Prepare(input.code, Inactive(input).patch, None, valid) == Ok(b.first)
    requires Includes(b.baseline, b.first)
    ensures Type in b.baseline && b.baseline[Type] == Text("DISCOUNT_CODE") && Code in b.baseline && b.baseline[Code] == Text(input.code)
  {
    hide Prepare; hide Patchable;
    FirstFields(b, input, valid);
    assert IncludesValue(b.baseline[Type], b.first[Type]) && IncludesValue(b.baseline[Code], b.first[Code]);
  }

  /** The report of the created row is what makes the gate know its identity. */
  lemma CreationIsConfirmed(d: G.Data, b: Birth, input: Input, event: string, valid: Row -> bool, create: Sent, noted: seq<Evidence>)
    requires ValidInput(input) && d == DataOf(input, event)
    requires create.write == Write.Create(b.first) && Announced(noted, b.id, b.baseline)
    requires Prepare(input.code, Inactive(input).patch, None, valid) == Ok(b.first)
    requires IdOf(b.baseline) == Some(b.id) && Includes(b.baseline, b.first)
    ensures Following(Heard(Accept(G.INITIAL, d, Asked(create, map[])), d, noted), b, 1)
  {
    hide ValidItems; hide Prepare; hide Includes;
    FirstFields(b, input, valid);
    IncludedFields(b, input, valid);
    HeardLast(Accept(G.INITIAL, d, Asked(create, map[])), d, noted);
  }

  lemma LinkIsFollowed(g: G.State, d: G.Data, b: Birth, i: nat, w: Sent, noted: seq<Evidence>)
    requires 1 <= i <= |b.keys| && Following(g, b, i) && w.write == LinkNew(b.id, b.keys[i - 1])
    requires Confirmed(noted, b.id, Sort(b.keys[..i]))
    ensures Following(Heard(Accept(g, d, Asked(w, map[])), d, noted), b, i + 1)
  {
    hide Sort; hide ItemOf; hide G.ListsItem;
    var t := Accept(g, d, Asked(w, map[]));
    HeardLast(t, d, noted);
    SortMembers(b.keys[..i]);
    forall j | 0 <= j < i
      ensures b.keys[j] in Sort(b.keys[..i])
    {
      assert b.keys[..i][j] == b.keys[j];
    }
    var h := Heard(t, d, noted);
    assert h.created == g.created && h.finalized == t.finalized && h.first == g.first && h.sentLinks == t.sentLinks;
    forall l | l in h.sentLinks
      ensures exists j :: 0 <= j < i && l == ItemOf(b.keys[j]).id
    {
      if l in g.sentLinks {
        var j :| 0 <= j < i - 1 && l == ItemOf(b.keys[j]).id;
      } else {
        assert l == ItemOf(b.keys[i - 1]).id;
      }
    }
  }

  ghost predicate Growing(b: Birth, input: Input, ws: seq<Sent>, valid: Row -> bool) {
    ValidInput(input) && input.items.Some? && Lifecycle(b, ws) && Begun(b, input, ws, valid) && (ws != [] ==> ws[0].noted == [])
  }

  lemma BirthAt(b: Birth, ws: seq<Sent>, i: nat)
    requires Lifecycle(b, ws) && i < |ws|
    ensures StepOfBirth(b, ws[i], i)
  {
    hide StepOfBirth;
  }

  lemma AfterCreate(d: G.Data, ws: seq<Sent>)
    requires ws != [] && ws[0].noted == []
    ensures GateAfter(d, map[], ws[..1]) == Accept(G.INITIAL, d, Asked(ws[0], map[]))
  {
    hide Asked; hide Accept;
    assert ws[..1][..0] == [];
    HeardNothing(G.INITIAL, d, ws[0].noted);
    assert Facing(d, map[], ws[..1]) == G.INITIAL;
  }

  lemma FacingStep(d: G.Data, before: Row, ws: seq<Sent>, i: nat)
    requires 1 <= i < |ws|
    ensures Facing(d, before, ws[..i + 1]) == Heard(GateAfter(d, before, ws[..i]), d, ws[i].noted)
    ensures GateAfter(d, before, ws[..i]) == Accept(Facing(d, before, ws[..i]), d, Asked(ws[i - 1], before))
  {
    hide Asked; hide Accept; hide Heard;
    assert ws[..i + 1][..i] == ws[..i];
  }

  lemma {:induction false} FacingFollows(d: G.Data, b: Birth, input: Input, event: string, ws: seq<Sent>, valid: Row -> bool, i: nat)
    requires Growing(b, input, ws, valid) && d == DataOf(input, event) && 1 <= i < |ws|
    ensures i <= |b.keys| + 1 && Following(Facing(d, map[], ws[..i + 1]), b, i)
  {
    hide Business; hide Lifecycle; hide Following; hide ValidInput; hide Includes; hide Prepare; hide Scoped; hide Announced; hide Confirmed;
    hide Asked; hide Heard; hide DataOf; hide Inactive; hide Accept; hide Sort; hide Facing; hide GateAfter; hide IdOf; hide Adds;
    BirthAt(b, ws, i);
    BirthAt(b, ws, i - 1);
    FacingStep(d, map[], ws, i);
    if i == 1 {
      AfterCreate(d, ws);
      CreationIsConfirmed(d, b, input, event, valid, ws[0], ws[1].noted);
    } else {
      FacingFollows(d, b, input, event, ws, valid, i - 1);
      LinkIsFollowed(Facing(d, map[], ws[..i]), d, b, i - 1, ws[i - 1], ws[i].noted);
    }
  }

  lemma NewRoutesDiffer(b: Birth, input: Input, ws: seq<Sent>, valid: Row -> bool, j: nat, i: nat)
    requires Growing(b, input, ws, valid) && j < i < |ws|
    ensures RouteOf(ws[j], map[]) != RouteOf(ws[i], map[])
  {
    hide Business; hide Lifecycle; hide Includes; hide Prepare; hide Scoped; hide Told; hide Sort; hide ValidItems; hide KeyOf; hide ItemOf;
    BirthAt(b, ws, i);
    BirthAt(b, ws, j);
    if 1 <= j && i <= |b.keys| {
      ItemKeysAreDistinct(input.items.value);
      KeysSeparateItems(input.items.value, b.keys[j - 1], b.keys[i - 1]);
    }
  }

  lemma NewUnbooked(d: G.Data, b: Birth, input: Input, ws: seq<Sent>, valid: Row -> bool, i: nat)
    requires Growing(b, input, ws, valid) && i < |ws|
    ensures RouteOf(ws[i], map[]) !in Facing(d, map[], ws[..i + 1]).sentPaths
  {
    hide Growing; hide RouteOf; hide Facing;
    forall j | 0 <= j < i
      ensures RouteOf(ws[j], map[]) != RouteOf(ws[i], map[])
    {
      NewRoutesDiffer(b, input, ws, valid, j, i);
    }
    FacingUnbooked(d, map[], ws, i);
  }

  /** The remote filled in a field of the new row that the request says nothing about. */
  predicate Unasked(baseline: Row, patch: Row) {
    exists f | f in baseline :: Writable(f) && f !in patch && !f.Type? && !f.Code? && !f.ApplyToAllAgendaItems? && !(Date(f) && baseline[f] == Null)
  }

  /** What the two bodies are made of, field by field. */
  lemma FinalField(b: Birth, input: Input, valid: Row -> bool, f: Field)
    requires (forall f | f in input.patch :: Patchable(f)) && Active in input.patch
    requires Prepare(input.code, Inactive(input).patch, None, valid) == Ok(b.first) && Includes(b.baseline, b.first)
    requires Prepare(input.code, input.patch, Some(b.baseline), valid).Ok?
    requires b.last == Scoped(Prepare(input.code, input.patch, Some(b.baseline), valid).value, true)
    requires !Unasked(b.baseline, input.patch)
    ensures var expected := b.first[Active := input.patch[Active]][ApplyToAllAgendaItems := Flag(true)];
            (f in b.last <==> f in expected) && (f in b.last ==> b.last[f] == expected[f])
  {
    hide Includes;
    IncludedFields(b, input, valid);
    FirstFields(b, input, valid);
    CapacityIsPatched(b, input, valid);
    if f in input.patch {
      PatchedBody(b, input, valid, f);
    } else {
      OtherField(b, input, valid, f);
    }
  }

  lemma CapacityIsPatched(b: Birth, input: Input, valid: Row -> bool)
    requires Prepare(input.code, Inactive(input).patch, None, valid) == Ok(b.first)
    ensures Capacity in input.patch
  {
  }

  lemma PatchedBody(b: Birth, input: Input, valid: Row -> bool, f: Field)
    requires (forall f | f in input.patch :: Patchable(f)) && f in input.patch && Active in input.patch
    requires Prepare(input.code, Inactive(input).patch, None, valid) == Ok(b.first)
    requires Prepare(input.code, input.patch, Some(b.baseline), valid).Ok?
    requires b.last == Scoped(Prepare(input.code, input.patch, Some(b.baseline), valid).value, true)
    ensures f in b.last <==> f in b.first
    ensures f in b.last ==> b.last[f] == (if f == Active then input.patch[Active] else b.first[f])
  {
    hide CapacityBodyOk; hide CapacityBaselineOk; hide Original;
  }

  lemma OtherField(b: Birth, input: Input, valid: Row -> bool, f: Field)
    requires (forall f | f in input.patch :: Patchable(f)) && f !in input.patch && Active in input.patch && Capacity in input.patch
    requires Prepare(input.code, Inactive(input).patch, None, valid) == Ok(b.first)
    requires Prepare(input.code, input.patch, Some(b.baseline), valid).Ok?
    requires b.last == Scoped(Prepare(input.code, input.patch, Some(b.baseline), valid).value, true)
    requires Type in b.baseline && b.baseline[Type] == Text("DISCOUNT_CODE") && Code in b.baseline && b.baseline[Code] == Text(input.code)
    requires !Unasked(b.baseline, input.patch)
    ensures f in b.last <==> f in {Type, Code, ApplyToAllAgendaItems}
    ensures f in b.first <==> f in {Type, Code, ApplyToAllAgendaItems}
    ensures f in {Type, Code} ==> b.last[f] == b.first[f]
    ensures f == ApplyToAllAgendaItems ==> b.last[f] == Flag(true)
  {
    hide Prepare; hide DropNullDates; hide Original; hide Patchable;
    OkIsOriginal(input.code, Inactive(input).patch, None, valid);
    OkIsOriginal(input.code, input.patch, Some(b.baseline), valid);
    NewField(input.code, Inactive(input).patch, f);
    KeptField(input.code, input.patch, b.baseline, f);
  }

  lemma CarriedOver(b: Birth, input: Input, valid: Row -> bool, f: Field)
    requires (forall f | f in input.patch :: Patchable(f)) && f !in input.patch && Active in input.patch && Capacity in input.patch
    requires Prepare(input.code, Inactive(input).patch, None, valid) == Ok(b.first)
    requires Prepare(input.code, input.patch, Some(b.baseline), valid).Ok?
    requires b.last == Scoped(Prepare(input.code, input.patch, Some(b.baseline), valid).value, true)
    requires f in b.baseline && Writable(f) && !f.Type? && !f.Code? && !f.ApplyToAllAgendaItems? && !(Date(f) && b.baseline[f] == Null)
    ensures f in b.last && f !in b.first
  {
    hide CapacityBodyOk; hide CapacityBaselineOk;
  }

  lemma UnaskedDiffers(b: Birth, input: Input, valid: Row -> bool)
    requires (forall f | f in input.patch :: Patchable(f)) && Active in input.patch
    requires Prepare(input.code, Inactive(input).patch, None, valid) == Ok(b.first) && Includes(b.baseline, b.first)
    requires Prepare(input.code, input.patch, Some(b.baseline), valid).Ok?
    requires b.last == Scoped(Prepare(input.code, input.patch, Some(b.baseline), valid).value, true)
    requires Unasked(b.baseline, input.patch)
    ensures b.last != b.first[Active := input.patch[Active]][ApplyToAllAgendaItems := Flag(true)]
  {
    hide Prepare; hide Includes; hide Scoped; hide Patchable;
    CapacityIsPatched(b, input, valid);
    var f :| f in b.baseline && Writable(f) && f !in input.patch && !f.Type? && !f.Code? && !f.ApplyToAllAgendaItems? && !(Date(f) && b.baseline[f] == Null);
    CarriedOver(b, input, valid, f);
    assert f in b.last && f !in b.first[Active := input.patch[Active]][ApplyToAllAgendaItems := Flag(true)];
  }

  lemma NothingElseAgrees(b: Birth, input: Input, valid: Row -> bool)
    requires (forall f | f in input.patch :: Patchable(f)) && Active in input.patch
    requires Prepare(input.code, Inactive(input).patch, None, valid) == Ok(b.first) && Includes(b.baseline, b.first)
    requires Prepare(input.code, input.patch, Some(b.baseline), valid).Ok?
    requires b.last == Scoped(Prepare(input.code, input.patch, Some(b.baseline), valid).value, true)
    requires !Unasked(b.baseline, input.patch)
    ensures b.last == b.first[Active := input.patch[Active]][ApplyToAllAgendaItems := Flag(true)]
  {
    hide Prepare; hide Includes; hide Scoped; hide Unasked; hide Patchable;
    var expected := b.first[Active := input.patch[Active]][ApplyToAllAgendaItems := Flag(true)];
    forall f
      ensures f in b.last <==> f in expected
      ensures f in b.last ==> b.last[f] == expected[f]
    {
      FinalField(b, input, valid, f);
    }
  }

  /** The final body is the first one made active and scoped exactly when it carries nothing else over from the row. */
  lemma FinalBodyIsExpected(b: Birth, input: Input, valid: Row -> bool)
    requires (forall f | f in input.patch :: Patchable(f)) && Active in input.patch
    requires Prepare(input.code, Inactive(input).patch, None, valid) == Ok(b.first) && Includes(b.baseline, b.first)
    requires Prepare(input.code, input.patch, Some(b.baseline), valid).Ok?
    requires b.last == Scoped(Prepare(input.code, input.patch, Some(b.baseline), valid).value, true)
    ensures b.last == b.first[Active := input.patch[Active]][ApplyToAllAgendaItems := Flag(true)] <==> !Unasked(b.baseline, input.patch)
  {
    hide *;
    if Unasked(b.baseline, input.patch) {
      UnaskedDiffers(b, input, valid);
    } else {
      NothingElseAgrees(b, input, valid);
    }
  }

  /** What a finalisation looks like to the gate. */
  lemma FinalIsAdmittedIff(g: G.State, d: G.Data, b: Birth, input: Input, event: string, w: Sent, valid: Row -> bool)
    requires ValidInput(input) && input.items.Some? && d == DataOf(input, event) && b.keys == Adds(input)
    requires Following(g, b, |b.keys| + 1) && w.write == Finalize(b.id, b.last) && w.row.Some? && IdOf(w.row.value) == Some(b.id)
    requires RouteOf(w, map[]) !in g.sentPaths
    ensures G.Admits(g, d, Asked(w, map[])) <==>
              Active in input.patch && b.last == b.first[Active := input.patch[Active]][ApplyToAllAgendaItems := Flag(true)]
  {
    hide KeyOf; hide ItemOf; hide Patchable; hide ValidItems;
    forall k | 0 <= k < |input.items.value|
      ensures KeyOf(input.items.value[k]) in g.verified
    {
      assert b.keys[k] == KeyOf(input.items.value[k]);
    }
    NonEmptyItems(input);
  }

  lemma NotLinkedYet(g: G.State, b: Birth, input: Input, i: nat)
    requires ValidInput(input) && input.items.Some? && b.keys == Adds(input) && 1 <= i <= |b.keys| && Following(g, b, i)
    ensures ItemOf(b.keys[i - 1]).id !in g.sentLinks
  {
    hide KeyOf; hide ItemOf; hide Patchable; hide ValidItems;
    ItemKeysAreDistinct(input.items.value);
    if ItemOf(b.keys[i - 1]).id in g.sentLinks {
      var j :| 0 <= j < i - 1 && ItemOf(b.keys[i - 1]).id == ItemOf(b.keys[j]).id;
      KeysSeparateItems(input.items.value, b.keys[j], b.keys[i - 1]);
    }
  }

  lemma LinkIsAdmitted(g: G.State, d: G.Data, b: Birth, input: Input, event: string, w: Sent, i: nat)
    requires ValidInput(input) && input.items.Some? && d == DataOf(input, event) && b.keys == Adds(input) && 1 <= i <= |b.keys|
    requires Following(g, b, i) && w.write == LinkNew(b.id, b.keys[i - 1])
    requires RouteOf(w, map[]) !in g.sentPaths
    ensures G.Admits(g, d, Asked(w, map[]))
  {
    hide ItemOf; hide ValidInput; hide KeysOf; hide G.Admits;
    NotLinkedYet(g, b, input, i);
    var k := ListedItem(input.items.value, b.keys[i - 1]);
    assert G.ListsItem(d.items, Some(ItemOf(b.keys[i - 1])));
    Admitted(g, d, Asked(w, map[]));
  }

  lemma CreateIsAdmitted(g: G.State, d: G.Data, b: Birth, input: Input, event: string, w: Sent, valid: Row -> bool)
    requires ValidInput(input) && d == DataOf(input, event) && w.write == Write.Create(b.first)
    requires Prepare(input.code, Inactive(input).patch, None, valid) == Ok(b.first)
    requires !g.dispatched && RouteOf(w, map[]) !in g.sentPaths
    ensures G.Admits(g, d, Asked(w, map[]))
  {
    hide ValidItems; hide Prepare;
    FirstFields(b, input, valid);
  }

  lemma FirstFacing(d: G.Data, before: Row, ws: seq<Sent>)
    requires ws != []
    ensures !Facing(d, before, ws[..1]).dispatched
  {
    assert ws[..1][..0] == [];
    HeardKeepsPaths(G.INITIAL, d, ws[0].noted);
  }

  /**
   * The writes of a creation: the gate admits the inactive POST and every link, and it admits the finalisation exactly
   * when the remote filled in nothing that was not asked for. Otherwise the complete, linked discount stays inactive.
   */
  lemma CreationIsAdmitted(b: Birth, input: Input, event: string, ws: seq<Sent>, valid: Row -> bool, i: nat)
    requires Growing(b, input, ws, valid) && i < |ws|
    ensures i <= |b.keys| ==> AdmittedAt(DataOf(input, event), map[], ws, i)
    ensures i == |b.keys| + 1 ==>
              (AdmittedAt(DataOf(input, event), map[], ws, i) <==> Active in input.patch && !Unasked(b.baseline, input.patch))
    ensures i <= |b.keys| + 1
  {
    hide Business; hide Lifecycle; hide Following; hide ValidItems; hide Includes; hide Prepare; hide Scoped; hide Told; hide Sort;
    hide Asked; hide Facing; hide DataOf; hide Unasked; hide RouteOf; hide Patchable; hide Inactive; hide Adds; hide IdOf;
    var d := DataOf(input, event);
    BirthAt(b, ws, i);
    NewUnbooked(d, b, input, ws, valid, i);
    var g := Facing(d, map[], ws[..i + 1]);
    if i == 0 {
      FirstFacing(d, map[], ws);
      CreateIsAdmitted(g, d, b, input, event, ws[0], valid);
    } else {
      FacingFollows(d, b, input, event, ws, valid, i);
      if i <= |b.keys| {
        LinkIsAdmitted(g, d, b, input, event, ws[i], i);
      } else {
        FinalIsAdmittedIff(g, d, b, input, event, ws[i], valid);
        if Active in input.patch {
          FinalBodyIsExpected(b, input, valid);
        }
      }
    }
  }

  /** A single creation without items. */
  lemma PostIsAdmitted(body: Row, input: Input, event: string, ws: seq<Sent>, valid: Row -> bool)
    requires ValidInput(input) && |ws| == 1 && ws[0].write == Write.Create(body) && Prepare(input.code, input.patch, None, valid) == Ok(body)
    ensures AdmittedAt(DataOf(input, event), map[], ws, 0)
  {
    hide ValidItems;
    FirstFacing(DataOf(input, event), map[], ws);
    FacingUnbooked(DataOf(input, event), map[], ws, 0);
    hide Facing;
    assert body[Type] == Text("DISCOUNT_CODE");
  }

  // ---- A creation that is refused at its end --------------------------------------------------------------

  /**
   * A run of that kind, with the adapter's own validation: an empty note in the remote's row, and the discount, created
   * and linked as asked, is never made active, because the gate refuses the adapter's own finalisation.
   */
  lemma NoteBlocksFinalisation(event: string) returns (b: Birth, ws: seq<Sent>)
    ensures Growing(b, Wanted(), ws, ValidBody) && |ws| == 3 && ws[2].write.Finalize? && Field.Note !in Wanted().patch
    ensures b.baseline == Saved() && b.first == Completed(Patch(false))
    ensures AdmittedAt(DataOf(Wanted(), event), map[], ws, 0) && AdmittedAt(DataOf(Wanted(), event), map[], ws, 1)
    ensures !AdmittedAt(DataOf(Wanted(), event), map[], ws, 2)
  {
    hide Patch; hide Completed; hide Prepare; hide ValidBody; hide Saved; hide Includes; hide AdmittedAt; hide Unasked; hide KeyOf; hide ValidInput;
    hide Business; hide IdOf; hide Scoped; hide CapacityBaselineOk; hide Covered; hide Plain;
    var key := KeyOf(ONE_ITEM[0]);
    var row := Saved();
    b := Birth(ROW_ID, [key], row, Completed(Patch(false)), Scoped(Completed(Patch(true))[Field.Note := Text("")], true), 0, 0);
    WantedIsInactive();
    NewIsPrepared(false);
    SavedIsPrepared();
    SavedIncludes();
    SavedFacts();
    PatchFields(false);
    CompletedField(Patch(false), Active);
    assert ONE_ITEM[1..] == [];
    ws := [Sent(Write.Create(b.first), None, Some(map[]), false, [], Some(b.event), None, true),
           Sent(LinkNew(ROW_ID, key), Some(Links(ROW_ID, [])), Some(row), false,
                [OTHER, Evidence(Readback, true, Some(ROW_ID), Some(row), [])], Some(0), Some(0), true),
           Sent(Finalize(ROW_ID, b.last), Some(Links(ROW_ID, [key])), Some(row), false,
                [OTHER, Evidence(LinkReadback, true, Some(ROW_ID), None, [key])], Some(0), Some(0), true)];
    OneSorted(key);
    NoteLifecycle(b, ws, key);
    NoteIsUnasked();
    CreationIsAdmitted(b, Wanted(), event, ws, ValidBody, 0);
    CreationIsAdmitted(b, Wanted(), event, ws, ValidBody, 1);
    CreationIsAdmitted(b, Wanted(), event, ws, ValidBody, 2);
  }

  lemma NoteIsUnasked()
    ensures Unasked(Saved(), Patch(true)) && Field.Note !in Patch(true)
  {
    hide Patch; hide Saved; hide Covered; hide CapacityBaselineOk; hide IdOf;
    PatchFields(true);
    SavedFacts();
    assert Field.Note in Patch(true) ==> Plain(Patch(true), Field.Note);
    assert Field.Note in Saved() && Writable(Field.Note);
  }

  lemma OneSorted(key: Key)
    ensures Sort([]) == [] && Sort([key]) == [key]
  {
  }

  lemma NoteLifecycle(b: Birth, ws: seq<Sent>, key: Key)
    requires b.keys == [key] && |ws| == 3 && Sort([]) == [] && Sort([key]) == [key] && IdOf(b.baseline) == Some(b.id)
    requires Active in b.first && b.first[Active] == Flag(false)
    requires ws[0] == Sent(Write.Create(b.first), None, Some(map[]), false, [], Some(b.event), None, true)
    requires ws[1] == Sent(LinkNew(b.id, key), Some(Links(b.id, [])), Some(b.baseline), false,
                           [OTHER, Evidence(Readback, true, Some(b.id), Some(b.baseline), [])], Some(b.event), Some(b.items), true)
    requires ws[2] == Sent(Finalize(b.id, b.last), Some(Links(b.id, [key])), Some(b.baseline), false,
                           [OTHER, Evidence(LinkReadback, true, Some(b.id), None, [key])], Some(b.event), Some(b.items), true)
    ensures Lifecycle(b, ws)
  {
    hide Business; hide Sort; hide IdOf;
    assert b.keys[..0] == [] && b.keys[..1] == [key];
    assert StepOfBirth(b, ws[0], 0) && StepOfBirth(b, ws[1], 1) && StepOfBirth(b, ws[2], 2);
  }

  // ---- The run of the gate that the adapter drives ----------------------------------------------------------

  /** A write's callback, from its beginning to its acceptance, with nothing in between. */
  function Asking(c: nat, p: G.Prepared): seq<I.Event> {
    [I.Begin(p, true)] + ([I.Continue(c, true)] + I.Rest(c))
  }

  function Reporting(c: nat, es: seq<Evidence>): seq<I.Event> {
    if es == [] then []
    else Reporting(c, es[..|es| - 1]) + ([I.BeginEvidence(es[|es| - 1])] + [I.Continue(c + |es| - 1, true)])
  }

  /** How many callbacks a run of writes takes. */
  function Callbacks(ws: seq<Sent>): nat {
    if ws == [] then 0 else Callbacks(ws[..|ws| - 1]) + |ws[|ws| - 1].noted| + 1
  }

  /** The adapter awaits each callback before the next one. */
  function Driven(before: Row, ws: seq<Sent>): seq<I.Event> {
    if ws == [] then []
    else
      var most, last := ws[..|ws| - 1], ws[|ws| - 1];
      Driven(before, most) + Reporting(Callbacks(most), last.noted) + Asking(Callbacks(most) + |last.noted|, Asked(last, before))
  }

  function Requests(before: Row, ws: seq<Sent>): seq<G.Prepared> {
    if ws == [] then [] else Requests(before, ws[..|ws| - 1]) + [Asked(ws[|ws| - 1], before)]
  }

  /** The writes the gate accepted, in order. */
  function Granted(log: seq<I.Fact>): seq<G.Prepared> {
    if log == [] then []
    else Granted(log[..|log| - 1]) + if log[|log| - 1].Allowed? then [log[|log| - 1].p] else []
  }

  lemma {:induction false} GrantedOver(log: seq<I.Fact>, more: seq<I.Fact>)
    ensures Granted(log + more) == Granted(log) + Granted(more)
  {
    if more == [] {
      assert log + more == log;
    } else {
      GrantedOver(log, more[..|more| - 1]);
      assert (log + more)[..|log + more| - 1] == log + more[..|more| - 1];
    }
  }

  /** Nothing is in flight, and the marker on disk is as the next control check wants it. */
  ghost predicate Quiet(g: I.Gate, job: I.Job, vars: G.State, n: nat) {
    g.calls == map[] && g.vars == vars && g.next == n && g.disk == I.Expected(g, job)
  }

  lemma GrantedOne(x: I.Fact)
    ensures Granted([x]) == if x.Allowed? then [x.p] else []
  {
    assert [x][..0] == [];
  }

  lemma Grants(n: nat, p: G.Prepared)
    ensures Granted([I.Tested(n, p)] + [I.Booked(n, p)] + [I.Marked(n, p), I.Allowed(n, p)]) == [p]
  {
    hide Granted;
    GrantedOver([I.Tested(n, p)], [I.Booked(n, p)]);
    GrantedOver([I.Tested(n, p)] + [I.Booked(n, p)], [I.Marked(n, p)]);
    GrantedOver([I.Tested(n, p)] + [I.Booked(n, p)] + [I.Marked(n, p)], [I.Allowed(n, p)]);
    GrantedOne(I.Tested(n, p));
    GrantedOne(I.Booked(n, p));
    GrantedOne(I.Marked(n, p));
    GrantedOne(I.Allowed(n, p));
    assert [I.Tested(n, p)] + [I.Booked(n, p)] + [I.Marked(n, p)] + [I.Allowed(n, p)]
        == [I.Tested(n, p)] + [I.Booked(n, p)] + [I.Marked(n, p), I.Allowed(n, p)];
  }

  lemma BeginsQuietly(g: I.Gate, job: I.Job, p: G.Prepared) returns (h: I.Gate)
    requires g.calls == map[] && G.Admits(g.vars, job.data, p) && g.disk == I.Expected(g, job)
    ensures h == I.Step(I.Step(g, job, I.Begin(p, true)), job, I.Continue(g.next, true))
    ensures h.vars == G.Book(g.vars, job.data, p) && h.next == g.next + 1 && h.calls.Keys == {g.next}
    ensures h.calls[g.next].Writing? && h.calls[g.next].p == p && h.calls[g.next].at.SavingReceipt?
    ensures h.log == g.log + [I.Tested(g.next, p)] + [I.Booked(g.next, p)]
  {
    hide G.Admits; hide G.LinksNew; hide G.Finalizes;
    var one := I.Step(g, job, I.Begin(p, true));
    assert one.calls.Keys == {g.next} && one.disk == I.Expected(one, job);
    h := I.Step(one, job, I.Continue(g.next, true));
  }

  lemma AskingPasses(g: I.Gate, job: I.Job, vars: G.State, n: nat, p: G.Prepared)
    requires Quiet(g, job, vars, n) && G.Admits(vars, job.data, p)
    ensures var h := I.From(g, job, Asking(n, p));
            && Quiet(h, job, Accept(vars, job.data, p), n + 1) && Granted(h.log) == Granted(g.log) + [p]
  {
    hide I.From; hide G.Admits; hide I.Rest; hide I.Step; hide G.Book; hide Granted;
    var b, e := I.Begin(p, true), I.Continue(n, true);
    I.FromFrom(g, job, [b], [e] + I.Rest(n));
    I.One(g, job, b);
    I.FromFrom(I.Step(g, job, b), job, [e], I.Rest(n));
    I.One(I.Step(g, job, b), job, e);
    var two := BeginsQuietly(g, job, p);
    I.Passes(two, job, n, p);
    var h := I.From(g, job, Asking(n, p));
    assert h.log == g.log + ([I.Tested(n, p)] + [I.Booked(n, p)] + [I.Marked(n, p), I.Allowed(n, p)]);
    Grants(n, p);
    GrantedOver(g.log, [I.Tested(n, p)] + [I.Booked(n, p)] + [I.Marked(n, p), I.Allowed(n, p)]);
  }

  lemma NotesQuietly(g: I.Gate, job: I.Job, vars: G.State, n: nat, e: Evidence)
    requires Quiet(g, job, vars, n) && vars.dispatched
    ensures var h := I.Step(I.Step(g, job, I.BeginEvidence(e)), job, I.Continue(n, true));
            Quiet(h, job, G.Learn(vars, job.data, e), n + 1) && h.log == g.log + [I.Learned(e)]
  {
    LearnKeepsPaths(vars, job.data, e);
    hide G.Learn;
  }

  lemma {:induction false} ReportingPasses(g: I.Gate, job: I.Job, vars: G.State, n: nat, es: seq<Evidence>)
    requires Quiet(g, job, vars, n) && vars.dispatched
    ensures var h := I.From(g, job, Reporting(n, es));
            && Quiet(h, job, Heard(vars, job.data, es), n + |es|) && Granted(h.log) == Granted(g.log)
  {
    hide I.Step; hide G.Learn; hide Quiet; hide Granted; hide I.From;
    if es == [] {
      NothingHappens(g, job);
    } else {
      var most, e := es[..|es| - 1], es[|es| - 1];
      ReportingPasses(g, job, vars, n, most);
      HeardKeepsPaths(vars, job.data, most);
      var m := I.From(g, job, Reporting(n, most));
      var c := n + |es| - 1;
      I.FromFrom(g, job, Reporting(n, most), [I.BeginEvidence(e)] + [I.Continue(c, true)]);
      I.FromFrom(m, job, [I.BeginEvidence(e)], [I.Continue(c, true)]);
      I.One(m, job, I.BeginEvidence(e));
      I.One(I.Step(m, job, I.BeginEvidence(e)), job, I.Continue(c, true));
      NotesQuietly(m, job, Heard(vars, job.data, most), c, e);
      GrantedOver(m.log, [I.Learned(e)]);
      GrantedOne(I.Learned(e));
    }
  }

  lemma NothingHappens(g: I.Gate, job: I.Job)
    ensures I.From(g, job, []) == g
  {
  }

  /** Nobody else begins a write while a callback is in flight. */
  ghost predicate Serial(job: I.Job, es: seq<I.Event>) {
    forall n | 0 <= n < |es| && es[n].Begin? :: I.Run(job, es[..n]).calls == map[]
  }

  lemma SerialExtends(job: I.Job, es: seq<I.Event>, more: seq<I.Event>)
    requires Serial(job, es) && (more != [] && more[0].Begin? ==> I.Run(job, es).calls == map[])
    requires forall n | 0 < n < |more| :: !more[n].Begin?
    ensures Serial(job, es + more)
  {
    hide I.Run;
    var all := es + more;
    forall n | 0 <= n < |all| && all[n].Begin?
      ensures I.Run(job, all[..n]).calls == map[]
    {
      if n < |es| {
        assert all[..n] == es[..n] && all[n] == es[n];
      } else {
        assert all[n] == more[n - |es|];
        assert n == |es| && all[..n] == es;
      }
    }
  }

  lemma {:induction false} ReportingBeginsNothing(c: nat, es: seq<Evidence>)
    ensures forall n | 0 <= n < |Reporting(c, es)| :: !Reporting(c, es)[n].Begin?
  {
    if es != [] {
      ReportingBeginsNothing(c, es[..|es| - 1]);
    }
  }

  lemma AskingBeginsOnce(c: nat, p: G.Prepared)
    ensures forall n | 0 < n < |Asking(c, p)| :: !Asking(c, p)[n].Begin?
  {
  }

  lemma PrefixAdmitted(d: G.Data, before: Row, ws: seq<Sent>, most: seq<Sent>)
    requires ws != [] && most == ws[..|ws| - 1] && forall i | 0 <= i < |ws| :: AdmittedAt(d, before, ws, i)
    ensures forall i | 0 <= i < |most| :: AdmittedAt(d, before, most, i)
    ensures G.Admits(Facing(d, before, ws), d, Asked(ws[|ws| - 1], before))
  {
    hide Facing; hide Asked; hide G.Admits;
    forall i | 0 <= i < |most|
      ensures AdmittedAt(d, before, most, i)
    {
      assert AdmittedAt(d, before, ws, i);
      assert most[..i + 1] == ws[..i + 1];
    }
    assert AdmittedAt(d, before, ws, |ws| - 1);
    assert ws[..|ws|] == ws;
  }

  lemma AfterWritesDispatched(d: G.Data, before: Row, ws: seq<Sent>)
    requires ws != []
    ensures GateAfter(d, before, ws).dispatched
  {
  }

  /** If the gate admits each write, the adapter drives it through all of them, and through nothing else. */
  lemma {:induction false} DrivenIsGranted(job: I.Job, before: Row, ws: seq<Sent>)
    requires (forall i | 0 <= i < |ws| :: AdmittedAt(job.data, before, ws, i)) && (ws != [] ==> ws[0].noted == [])
    ensures var g := I.Run(job, Driven(before, ws));
            && Quiet(g, job, GateAfter(job.data, before, ws), Callbacks(ws)) && Granted(g.log) == Requests(before, ws)
    ensures Serial(job, Driven(before, ws))
  {
    hide I.From; hide AdmittedAt; hide Asked; hide Asking; hide Reporting; hide Quiet; hide Serial; hide Heard; hide Accept; hide G.Admits; hide Granted;
    if ws == [] {
      NothingDriven(job);
    } else {
      var d, most, last := job.data, ws[..|ws| - 1], ws[|ws| - 1];
      PrefixAdmitted(d, before, ws, most);
      DrivenIsGranted(job, before, most);
      var es := Driven(before, most);
      var told, asking := Reporting(Callbacks(most), last.noted), Asking(Callbacks(most) + |last.noted|, Asked(last, before));
      I.FromFrom(I.START, job, es, told);
      I.FromFrom(I.START, job, es + told, asking);
      if most == [] {
        ReportsNothing(I.Run(job, es), job, GateAfter(d, before, most), Callbacks(most));
      } else {
        AfterWritesDispatched(d, before, most);
        ReportingPasses(I.Run(job, es), job, GateAfter(d, before, most), Callbacks(most), last.noted);
      }
      AskingPasses(I.Run(job, es + told), job, Facing(d, before, ws), Callbacks(most) + |last.noted|, Asked(last, before));
      ReportingBeginsNothing(Callbacks(most), last.noted);
      AskingBeginsOnce(Callbacks(most) + |last.noted|, Asked(last, before));
      SerialExtends(job, es, told);
      QuietIsIdle(I.Run(job, es + told), job, Facing(d, before, ws), Callbacks(most) + |last.noted|);
      SerialExtends(job, es + told, asking);
    }
  }

  lemma QuietIsIdle(g: I.Gate, job: I.Job, vars: G.State, n: nat)
    requires Quiet(g, job, vars, n)
    ensures g.calls == map[]
  {
  }

  lemma ReportsNothing(g: I.Gate, job: I.Job, vars: G.State, n: nat)
    requires Quiet(g, job, vars, n)
    ensures var h := I.From(g, job, Reporting(n, [])); Quiet(h, job, Heard(vars, job.data, []), n) && h == g
  {
  }

  lemma NothingDriven(job: I.Job)
    ensures Quiet(I.Run(job, []), job, G.INITIAL, 0) && Granted(I.Run(job, []).log) == [] && Serial(job, [])
  {
  }

  /** The adapter's run is one of a serial caller, so nothing is accepted twice. */
  lemma DrivenNeverReplays(job: I.Job, before: Row, ws: seq<Sent>, k: (G.Verb, G.Path))
    requires (forall i | 0 <= i < |ws| :: AdmittedAt(job.data, before, ws, i)) && (ws != [] ==> ws[0].noted == [])
    ensures !I.Replayed(I.Run(job, Driven(before, ws)), k)
  {
    hide I.Run; hide I.Replayed; hide AdmittedAt; hide Driven;
    DrivenIsGranted(job, before, ws);
    I.SerialCallerNeverReplays(job, Driven(before, ws), k);
  }

  // ---- The whole command ----------------------------------------------------------------------------------

  /** The row an update started from. */
  function BeforeOf(trail: Trail): Row {
    if trail.Updating? || trail.Overtaken? then trail.plan.before else map[]
  }

  /** What decides on write `i`, and nothing else does. */
  ghost predicate Welcome(trail: Trail, input: Input, event: string, i: nat) {
    match trail
    case Updating(p) => G.OwnEvent(p.before, event)
    case Overtaken(p) => G.OwnEvent(p.before, event)
    case Creating(b) => i <= |b.keys| || (Active in input.patch && !Unasked(b.baseline, input.patch))
    case Posting(_) => true
  }

  /**
   * `configureDiscount` against any remote, behind the gate of the job: each write it sends, judged after the writes
   * and the evidence before it, is admitted exactly as `Welcome` says. If all are, the gate driven by the adapter's own
   * callbacks, one at a time, accepts exactly these writes in this order.
   */
  method Execute(c: Cvent, input: Input, event: EventData, eventId: string, valid: Row -> bool, polls: nat, ghost receipt: string)
    returns (r: Result<Row, Problem>, ghost trail: Trail, ghost ws: seq<Sent>)
    requires c.noted == []
    modifies c
    ensures c.sent == old(c.sent) + ws && Follows(trail, ws) && (ws != [] ==> ws[0].noted == [])
    ensures forall i | 0 <= i < |ws| :: AdmittedAt(DataOf(input, eventId), BeforeOf(trail), ws, i) <==> Welcome(trail, input, eventId, i)
    ensures (forall i | 0 <= i < |ws| :: Welcome(trail, input, eventId, i)) ==>
              var es := Driven(BeforeOf(trail), ws);
              var g := I.Run(I.Job(DataOf(input, eventId), receipt), es);
              Serial(I.Job(DataOf(input, eventId), receipt), es) && g.calls == map[] && Granted(g.log) == Requests(BeforeOf(trail), ws)
  {
    hide I.Run; hide Driven; hide Granted; hide Requests; hide Serial; hide DataOf; hide BeforeOf; hide Welcome;
    hide AdmittedAt; hide ValidInput; hide Follows; hide Planned; hide Begun; hide Complete; hide Updated; hide KeepsSome; hide Overtakes; hide Prepare; hide Appears;
    ghost var outer, inner;
    r, trail, ws, outer, inner := ConfigureDiscount(c, input, event, valid, polls);
    forall i | 0 <= i < |ws|
      ensures AdmittedAt(DataOf(input, eventId), BeforeOf(trail), ws, i) <==> Welcome(trail, input, eventId, i)
    {
      WelcomeOf(trail, input, eventId, i);
      match trail
      case Updating(p) => UpdatingIsJudged(p, input, outer.value.value, eventId, ws, valid, i);
      case Overtaken(p) =>
        FoundByInner(input, inner, valid);
        OvertakenIsJudged(p, input, inner.value.value, eventId, ws, valid, i);
      case Creating(b) => CreatingIsJudged(b, input, eventId, ws, valid, i);
      case Posting(body) => PostingIsJudged(body, input, eventId, ws, valid, i);
    }
    if forall i | 0 <= i < |ws| :: Welcome(trail, input, eventId, i) {
      var job := I.Job(DataOf(input, eventId), receipt);
      DrivenIsGranted(job, BeforeOf(trail), ws);
      QuietIsIdle(I.Run(job, Driven(BeforeOf(trail), ws)), job, GateAfter(job.data, BeforeOf(trail), ws), Callbacks(ws));
    }
  }

  lemma WelcomeOf(trail: Trail, input: Input, event: string, i: nat)
    ensures trail.Updating? || trail.Overtaken? ==>
              (Welcome(trail, input, event, i) <==> G.OwnEvent(trail.plan.before, event)) && BeforeOf(trail) == trail.plan.before
    ensures trail.Posting? ==> Welcome(trail, input, event, i)
    ensures trail.Posting? || trail.Creating? ==> BeforeOf(trail) == map[]
  {
    hide G.OwnEvent; hide Unasked;
  }

  lemma FoundByInner(input: Input, inner: Option<Option<Row>>, valid: Row -> bool)
    requires Overtakes(input, inner, valid)
    ensures inner.Some? && inner.value.Some?
  {
  }

  lemma UpdatingIsJudged(p: Plan, input: Input, row: Row, event: string, ws: seq<Sent>, valid: Row -> bool, i: nat)
    requires ValidInput(input) && Planned(p, input, row, valid) && Follows(Updating(p), ws) && KeepsSome(p) && i < |ws|
    requires input.removes.Some? ==> Active in p.before && p.before[Active].Flag?
    ensures AdmittedAt(DataOf(input, event), p.before, ws, i) <==> G.OwnEvent(p.before, event)
  {
    hide AdmittedAt; hide ValidInput; hide Legal; hide Prepare; hide KeepsSome; hide Ordered;
    UpdateIsAdmitted(p, input, input, event, valid, ws, i);
  }

  lemma OvertakenIsJudged(p: Plan, input: Input, row: Row, event: string, ws: seq<Sent>, valid: Row -> bool, i: nat)
    requires ValidInput(input) && input.removes.None? && Planned(p, Inactive(input), row, valid) && Follows(Overtaken(p), ws) && i < |ws|
    ensures AdmittedAt(DataOf(input, event), p.before, ws, i) <==> G.OwnEvent(p.before, event)
  {
    hide AdmittedAt; hide Legal; hide Prepare; hide Ordered; hide ValidItems;
    UpdateIsAdmitted(p, Inactive(input), input, event, valid, ws, i);
  }

  lemma CreatingIsJudged(b: Birth, input: Input, event: string, ws: seq<Sent>, valid: Row -> bool, i: nat)
    requires ValidInput(input) && input.items.Some? && Begun(b, input, ws, valid) && Follows(Creating(b), ws) && i < |ws| && ws[0].noted == []
    ensures AdmittedAt(DataOf(input, event), map[], ws, i) <==> Welcome(Creating(b), input, event, i)
  {
    hide AdmittedAt; hide ValidInput; hide Begun; hide Lifecycle; hide Unasked;
    CreationIsAdmitted(b, input, event, ws, valid, i);
  }

  lemma PostingIsJudged(body: Row, input: Input, event: string, ws: seq<Sent>, valid: Row -> bool, i: nat)
    requires ValidInput(input) && Prepare(input.code, input.patch, None, valid) == Ok(body) && Follows(Posting(body), ws) && i < |ws|
    ensures AdmittedAt(DataOf(input, event), map[], ws, i)
  {
    hide AdmittedAt; hide ValidInput; hide Prepare;
    PostIsAdmitted(body, input, event, ws, valid);
  }
}
