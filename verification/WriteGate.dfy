/**
 * The job boundary of the API adapter: it decides by itself which prepared writes are legal and keeps a
 * durable uncertainty marker. Nothing is assumed of what the adapter asks, of the disk, or of other processes.
 * The class below runs each callback to its end before the next one begins, as a caller that awaits every
 * callback sees it; GateInterleaving drops that hypothesis and has any number of callbacks in flight.
 */
module WriteGate {
  import opened Wrappers
  import opened LinkKeys
  import opened DiscountBody
  import opened WriteEvidence

  datatype Verb = Post | Put | Delete | OtherVerb

  datatype Phase = NoPhase | LinkNewItem | FinalizeNew | UpdateExisting | AddItem | RemoveItem | OtherPhase

  /** Paths below the discounts of the job's own event. */
  datatype Path = Discounts | Discount(id: string) | ItemLink(id: string, item: string) | Elsewhere(text: string)

  datatype Prepared = Prepared(phase: Phase, verb: Verb, path: Path, baseline: Option<Row>, body: Option<Row>, discountId: Option<string>,
                               item: Option<Item>, existing: Option<seq<Key>>, expected: Option<seq<Key>>, expectedStatus: Option<int>)

  /** The command's input. */
  datatype Data = Data(event: string, volume: bool, identity: string, discountId: Option<string>, createIfMissing: bool,
                       items: Option<seq<Item>>, removes: Option<seq<Item>>, active: Option<Value>)

  function IdentityField(d: Data): Field {
    if d.volume then Name else Code
  }

  function TypeValue(d: Data): Value {
    Text(if d.volume then "VOLUME_DISCOUNT" else "DISCOUNT_CODE")
  }

  predicate Has(row: Row, f: Field, v: Value) {
    f in row && row[f] == v
  }

  predicate OwnEvent(row: Row, event: string) {
    Event in row && row[Event].Object? && "id" in row[Event].fields && row[Event].fields["id"].Text? && row[Event].fields["id"].text != ""
    ==> row[Event].fields["id"].text == event
  }

  predicate ListsItem(items: Option<seq<Item>>, item: Option<Item>) {
    items.Some? && item.Some? && item.value in items.value
  }

  /** The closure variables of the command. */
  datatype State = State(dispatched: bool, created: Option<string>, finalized: bool, sentLinks: set<string>, verified: set<Key>,
                         sentPaths: set<(Verb, Path)>, first: Option<Prepared>)

  const INITIAL := State(false, None, false, {}, {}, {}, None)

  predicate Creates(s: State, d: Data, p: Prepared) {
    !s.dispatched && p.verb.Post? && p.path.Discounts? && p.baseline.None? && p.body.Some? && Has(p.body.value, Type, TypeValue(d))
  }

  predicate LinksNew(s: State, d: Data, p: Prepared) {
    && s.created.Some? && !s.finalized && p.phase.LinkNewItem? && p.verb.Put? && p.discountId == s.created && p.baseline.None?
    && ListsItem(d.items, p.item) && p.item.value.id !in s.sentLinks
    && p.path == ItemLink(s.created.value, p.item.value.id)
  }

  /** The finalising body is the creating body made active as requested, and item-scoped. */
  function FinalBody(s: State, d: Data): Row
    requires d.active.Some?
  {
    var base := if s.first.Some? && s.first.value.body.Some? then s.first.value.body.value else map[];
    var active := base[Active := d.active.value];
    if d.volume then active else active[ApplyToAllAgendaItems := Flag(true)]
  }

  predicate Finalizes(s: State, d: Data, p: Prepared) {
    && s.created.Some? && !s.finalized && p.phase.FinalizeNew? && p.verb.Put? && p.discountId == s.created
    && p.baseline.Some? && Has(p.baseline.value, Id, Text(s.created.value)) && p.path == Discount(s.created.value)
    && d.items.Some? && d.items.value != [] && (forall k | 0 <= k < |d.items.value| :: KeyOf(d.items.value[k]) in s.verified)
    && d.active.Some? && p.body == Some(FinalBody(s, d))
  }

  predicate ExistingBaseline(d: Data, p: Prepared) {
    && p.baseline.Some? && p.discountId.Some?
    && Has(p.baseline.value, Level, Text("EVENT")) && Has(p.baseline.value, Type, TypeValue(d))
    && Has(p.baseline.value, IdentityField(d), Text(d.identity)) && Has(p.baseline.value, Id, Text(p.discountId.value))
    && OwnEvent(p.baseline.value, d.event)
  }

  predicate ChangesExisting(d: Data, p: Prepared) {
    && ExistingBaseline(d, p) && p.verb.Put? && (d.discountId.None? || d.discountId == p.discountId)
    && ((p.phase.UpdateExisting? && p.path == Discount(p.discountId.value))
        || (p.phase.AddItem? && ListsItem(d.items, p.item) && p.path == ItemLink(p.discountId.value, p.item.value.id)))
  }

  function Dropped(keys: seq<Key>, key: Key): seq<Key> {
    if keys == [] then [] else (if keys[0] == key then [] else [keys[0]]) + Dropped(keys[1..], key)
  }

  predicate Unlinks(d: Data, p: Prepared) {
    && ExistingBaseline(d, p) && p.phase.RemoveItem? && p.verb.Delete? && p.expectedStatus == Some(204)
    && d.discountId == p.discountId && !d.createIfMissing
    && d.items.Some? && d.items.value != [] && ListsItem(d.removes, p.item)
    && (forall k | 0 <= k < |d.items.value| :: d.items.value[k].id != p.item.value.id)
    && p.existing.Some? && KeyOf(p.item.value) in p.existing.value
    && p.expected == Some(Dropped(p.existing.value, KeyOf(p.item.value)))
    && Active in p.baseline.value && p.baseline.value[Active].Flag? && (p.baseline.value[Active].on ==> p.expected.value != [])
    && p.path == ItemLink(p.discountId.value, p.item.value.id) && p.body.None?
  }

  predicate Admits(s: State, d: Data, p: Prepared) {
    (Creates(s, d, p) || LinksNew(s, d, p) || Finalizes(s, d, p) || ChangesExisting(d, p) || Unlinks(d, p))
    && (p.verb, p.path) !in s.sentPaths
  }

  /** The bookkeeping of an admitted write, before anything is saved; what kind of write it is was found when it was tested. */
  function BookAs(s: State, p: Prepared, link: bool, finalize: bool): State {
    s.(sentPaths := s.sentPaths + {(p.verb, p.path)},
       first := if s.first.None? then Some(p) else s.first,
       sentLinks := if link && p.item.Some? then s.sentLinks + {p.item.value.id} else s.sentLinks,
       finalized := s.finalized || finalize)
  }

  function Book(s: State, d: Data, p: Prepared): State {
    BookAs(s, p, LinksNew(s, d, p), Finalizes(s, d, p))
  }

  predicate Confirms(s: State, d: Data, e: Evidence) {
    && s.created.None? && s.first.Some? && s.first.value.verb.Post? && e.kind.Readback? && e.matched
    && e.discountId.Some? && e.saved.Some? && Has(e.saved.value, Id, Text(e.discountId.value))
    && s.first.value.body.Some? && Type in s.first.value.body.value && Has(e.saved.value, Type, s.first.value.body.value[Type])
    && IdentityField(d) in s.first.value.body.value && Has(e.saved.value, IdentityField(d), s.first.value.body.value[IdentityField(d)])
  }

  function Learn(s: State, d: Data, e: Evidence): State {
    var t := if Confirms(s, d, e) then s.(created := e.discountId) else s;
    if e.kind.LinkReadback? && e.matched && e.discountId == t.created then t.(verified := t.verified + set k | k in e.links) else t
  }

  // ---- What a run of the gate may look like ----------------------------------------------------------

  datatype Entry = Checked | MarkerSaved | Accepted(p: Prepared) | Noted(e: Evidence) | ResultVerified | MarkerRemoved

  ghost predicate ReadsBack(x: Entry, id: Option<string>) {
    x.Noted? && x.e.kind.Readback? && x.e.matched && id.Some? && x.e.discountId == id
    && x.e.saved.Some? && Has(x.e.saved.value, Id, Text(id.value))
  }

  /** Evidence of a link: for the discount itself, or carrying no identity before it was known. */
  ghost predicate ShowsLink(x: Entry, id: Option<string>, key: Key) {
    x.Noted? && x.e.kind.LinkReadback? && x.e.matched && key in x.e.links && (x.e.discountId == id || x.e.discountId.None?)
  }

  ghost predicate Earlier(trace: seq<Entry>, i: nat, x: Entry)
  {
    exists j :: 0 <= j < i && j < |trace| && trace[j] == x
  }

  ghost predicate Once(trace: seq<Entry>, i: nat, p: Prepared) {
    forall j | 0 <= j < i && j < |trace| && trace[j].Accepted? :: !(trace[j].p.verb == p.verb && trace[j].p.path == p.path)
  }

  ghost predicate NotFinal(trace: seq<Entry>, i: nat) {
    forall j | 0 <= j < i && j < |trace| && trace[j].Accepted? :: !(trace[j].p.phase.FinalizeNew? && trace[j].p.verb.Put?)
  }

  ghost predicate NothingAccepted(trace: seq<Entry>, i: nat) {
    forall j | 0 <= j < i && j < |trace| :: !trace[j].Accepted?
  }

  ghost predicate Known(trace: seq<Entry>, i: nat, id: Option<string>) {
    exists j :: 0 <= j < i && j < |trace| && ReadsBack(trace[j], id)
  }

  ghost predicate Shown(trace: seq<Entry>, i: nat, id: Option<string>, key: Key) {
    exists j :: 0 <= j < i && j < |trace| && ShowsLink(trace[j], id, key)
  }

  // ---- What a write must be, written out --------------------------------------------------------------

  /** `part` is `whole` with some places left out. */
  predicate Sublist(part: seq<Key>, whole: seq<Key>) {
    part == [] || (whole != [] && (if part[0] == whole[0] then Sublist(part[1..], whole[1..]) else Sublist(part, whole[1..])))
  }

  /** Every other key is left, as often as before and in the same order. */
  ghost predicate LeavesOut(part: seq<Key>, whole: seq<Key>, key: Key) {
    multiset(part) == multiset(whole)[key := 0] && Sublist(part, whole)
  }

  /** A discount code or volume discount of this event and identity, under the identity the command gives, if any. */
  ghost predicate OfThisEvent(d: Data, row: Row, id: string) {
    && Level in row && row[Level] == Text("EVENT")
    && Type in row && row[Type] == Text(if d.volume then "VOLUME_DISCOUNT" else "DISCOUNT_CODE")
    && (if d.volume then Name in row && row[Name] == Text(d.identity) else Code in row && row[Code] == Text(d.identity))
    && Id in row && row[Id] == Text(id) && (d.discountId.Some? ==> d.discountId.value == id)
    && (Event in row && row[Event].Object? && "id" in row[Event].fields && row[Event].fields["id"].Text?
        ==> row[Event].fields["id"] == Text("") || row[Event].fields["id"] == Text(d.event))
  }

  ghost predicate OneOf(items: Option<seq<Item>>, item: Option<Item>) {
    items.Some? && item.Some? && exists k :: 0 <= k < |items.value| && items.value[k] == item.value
  }

  /** A removal, and only of a listed item that is not wanted. */
  ghost predicate ProperRemoval(d: Data, p: Prepared) {
    && OneOf(d.removes, p.item) && d.items.Some? && d.items.value != [] && (forall k | 0 <= k < |d.items.value| :: d.items.value[k].id != p.item.value.id)
    && d.discountId.Some? && d.discountId == p.discountId && !d.createIfMissing
    && p.baseline.Some? && OfThisEvent(d, p.baseline.value, p.discountId.value)
    && p.path == ItemLink(p.discountId.value, p.item.value.id) && p.body.None? && p.phase == RemoveItem && p.expectedStatus == Some(204)
    && p.existing.Some? && p.expected.Some? && KeyOf(p.item.value) in p.existing.value
    && LeavesOut(p.expected.value, p.existing.value, KeyOf(p.item.value))
    && Active in p.baseline.value && p.baseline.value[Active] in {Flag(true), Flag(false)}
    && (p.baseline.value[Active] == Flag(true) ==> p.expected.value != [])
  }

  /** The five kinds of write there are. */
  ghost predicate Proper(d: Data, p: Prepared) {
    match p.verb
    case Post =>
      && p.path == Discounts && p.baseline.None? && p.body.Some?
      && Type in p.body.value && p.body.value[Type] == Text(if d.volume then "VOLUME_DISCOUNT" else "DISCOUNT_CODE")
    case Put =>
      && p.discountId.Some?
      && (|| (p.phase == LinkNewItem && p.baseline.None? && OneOf(d.items, p.item) && p.path == ItemLink(p.discountId.value, p.item.value.id))
          || (p.phase == FinalizeNew && p.baseline.Some? && Id in p.baseline.value && p.baseline.value[Id] == Text(p.discountId.value)
              && d.items.Some? && d.items.value != [] && p.path == Discount(p.discountId.value))
          || (p.phase == UpdateExisting && p.baseline.Some? && OfThisEvent(d, p.baseline.value, p.discountId.value) && p.path == Discount(p.discountId.value))
          || (p.phase == AddItem && p.baseline.Some? && OfThisEvent(d, p.baseline.value, p.discountId.value) && OneOf(d.items, p.item)
              && p.path == ItemLink(p.discountId.value, p.item.value.id)))
    case Delete => ProperRemoval(d, p)
    case OtherVerb => false
  }

  lemma {:induction false} LaterSublist(part: seq<Key>, whole: seq<Key>)
    requires whole != [] && Sublist(part, whole[1..])
    ensures Sublist(part, whole)
  {
    if part != [] && part[0] == whole[0] {
      SublistTail(part, whole[1..]);
    }
  }

  lemma {:induction false} SublistTail(part: seq<Key>, whole: seq<Key>)
    requires part != [] && Sublist(part, whole)
    ensures Sublist(part[1..], whole)
  {
    if part[0] == whole[0] {
      LaterSublist(part[1..], whole);
    } else {
      SublistTail(part, whole[1..]);
      LaterSublist(part[1..], whole);
    }
  }

  lemma {:induction false} DroppedLeavesOut(keys: seq<Key>, key: Key)
    ensures LeavesOut(Dropped(keys, key), keys, key)
  {
    if keys != [] {
      var rest := Dropped(keys[1..], key);
      DroppedLeavesOut(keys[1..], key);
      assert keys == [keys[0]] + keys[1..];
      assert multiset(keys) == multiset{keys[0]} + multiset(keys[1..]);
      if keys[0] == key {
        assert Dropped(keys, key) == rest;
        LaterSublist(rest, keys);
      } else {
        assert Dropped(keys, key) == [keys[0]] + rest;
        assert ([keys[0]] + rest)[1..] == rest;
      }
    }
  }

  lemma BaselineIsOfThisEvent(d: Data, p: Prepared)
    requires ExistingBaseline(d, p) && (d.discountId.None? || d.discountId == p.discountId)
    ensures OfThisEvent(d, p.baseline.value, p.discountId.value)
  {
  }

  lemma ListedIsOneOf(items: Option<seq<Item>>, item: Option<Item>)
    ensures ListsItem(items, item) <==> OneOf(items, item)
  {
  }

  lemma UnlinksProperly(d: Data, p: Prepared)
    requires Unlinks(d, p)
    ensures ProperRemoval(d, p)
  {
    hide OfThisEvent; hide Dropped; hide LeavesOut; hide KeyOf;
    BaselineIsOfThisEvent(d, p);
    hide ExistingBaseline;
    ListedIsOneOf(d.removes, p.item);
    hide ListsItem; hide OneOf;
    DroppedLeavesOut(p.existing.value, KeyOf(p.item.value));
  }

  /** What the gate admits is one of these. */
  lemma AdmittedIsProper(s: State, d: Data, p: Prepared)
    requires Admits(s, d, p)
    ensures Proper(d, p)
  {
    hide Unlinks; hide ProperRemoval; hide OfThisEvent; hide ExistingBaseline; hide ListsItem; hide OneOf; hide KeyOf; hide FinalBody;
    ListedIsOneOf(d.items, p.item);
    if Unlinks(d, p) {
      UnlinksProperly(d, p);
      UnlinkDeletes(d, p);
    } else if ChangesExisting(d, p) {
      ExistingGiven(d, p);
      BaselineIsOfThisEvent(d, p);
    }
  }

  lemma UnlinkDeletes(d: Data, p: Prepared)
    requires Unlinks(d, p)
    ensures p.verb == Delete
  {
    hide ExistingBaseline; hide ListsItem; hide Dropped; hide KeyOf;
  }

  lemma ExistingGiven(d: Data, p: Prepared)
    requires ExistingBaseline(d, p)
    ensures p.baseline.Some? && p.discountId.Some?
  {
    hide Has; hide OwnEvent;
  }

  /** The finalising body has the requested activity and the item scope, and is the creating one otherwise. */
  lemma FinalisesTheFirst(s: State, d: Data, p: Prepared)
    requires Admits(s, d, p) && p.phase.FinalizeNew? && p.verb.Put? && s.first.Some? && s.first.value.body.Some?
    ensures p.body.Some? && d.active.Some? && s.created == p.discountId
    ensures forall f :: f in p.body.value <==> f in s.first.value.body.value || f == Active || (f == ApplyToAllAgendaItems && !d.volume)
    ensures forall f | f in p.body.value ::
              p.body.value[f] == if f == ApplyToAllAgendaItems && !d.volume then Flag(true) else if f == Active then d.active.value
                                 else s.first.value.body.value[f]
  {
    AdmittedShape(s, d, p);
    hide Admits; hide KeyOf; hide Has;
  }

  // ---- Exactly which writes are admitted ----------------------------------------------------------------

  lemma {:induction false} SublistWithin(part: seq<Key>, whole: seq<Key>)
    requires Sublist(part, whole)
    ensures multiset(part) <= multiset(whole)
  {
    if part != [] {
      assert part == [part[0]] + part[1..] && whole == [whole[0]] + whole[1..];
      if part[0] == whole[0] {
        SublistWithin(part[1..], whole[1..]);
      } else {
        SublistWithin(part, whole[1..]);
      }
    }
  }

  lemma OthersAgree(part: multiset<Key>, whole: multiset<Key>, x: Key, key: Key)
    requires multiset{x} + part == (multiset{x} + whole)[key := 0] && x != key
    ensures part == whole[key := 0]
  {
    forall k
      ensures part[k] == whole[key := 0][k]
    {
      assert (multiset{x} + part)[k] == (multiset{x} + whole)[key := 0][k];
    }
  }

  lemma FirstStays(part: seq<Key>, whole: seq<Key>, key: Key)
    requires LeavesOut(part, whole, key) && whole != [] && whole[0] != key
    ensures part != [] && part[0] == whole[0] && LeavesOut(part[1..], whole[1..], key)
  {
    assert whole == [whole[0]] + whole[1..];
    assert multiset(whole) == multiset{whole[0]} + multiset(whole[1..]);
    assert multiset(part)[whole[0]] == multiset(whole[1..])[whole[0]] + 1;
    if Sublist(part, whole[1..]) {
      SublistWithin(part, whole[1..]);
    }
    assert part == [part[0]] + part[1..];
    assert multiset(part) == multiset{part[0]} + multiset(part[1..]);
    OthersAgree(multiset(part[1..]), multiset(whole[1..]), part[0], key);
  }

  /** Leaving out a key determines what is left. */
  lemma {:induction false} LeavesOutOnce(part: seq<Key>, whole: seq<Key>, key: Key)
    requires LeavesOut(part, whole, key)
    ensures part == Dropped(whole, key)
  {
    if whole != [] {
      assert whole == [whole[0]] + whole[1..];
      if whole[0] == key {
        assert key !in multiset(part);
        LeavesOutOnce(part, whole[1..], key);
      } else {
        FirstStays(part, whole, key);
        LeavesOutOnce(part[1..], whole[1..], key);
      }
    }
  }

  /** The body of the finalising PUT: the creating one, active as requested, and item-scoped unless it is a volume discount. */
  ghost predicate Finishes(d: Data, first: Row, body: Row) {
    && d.active.Some? && Active in body && body[Active] == d.active.value
    && (!d.volume ==> ApplyToAllAgendaItems in body && body[ApplyToAllAgendaItems] == Flag(true))
    && forall f | f != Active && (f != ApplyToAllAgendaItems || d.volume) ::
         (f in body <==> f in first) && (f in body ==> body[f] == first[f])
  }

  /** When a proper write may be sent: what was written, learned and observed before it. */
  ghost predicate Timely(s: State, d: Data, p: Prepared) {
    && (p.verb, p.path) !in s.sentPaths
    && (p.verb == Post ==> !s.dispatched)
    && (p.verb == Put && p.phase == LinkNewItem ==>
          s.created.Some? && s.created == p.discountId && !s.finalized && p.item.Some? && p.item.value.id !in s.sentLinks)
    && (p.verb == Put && p.phase == FinalizeNew ==>
          && s.created.Some? && s.created == p.discountId && !s.finalized && p.body.Some?
          && Finishes(d, if s.first.Some? && s.first.value.body.Some? then s.first.value.body.value else map[], p.body.value)
          && d.items.Some? && forall k | 0 <= k < |d.items.value| :: KeyOf(d.items.value[k]) in s.verified)
  }

  /** The gate admits exactly the proper writes at the proper time. */
  lemma AdmitsExactly(s: State, d: Data, p: Prepared)
    ensures Admits(s, d, p) <==> Proper(d, p) && Timely(s, d, p)
  {
    hide Unlinks; hide ProperRemoval; hide OfThisEvent; hide ExistingBaseline; hide ListsItem; hide OneOf; hide KeyOf; hide FinalBody; hide Finishes;
    ListedIsOneOf(d.items, p.item);
    RemovesExactly(d, p);
    ExistingIsOfThisEvent(d, p);
    LinksExactly(s, d, p);
    FinalizesExactly(s, d, p);
    hide LinksNew; hide Finalizes;
  }

  lemma LinksExactly(s: State, d: Data, p: Prepared)
    ensures LinksNew(s, d, p) <==>
            && p.verb == Put && p.phase == LinkNewItem && p.discountId.Some? && p.baseline.None? && OneOf(d.items, p.item)
            && s.created.Some? && s.created == p.discountId && !s.finalized && p.item.Some? && p.item.value.id !in s.sentLinks
            && p.path == ItemLink(p.discountId.value, p.item.value.id)
  {
    ListedIsOneOf(d.items, p.item);
  }

  lemma FinalizesExactly(s: State, d: Data, p: Prepared)
    ensures Finalizes(s, d, p) <==>
            && p.verb == Put && p.phase == FinalizeNew && p.discountId.Some? && p.baseline.Some?
            && Id in p.baseline.value && p.baseline.value[Id] == Text(p.discountId.value)
            && d.items.Some? && d.items.value != [] && p.path == Discount(p.discountId.value)
            && s.created.Some? && s.created == p.discountId && !s.finalized && p.body.Some?
            && Finishes(d, if s.first.Some? && s.first.value.body.Some? then s.first.value.body.value else map[], p.body.value)
            && forall k | 0 <= k < |d.items.value| :: KeyOf(d.items.value[k]) in s.verified
  {
    hide KeyOf;
    if p.body.Some? && d.active.Some? {
      FinishesIs(s, d, p.body.value);
    }
    hide FinalBody;
  }

  lemma FinishesIs(s: State, d: Data, body: Row)
    requires d.active.Some?
    ensures body == FinalBody(s, d) <==>
            Finishes(d, if s.first.Some? && s.first.value.body.Some? then s.first.value.body.value else map[], body)
  {
    var first := if s.first.Some? && s.first.value.body.Some? then s.first.value.body.value else map[];
    if Finishes(d, first, body) {
      assert body.Keys == FinalBody(s, d).Keys;
      assert body == FinalBody(s, d);
    }
  }

  lemma ExistingIsOfThisEvent(d: Data, p: Prepared)
    ensures ExistingBaseline(d, p) && (d.discountId.None? || d.discountId == p.discountId) <==>
            p.baseline.Some? && p.discountId.Some? && OfThisEvent(d, p.baseline.value, p.discountId.value)
  {
  }

  /** The removals admitted are exactly the proper ones. */
  lemma RemovesExactly(d: Data, p: Prepared)
    ensures Unlinks(d, p) <==> p.verb == Delete && ProperRemoval(d, p)
  {
    if Unlinks(d, p) {
      UnlinksProperly(d, p);
      UnlinkDeletes(d, p);
    }
    if p.verb == Delete && ProperRemoval(d, p) {
      RemovalUnlinks(d, p);
    }
  }

  lemma RemovalUnlinks(d: Data, p: Prepared)
    requires p.verb == Delete && ProperRemoval(d, p)
    ensures Unlinks(d, p)
  {
    hide OfThisEvent; hide Dropped; hide LeavesOut; hide KeyOf; hide ExistingBaseline;
    ExistingIsOfThisEvent(d, p);
    ListedIsOneOf(d.removes, p.item);
    assert p.item.Some?;
    hide ListsItem; hide OneOf;
    LeavesOutOnce(p.expected.value, p.existing.value, KeyOf(p.item.value));
  }

  /** The identity is learned once, of a row that has the type, the name or code and the identity reported. */
  lemma LearnsOnlyItsOwn(s: State, d: Data, e: Evidence)
    ensures var t := Learn(s, d, e);
      t.created != s.created ==>
        && s.created.None? && e.kind == Readback && e.matched && t.created == e.discountId && e.discountId.Some? && e.saved.Some?
        && s.first.Some? && s.first.value.verb == Post && s.first.value.body.Some?
        && Id in e.saved.value && e.saved.value[Id] == Text(e.discountId.value)
        && Type in e.saved.value && Type in s.first.value.body.value && e.saved.value[Type] == s.first.value.body.value[Type]
        && (var f := if d.volume then Name else Code;
            f in e.saved.value && f in s.first.value.body.value && e.saved.value[f] == s.first.value.body.value[f])
    ensures forall k | k in Learn(s, d, e).verified && k !in s.verified ::
              e.kind == LinkReadback && e.matched && e.discountId == s.created && k in e.links
  {
  }

  /** What must precede an accepted write. */
  ghost predicate Legit(d: Data, trace: seq<Entry>, i: nat, p: Prepared) {
    && Once(trace, i, p) && Earlier(trace, i, MarkerSaved) && Earlier(trace, i, Checked) && Proper(d, p)
    && (p.verb.Post? ==> NothingAccepted(trace, i))
    && (p.phase.LinkNewItem? && p.verb.Put? ==>
          Known(trace, i, p.discountId) && NotFinal(trace, i))
    && (p.phase.FinalizeNew? && p.verb.Put? ==>
          && Known(trace, i, p.discountId) && NotFinal(trace, i)
          && d.items.Some? && forall k | 0 <= k < |d.items.value| :: Shown(trace, i, p.discountId, KeyOf(d.items.value[k])))
  }

  ghost predicate GoodAt(d: Data, trace: seq<Entry>, i: nat)
    requires i < |trace|
  {
    match trace[i]
    case Accepted(p) => Legit(d, trace, i, p)
    case MarkerRemoved => i > 0 && trace[i - 1] == Checked && Earlier(trace, i, ResultVerified)
    case _ => true
  }

  ghost predicate Good(d: Data, trace: seq<Entry>) {
    forall i | 0 <= i < |trace| :: GoodAt(d, trace, i)
  }

  /** How the closure variables stand for the trace. */
  ghost predicate Reflects(s: State, trace: seq<Entry>) {
    && (s.created.Some? ==> Known(trace, |trace|, s.created))
    && (forall k | k in s.verified :: Shown(trace, |trace|, s.created, k))
    && (forall j | 0 <= j < |trace| && trace[j].Accepted? ::
          && s.dispatched && (trace[j].p.verb, trace[j].p.path) in s.sentPaths
          && (trace[j].p.phase.FinalizeNew? && trace[j].p.verb.Put? ==> s.finalized))
  }

  lemma PrefixStable(d: Data, trace: seq<Entry>, x: Entry, i: nat)
    requires i < |trace| && GoodAt(d, trace, i)
    ensures GoodAt(d, trace + [x], i)
  {
    hide Proper; hide ReadsBack; hide ShowsLink; hide KeyOf;
    assert (trace + [x])[i] == trace[i];
    if trace[i].Accepted? {
      LegitStable(d, trace, x, i, trace[i].p);
    } else if trace[i].MarkerRemoved? {
      EarlierStable(trace, x, i, ResultVerified);
    }
  }

  lemma EarlierStable(trace: seq<Entry>, x: Entry, i: nat, y: Entry)
    requires Earlier(trace, i, y) && i <= |trace|
    ensures Earlier(trace + [x], i, y)
  {
    var j :| 0 <= j < i && j < |trace| && trace[j] == y;
    assert (trace + [x])[j] == y;
  }

  lemma KnownStable(trace: seq<Entry>, x: Entry, i: nat, more: nat, id: Option<string>)
    requires Known(trace, i, id) && i <= |trace| && i <= more
    ensures Known(trace + [x], more, id)
  {
    hide ReadsBack;
    var j :| 0 <= j < i && j < |trace| && ReadsBack(trace[j], id);
    assert (trace + [x])[j] == trace[j];
  }

  lemma ShownStable(trace: seq<Entry>, x: Entry, i: nat, more: nat, id: Option<string>, key: Key)
    requires Shown(trace, i, id, key) && i <= |trace| && i <= more
    ensures Shown(trace + [x], more, id, key)
  {
    hide ShowsLink;
    var j :| 0 <= j < i && j < |trace| && ShowsLink(trace[j], id, key);
    assert (trace + [x])[j] == trace[j];
  }

  lemma LegitStable(d: Data, trace: seq<Entry>, x: Entry, i: nat, p: Prepared)
    requires Legit(d, trace, i, p) && i <= |trace|
    ensures Legit(d, trace + [x], i, p)
  {
    hide Proper; hide KeyOf; hide Known; hide Shown; hide Earlier;
    EarlierStable(trace, x, i, MarkerSaved);
    EarlierStable(trace, x, i, Checked);
    assert forall j | 0 <= j < |trace| :: (trace + [x])[j] == trace[j];
    if p.verb.Put? && (p.phase.LinkNewItem? || p.phase.FinalizeNew?) {
      KnownStable(trace, x, i, i, p.discountId);
      if p.phase.FinalizeNew? {
        forall k | 0 <= k < |d.items.value|
          ensures Shown(trace + [x], i, p.discountId, KeyOf(d.items.value[k]))
        {
          ShownStable(trace, x, i, i, p.discountId, KeyOf(d.items.value[k]));
        }
      }
    }
  }

  lemma GoodAppend(d: Data, trace: seq<Entry>, x: Entry)
    requires Good(d, trace) && GoodAt(d, trace + [x], |trace|)
    ensures Good(d, trace + [x])
  {
    hide GoodAt;
    forall i | 0 <= i < |trace|
      ensures GoodAt(d, trace + [x], i)
    {
      PrefixStable(d, trace, x, i);
    }
  }

  lemma ReflectsAppend(s: State, trace: seq<Entry>, x: Entry)
    requires Reflects(s, trace)
    requires x.Accepted? ==> s.dispatched && (x.p.verb, x.p.path) in s.sentPaths && (x.p.phase.FinalizeNew? && x.p.verb.Put? ==> s.finalized)
    ensures Reflects(s, trace + [x])
  {
    hide Known; hide Shown;
    if s.created.Some? {
      KnownStable(trace, x, |trace|, |trace| + 1, s.created);
    }
    forall k | k in s.verified
      ensures Shown(trace + [x], |trace| + 1, s.created, k)
    {
      ShownStable(trace, x, |trace|, |trace| + 1, s.created, k);
    }
  }

  /** A write the gate admits is legitimate on any trace its state reflects. */
  lemma AdmittedIsLegit(s: State, d: Data, trace: seq<Entry>, p: Prepared, now: seq<Entry>)
    requires Reflects(s, trace) && Admits(s, d, p)
    requires trace <= now && (forall j | |trace| <= j < |now| :: !now[j].Accepted?)
    requires Earlier(now, |now|, MarkerSaved) && Earlier(now, |now|, Checked)
    ensures Legit(d, now, |now|, p)
  {
    hide Proper; hide Unlinks; hide ListsItem; hide KeyOf; hide ChangesExisting;
    hide ReadsBack; hide ShowsLink; hide FinalBody; hide Has; hide Earlier;
    AdmittedShape(s, d, p);
    AdmittedIsProper(s, d, p);
    assert forall j | 0 <= j < |trace| :: now[j] == trace[j];
    if LinksNew(s, d, p) || Finalizes(s, d, p) {
      var j :| 0 <= j < |trace| && ReadsBack(trace[j], s.created);
      assert ReadsBack(now[j], s.created);
    }
    if Finalizes(s, d, p) {
      forall k | 0 <= k < |d.items.value|
        ensures Shown(now, |now|, p.discountId, KeyOf(d.items.value[k]))
      {
        assert Shown(trace, |trace|, s.created, KeyOf(d.items.value[k]));
        var j :| 0 <= j < |trace| && ShowsLink(trace[j], s.created, KeyOf(d.items.value[k]));
        assert ShowsLink(now[j], p.discountId, KeyOf(d.items.value[k]));
      }
    }
  }

  lemma AdmittedShape(s: State, d: Data, p: Prepared)
    requires Admits(s, d, p)
    ensures p.verb.Post? ==> !s.dispatched
    ensures p.verb.Put? && p.phase.LinkNewItem? ==> LinksNew(s, d, p)
    ensures p.verb.Put? && p.phase.FinalizeNew? ==> Finalizes(s, d, p)
  {
    hide ExistingBaseline; hide ListsItem; hide KeyOf; hide FinalBody; hide Has; hide Dropped;
  }

  /** Evidence keeps the correspondence. A known identity never changes. */
  lemma LearnReflects(s: State, d: Data, trace: seq<Entry>, e: Evidence)
    requires Reflects(s, trace)
    ensures Reflects(Learn(s, d, e), trace + [Noted(e)])
    ensures s.created.Some? ==> Learn(s, d, e).created == s.created
  {
    hide Reflects;
    var t := Learn(s, d, e);
    var now := trace + [Noted(e)];
    ReflectsAppend(s, trace, Noted(e));
    assert now[|trace|] == Noted(e);
    if Confirms(s, d, e) {
      assert ReadsBack(now[|trace|], e.discountId);
      assert Known(now, |now|, e.discountId);
    }
    forall k | k in t.verified
      ensures Shown(now, |now|, t.created, k)
    {
      if k in s.verified {
        ShownBefore(s, now, k);
        ShownForCreated(now, s.created, t.created, k);
      } else {
        assert ShowsLink(now[|trace|], t.created, k);
      }
    }
    SamePaths(s, t, now);
  }

  lemma ShownBefore(s: State, trace: seq<Entry>, k: Key)
    requires Reflects(s, trace) && k in s.verified
    ensures Shown(trace, |trace|, s.created, k)
  {
  }

  lemma ShownForCreated(trace: seq<Entry>, before: Option<string>, after: Option<string>, k: Key)
    requires Shown(trace, |trace|, before, k) && (before.Some? ==> after == before)
    ensures Shown(trace, |trace|, after, k)
  {
    var j :| 0 <= j < |trace| && j < |trace| && ShowsLink(trace[j], before, k);
    assert ShowsLink(trace[j], after, k);
  }

  lemma SamePaths(s: State, t: State, trace: seq<Entry>)
    requires Reflects(s, trace) && t.sentPaths == s.sentPaths && t.finalized == s.finalized && t.dispatched == s.dispatched
    requires t.created.Some? ==> t.created == s.created || Known(trace, |trace|, t.created)
    requires forall k | k in t.verified :: Shown(trace, |trace|, t.created, k)
    ensures Reflects(t, trace)
  {
    hide Known; hide Shown;
  }

  // ---- The results -----------------------------------------------------------------------------------

  /** No method and path twice. */
  lemma NoReplay(d: Data, trace: seq<Entry>, i: nat, j: nat)
    requires Good(d, trace) && i < j < |trace| && trace[i].Accepted? && trace[j].Accepted?
    ensures !(trace[i].p.verb == trace[j].p.verb && trace[i].p.path == trace[j].p.path)
  {
    assert GoodAt(d, trace, j);
  }

  /** Nothing of the new discount is finalised twice, nor linked after finalising, nor finalised unverified. */
  lemma FinalisedOnceAndLast(d: Data, trace: seq<Entry>, i: nat, j: nat)
    requires Good(d, trace) && i < |trace| && j < |trace| && trace[i].Accepted? && trace[j].Accepted?
    requires trace[i].p.phase.FinalizeNew? && trace[i].p.verb.Put?
    requires (trace[j].p.phase.FinalizeNew? || trace[j].p.phase.LinkNewItem?) && trace[j].p.verb.Put?
    ensures j <= i
    ensures trace[j].p.phase.FinalizeNew? ==> i == j
    ensures Known(trace, i, trace[i].p.discountId) && d.items.Some?
    ensures forall k | 0 <= k < |d.items.value| :: Shown(trace, i, trace[i].p.discountId, KeyOf(d.items.value[k]))
  {
    hide Known; hide Shown; hide KeyOf; hide Once; hide Earlier; hide Unlinks; hide ListsItem;
    assert GoodAt(d, trace, i) && GoodAt(d, trace, j);
  }

  /** The PUT that switches an existing discount off. */
  function SwitchOff(existing: Row, id: string, body: Row): Prepared {
    Prepared(UpdateExisting, Put, Discount(id), Some(existing), Some(body[Active := Flag(false)]), Some(id), None, None, None, None)
  }

  /** A row the gate takes for the discount the command names. */
  predicate Resembles(d: Data, existing: Row, id: string) {
    && Has(existing, Id, Text(id)) && Has(existing, Level, Text("EVENT")) && Has(existing, Type, TypeValue(d))
    && Has(existing, IdentityField(d), Text(d.identity)) && OwnEvent(existing, d.event)
  }

  /**
   * The gate judges writes by identity alone: with no identity given, an update of a discount that someone else
   * created under the same code, switching it off, is admitted in every state in which that path is unsent, also
   * during a command that asked only to create.
   */
  lemma SwitchOffIsAdmittedIffUnsent(s: State, d: Data, existing: Row, id: string, body: Row)
    requires d.discountId.None? && Resembles(d, existing, id)
    ensures Admits(s, d, SwitchOff(existing, id, body)) <==> (Put, Discount(id)) !in s.sentPaths
  {
    hide Has; hide FinalBody; hide ListsItem; hide OwnEvent;
    assert ChangesExisting(d, SwitchOff(existing, id, body));
  }

  /** What a callback asks of the outside, and whether it was granted. */
  datatype Deed = Control(ok: bool) | SavedReceipt(ok: bool) | SavedMarker(ok: bool)

  const WRITING: seq<Deed> := [Control(true), SavedReceipt(true), SavedMarker(true)]

  /** At the end of the command, with and without a write. */
  const SETTLING: seq<Deed> := [Control(true), SavedReceipt(true), Control(true)]
  const READING: seq<Deed> := [Control(true), SavedReceipt(true)]

  /** All went as planned up to the last thing, which was refused. */
  ghost predicate BrokeOff(done: seq<Deed>, planned: seq<Deed>) {
    && 0 < |done| <= |planned| && !done[|done| - 1].ok && done[|done| - 1].(ok := true) == planned[|done| - 1]
    && done[..|done| - 1] == planned[..|done| - 1]
  }

  class JobGate {
    const d: Data
    const receipt: string
    var state: State
    var marker: Option<string>
    ghost var trace: seq<Entry>
    ghost var deeds: seq<Deed>
    ghost var ended: bool

    ghost predicate Valid()
      reads this
    {
      Good(d, trace) && Reflects(state, trace)
    }

    constructor (d: Data, receipt: string)
      ensures Valid() && trace == [] && state == INITIAL && this.d == d && this.receipt == receipt && !ended && deeds == []
    {
      this.d, this.receipt, state, marker, trace, deeds, ended := d, receipt, INITIAL, None, [], [], false;
    }

    ghost method Log(x: Entry)
      requires Valid() && GoodAt(d, trace + [x], |trace|)
      requires x.Accepted? ==> state.dispatched && (x.p.verb, x.p.path) in state.sentPaths
      requires x.Accepted? && x.p.phase.FinalizeNew? && x.p.verb.Put? ==> state.finalized
      modifies this`trace
      ensures Valid() && trace == old(trace) + [x]
    {
      GoodAppend(d, trace, x);
      ReflectsAppend(state, trace, x);
      trace := trace + [x];
    }

    /** Still the job's own turn, and the marker on disk is this run's, or absent before the first write. */
    method CheckControl() returns (ok: bool)
      requires Valid()
      modifies this`marker, this`trace, this`deeds
      ensures Valid() && trace == old(trace) + (if ok then [Checked] else []) && deeds == old(deeds) + [Control(ok)]
      ensures ok ==> marker == if state.dispatched then Some(receipt) else None
    {
      hide Good; hide Reflects;
      marker := *; // Another process may have touched it.
      ok := *;
      ok := ok && marker == (if state.dispatched then Some(receipt) else None);
      deeds := deeds + [Control(ok)];
      if ok {
        Log(Checked);
      }
    }

    method SaveReceipt() returns (ok: bool)
      modifies this`deeds
      ensures deeds == old(deeds) + [SavedReceipt(ok)]
    {
      ok := *;
      deeds := deeds + [SavedReceipt(ok)];
    }

    method SaveMarker() returns (ok: bool)
      modifies this`marker, this`deeds
      ensures deeds == old(deeds) + [SavedMarker(ok)] && (ok ==> marker == Some(receipt))
    {
      ok := *;
      marker := *;
      if ok {
        marker := Some(receipt);
      }
      deeds := deeds + [SavedMarker(ok)];
    }

    /**
     * The callback before each write. An accepted write has its marker on disk already, and nothing but the control
     * check and the two saves refuses an admitted one.
     */
    method BeforeWrite(p: Prepared, referencesOk: bool) returns (accepted: bool, ghost done: seq<Deed>)
      requires Valid() && !ended
      modifies this`state, this`marker, this`trace, this`deeds
      ensures Valid() && old(trace) <= trace && deeds == old(deeds) + done
      ensures accepted <==> trace != old(trace) && trace[|trace| - 1] == Accepted(p)
      ensures accepted <==> old(Admits(state, d, p)) && referencesOk && done == WRITING
      ensures if old(Admits(state, d, p)) && referencesOk then accepted || BrokeOff(done, WRITING) else done == []
      ensures !accepted ==> state == if |done| >= 2 then old(Book(state, d, p)) else old(state)
      ensures accepted ==> old(Admits(state, d, p)) && marker == Some(receipt) && state == old(Book(state, d, p)).(dispatched := true)
    {
      hide Good; hide Reflects; hide Admits; hide Book; hide Legit;
      ghost var start := trace;
      done := [];
      if !Admits(state, d, p) || !referencesOk {
        return false, done;
      }
      var ok := CheckControl();
      done := [Control(ok)];
      if !ok {
        return false, done;
      }
      ghost var before, mid := state, trace;
      BookReflects(state, d, p, trace);
      state := Book(state, d, p);
      ok := SaveReceipt();
      done := done + [SavedReceipt(ok)];
      if !ok {
        return false, done;
      }
      ok := SaveMarker();
      done := done + [SavedMarker(ok)];
      assert done[2] == SavedMarker(ok);
      if !ok {
        return false, done;
      }
      Log(MarkerSaved);
      state := state.(dispatched := true);
      DispatchedReflects(before, d, p, trace, state);
      Preceding(start, trace);
      AdmittedIsLegit(before, d, start, p, trace);
      assert (trace + [Accepted(p)])[|trace|] == Accepted(p);
      LegitStable(d, trace, Accepted(p), |trace|, p);
      Log(Accepted(p));
      return true, done;
    }

    /** The callback after each write or read. */
    method RecordEvidence(e: Evidence) returns (recorded: bool)
      requires Valid() && !ended
      modifies this`state, this`trace, this`deeds
      ensures deeds == old(deeds) + if old(state.dispatched) then [SavedReceipt(recorded)] else []
      ensures recorded ==> old(state.dispatched) && trace == old(trace) + [Noted(e)] && state == old(Learn(state, d, e))
      ensures Valid() && (!recorded ==> state == old(state) && trace == old(trace))
    {
      hide Good; hide Reflects; hide Learn;
      if !state.dispatched {
        return false;
      }
      recorded := SaveReceipt();
      if recorded {
        LearnReflects(state, d, trace, e);
        NotedIsGood(d, trace, e);
        trace := trace + [Noted(e)];
        state := Learn(state, d, e);
      }
    }

    /** After the adapter returned: the marker goes only with a verified result and a passing check. */
    method Finish(verified: bool) returns (passed: bool, ghost done: seq<Deed>)
      requires Valid() && !ended
      modifies this
      ensures Valid() && ended && state == old(state) && deeds == old(deeds) + done
      ensures passed <==> (state.dispatched ==> verified) && done == if state.dispatched then SETTLING else READING
      ensures (state.dispatched ==> verified) && !passed ==> BrokeOff(done, if state.dispatched then SETTLING else READING)
      ensures state.dispatched && !verified ==> |done| == 1 && done[0].Control?
      ensures passed && state.dispatched ==> verified && marker == None && |trace| >= 2 && trace[|trace| - 2..] == [Checked, MarkerRemoved]
      ensures old(trace) <= trace && (!passed ==> MarkerRemoved !in trace[|old(trace)|..])
    {
      hide Good; hide Reflects;
      ended := true;
      var ok := CheckControl();
      done := [Control(ok)];
      if !ok || (state.dispatched && !verified) {
        return false, done;
      }
      if verified {
        Log(ResultVerified);
      }
      ok := SaveReceipt();
      done := done + [SavedReceipt(ok)];
      assert done[1] == SavedReceipt(ok);
      if !ok {
        return false, done;
      }
      if state.dispatched {
        ghost var before := trace;
        ok := CheckControl();
        done := done + [Control(ok)];
        assert done[2] == Control(ok);
        if !ok {
          return false, done;
        }
        assert trace[|before| - 1] == ResultVerified;
        assert (trace + [MarkerRemoved])[|trace| - 1] == Checked;
        assert (trace + [MarkerRemoved])[|before| - 1] == ResultVerified;
        marker := None;
        Log(MarkerRemoved);
      }
      return true, done;
    }
  }

  lemma BookReflects(s: State, d: Data, p: Prepared, trace: seq<Entry>)
    requires Reflects(s, trace)
    ensures Reflects(Book(s, d, p), trace)
  {
    hide Known; hide Shown; hide LinksNew; hide Finalizes;
  }

  lemma DispatchedReflects(s: State, d: Data, p: Prepared, trace: seq<Entry>, t: State)
    requires Reflects(Book(s, d, p), trace) && t == Book(s, d, p).(dispatched := true) && Admits(s, d, p)
    ensures Reflects(t, trace) && (p.verb, p.path) in t.sentPaths
    ensures p.phase.FinalizeNew? && p.verb.Put? ==> t.finalized
  {
    hide Known; hide Shown; hide LinksNew; hide Finalizes; hide Admits;
    AdmittedShape(s, d, p);
  }

  lemma Preceding(start: seq<Entry>, trace: seq<Entry>)
    requires trace == start + [Checked] + [MarkerSaved]
    ensures start <= trace && Earlier(trace, |trace|, MarkerSaved) && Earlier(trace, |trace|, Checked)
    ensures forall j | |start| <= j < |trace| :: !trace[j].Accepted?
  {
    assert trace[|start|] == Checked && trace[|start| + 1] == MarkerSaved;
  }

  lemma NotedIsGood(d: Data, trace: seq<Entry>, e: Evidence)
    requires Good(d, trace)
    ensures Good(d, trace + [Noted(e)])
  {
    assert (trace + [Noted(e)])[|trace|] == Noted(e);
    GoodAppend(d, trace, Noted(e));
  }
}
