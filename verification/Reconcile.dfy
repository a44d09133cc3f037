/**
 * Discount reconciliation against a remote that may change between any two calls. The remote's ghost state
 * records every write together with what had last been observed when it was sent. Left alone its answers are
 * arbitrary. With a script they are those of a remote that refuses nothing and whose catalog changes as scripted; with
 * a world, those of a remote that refuses nothing and does what it is told, and nothing else.
 */
module Remote {
  import opened Wrappers
  import opened LinkKeys
  import opened DiscountBody
  import opened WriteEvidence

  datatype Write =
    | Create(body: Row)
    | LinkNew(discount: string, key: Key)
    | Finalize(discount: string, body: Row)
    | RemoveLink(discount: string, key: Key, existing: seq<Key>, expected: seq<Key>)
    | AddLink(discount: string, key: Key, existing: seq<Key>)
    | Update(discount: string, body: Row)

  datatype Links = Links(discount: string, keys: seq<Key>)

  type EventData = nat
  type Catalog = nat

  /**
   * A write with the latest observations since the write before it, `rechecked` if they follow its gate, and the
   * evidence recorded since the write before it.
   */
  datatype Sent = Sent(write: Write, links: Option<Links>, row: Option<Row>, rechecked: bool, noted: seq<Evidence>,
                       event: Option<EventData>, items: Option<Catalog>, cleared: bool)

  /** An acknowledgment: 204, or a body carrying an identity. */
  datatype Ack = NoContent | Identified(id: Option<string>)

  /** One row of the association catalog. */
  datatype LinkRow = LinkRow(discount: string, key: Key)

  /** The row that each reading of the catalog finds, and the associations that every reading finds. */
  datatype Script = Script(event: EventData, rows: nat -> Option<Row>, links: seq<LinkRow>)

  /** What a remote holds under the code: the event, the row, the associations, and the identity a new row would get. */
  datatype World = World(event: EventData, row: Option<Row>, links: seq<LinkRow>, nextId: string)

  /** The row of an identity is refused unless it is an event's discount code with an identity of its own. */
  predicate Matched(row: Row) {
    && Id in row && row[Id].Text? && |row[Id].text| == ID_LENGTH
    && Level in row && row[Level] == Text("EVENT") && Type in row && row[Type] == Text("DISCOUNT_CODE")
    && Code in row && row[Code].Text?
  }

  function IdOf(row: Row): Option<string> {
    if Id in row && row[Id].Text? then Some(row[Id].text) else None
  }

  function Found(answer: Option<Row>): Option<Option<Row>> {
    if answer.Some? && !Matched(answer.value) then None else Some(answer)
  }

  /** The associations of one discount. */
  function Of(rows: seq<LinkRow>, discount: string): seq<Key> {
    if rows == [] then [] else (if rows[0].discount == discount then [rows[0].key] else []) + Of(rows[1..], discount)
  }

  function Unlinked(rows: seq<LinkRow>, gone: LinkRow): seq<LinkRow> {
    if rows == [] then [] else (if rows[0] == gone then [] else [rows[0]]) + Unlinked(rows[1..], gone)
  }

  /** A PUT replaces every writable field, resetting those it omits; the capacity keeps its recorded use. */
  function PutRow(row: Row, body: Row): Row {
    map f | f in row.Keys + body.Keys && (Writable(f) ==> f in body) ::
      if f == Capacity then Object(CapacityOf(row) + CapacityOf(body)) else if f in body then body[f] else row[f]
  }

  /** A POST makes an unused row of the event. */
  function NewRow(body: Row, id: string): Row {
    body[Id := Text(id)][Level := Text("EVENT")][Capacity := Object(CapacityOf(body)[USED := Number(0)])]
  }

  function Applied(w: World, write: Write): World {
    match write
    case Create(body) => w.(row := Some(NewRow(body, w.nextId)))
    case LinkNew(discount, key) => w.(links := w.links + [LinkRow(discount, key)])
    case AddLink(discount, key, _) => w.(links := w.links + [LinkRow(discount, key)])
    case RemoveLink(discount, key, _, _) => w.(links := Unlinked(w.links, LinkRow(discount, key)))
    case Finalize(_, body) => if w.row.Some? then w.(row := Some(PutRow(w.row.value, body))) else w
    case Update(_, body) => if w.row.Some? then w.(row := Some(PutRow(w.row.value, body))) else w
  }

  function Answered(w: World, write: Write): Ack {
    match write
    case Create(_) => Identified(Some(w.nextId))
    case Finalize(discount, _) => Identified(Some(discount))
    case Update(discount, _) => Identified(Some(discount))
    case _ => NoContent
  }

  class Cvent {
    const script: Option<Script>
    var world: Option<World>
    var rowReads: nat // of the row, so far
    ghost var sent: seq<Sent>
    ghost var links: Option<Links>
    ghost var row: Option<Row>
    ghost var rechecked: bool
    ghost var noted: seq<Evidence>
    ghost var event: Option<EventData>
    ghost var items: Option<Catalog>
    ghost var refused: bool // some reading or report was, so far
    ghost var token: bool // authenticated since the last write
    ghost var cleared: Option<Write> // the write that was let through since then

    constructor (script: Option<Script>, world: Option<World>)
      ensures sent == [] && links == None && row == None && noted == [] && rowReads == 0 && event == None && items == None
      ensures !token && cleared == None && !refused
      ensures this.script == script && this.world == world
    {
      this.script, this.world, rowReads := script, world, 0;
      sent, links, row, rechecked, noted, event, items, token, cleared := [], None, None, false, [], None, None, false, None;
      refused := false;
    }

    /** The remote does what it is told. */
    ghost predicate Obeys()
      reads this`world
    {
      script.None? && world.Some?
    }

    /** Scripted associations are never refused. */
    ghost predicate Linked() {
      script.Some? && forall discount :: Distinct(Of(script.value.links, discount))
    }

    /** The associations a scripted discount has. */
    ghost function LinksOf(discount: string): seq<Key>
      requires script.Some?
    {
      Sort(Of(script.value.links, discount))
    }

    /** From the n-th reading on, a scripted catalog shows the same row. */
    ghost predicate Shows(event: EventData, before: Row, n: nat) {
      && Linked() && script.value.event == event && Matched(before)
      && forall k: nat :: k >= n ==> script.value.rows(k) == Some(before)
    }

    /** The event row, or a refusal because it is not the approved draft. */
    method AssertTarget() returns (event: Option<EventData>)
      modifies this`event, this`refused
      ensures refused == (old(refused) || event.None?)
      ensures script.Some? ==> event == Some(script.value.event)
      ensures Obeys() ==> event == Some(world.value.event)
      ensures this.event == if event.Some? then event else old(this.event)
    {
      event := *;
      if script.Some? {
        event := Some(script.value.event);
      } else if world.Some? {
        event := Some(world.value.event);
      }
      if event.Some? {
        this.event := event;
      }
      refused := refused || event.None?;
    }

    method Catalog() returns (catalog: Option<Catalog>)
      modifies this`items, this`refused
      ensures refused == (old(refused) || catalog.None?)
      ensures script.Some? || Obeys() ==> catalog == Some(0)
      ensures items == if catalog.Some? then catalog else old(items)
    {
      catalog := *;
      if script.Some? || world.Some? {
        catalog := Some(0);
      }
      if catalog.Some? {
        items := catalog;
      }
      refused := refused || catalog.None?;
    }

    /** The row matching the requested identity: a refusal, no such row, or the row. */
    method ReadRow() returns (r: Option<Option<Row>>)
      modifies this`row, this`rowReads, this`refused
      ensures refused == (old(refused) || r.None?)
      ensures r.Some? ==> row == Some(if r.value.Some? then r.value.value else map[])
      ensures r.None? ==> row == old(row)
      ensures rowReads == old(rowReads) + 1 && (script.Some? ==> r == Found(script.value.rows(old(rowReads))))
      ensures Obeys() ==> r == Found(world.value.row)
      ensures r.Some? && r.value.Some? ==> Matched(r.value.value)
    {
      r := *;
      if script.Some? {
        r := Some(script.value.rows(rowReads));
      } else if world.Some? {
        r := Some(world.value.row);
      }
      if r.Some? {
        r := Found(r.value);
      }
      rowReads := rowReads + 1;
      if r.Some? {
        row := Some(if r.value.Some? then r.value.value else map[]);
      }
      refused := refused || r.None?;
    }

    /** One row by its identity: a refusal, no such row, or the row. */
    method ReadById(id: string) returns (row: Option<Option<Row>>)
      modifies this`refused
      ensures refused == (old(refused) || row.None?)
      ensures Obeys() && world.value.row.Some? && IdOf(world.value.row.value) == Some(id) ==> row == Some(world.value.row)
    {
      row := *;
      if script.None? && world.Some? && world.value.row.Some? && IdOf(world.value.row.value) == Some(id) {
        row := Some(world.value.row);
      }
      if row.None? {
        refused := true;
      }
    }

    /** Whether an identity was not in the catalog that was read last. */
    method Unknown(id: string) returns (unknown: bool)
      ensures Obeys() && id == world.value.nextId ==> unknown
    {
      unknown := *;
      if script.None? && world.Some? && id == world.value.nextId {
        unknown := true;
      }
    }

    method ReadLinkRows() returns (rows: Option<seq<LinkRow>>)
      ensures script.Some? ==> rows == Some(script.value.links)
      ensures Obeys() ==> rows == Some(world.value.links)
    {
      rows := *;
      if script.Some? {
        rows := Some(script.value.links);
      } else if world.Some? {
        rows := Some(world.value.links);
      }
    }

    /** The sorted associations of one discount; duplicates are refused. */
    method DiscountLinks(discount: string) returns (keys: Option<seq<Key>>)
      modifies this`links, this`rechecked, this`refused
      ensures refused == (old(refused) || keys.None?)
      ensures keys.Some? ==> Ordered(keys.value) && links == Some(Links(discount, keys.value)) && rechecked
      ensures keys.None? ==> links == old(links) && rechecked == old(rechecked)
      ensures Linked() ==> keys == Some(LinksOf(discount))
      ensures Obeys() && Distinct(Of(world.value.links, discount)) ==> keys == Some(Sort(Of(world.value.links, discount)))
    {
      var rows := ReadLinkRows();
      if rows.None? {
        refused := true;
        return None;
      }
      var raw := Of(rows.value, discount);
      var distinct := forall i, j | 0 <= i < j < |raw| :: raw[i] != raw[j];
      if !distinct {
        refused := true;
        return None;
      }
      SortOrdered(raw);
      links, rechecked := Some(Links(discount, Sort(raw))), true;
      return Some(Sort(raw));
    }

    method Authenticate() returns (ok: bool)
      modifies this`token
      ensures token == ok && (script.Some? || Obeys() ==> ok)
    {
      ok := *;
      ok := ok || script.Some? || world.Some?;
      token := ok;
    }

    /** The write gate of the caller: durable intent first, or a refusal. */
    method Gate(write: Write) returns (ok: bool)
      modifies this`rechecked, this`cleared
      ensures !rechecked && (script.Some? || Obeys() ==> ok)
      ensures cleared == if ok && token then Some(write) else None
    {
      rechecked := false;
      ok := *;
      ok := ok || script.Some? || world.Some?;
      cleared := if ok && token then Some(write) else None;
    }

    /** The evidence callback of the caller, or a refusal. */
    method Note(e: Evidence) returns (ok: bool)
      modifies this`noted, this`refused
      ensures refused == (old(refused) || !ok)
      ensures noted == old(noted) + (if ok then [e] else [])
      ensures script.Some? || Obeys() ==> ok
    {
      ok := *;
      ok := ok || script.Some? || world.Some?;
      if ok {
        noted := noted + [e];
      } else {
        refused := true;
      }
    }

    /** One mutation, never replayed. Whatever comes back, it may have taken effect. */
    method Send(write: Write) returns (ack: Option<Ack>)
      modifies this`sent, this`links, this`row, this`rechecked, this`noted, this`event, this`items, this`token, this`cleared,
               this`world
      ensures sent == old(sent) + [Sent(write, old(links), old(row), old(rechecked), old(noted), old(event), old(items), old(cleared) == Some(write))]
      ensures links == None && row == None && !rechecked && noted == [] && event == None && items == None && !token && cleared == None
      ensures old(Obeys()) ==> ack == Some(Answered(old(world).value, write)) && world == Some(Applied(old(world).value, write))
    {
      sent := sent + [Sent(write, links, row, rechecked, noted, event, items, cleared == Some(write))];
      links, row, rechecked, noted, event, items, token, cleared := None, None, false, [], None, None, false, None;
      ack := *;
      if world.Some? {
        ack := Some(Answered(world.value, write));
        world := Some(Applied(world.value, write));
      }
    }
  }

  // ---- What a write does to a remote that does what it is told -----------------------------------------------------

  lemma {:induction false} OfAppend(rows: seq<LinkRow>, more: LinkRow, discount: string)
    ensures Of(rows + [more], discount) == Of(rows, discount) + (if more.discount == discount then [more.key] else [])
  {
    if rows == [] {
      assert [] + [more] == [more] && [more][1..] == [];
    } else {
      OfAppend(rows[1..], more, discount);
      assert (rows + [more])[1..] == rows[1..] + [more];
    }
  }

  lemma {:induction false} OfUnlinked(rows: seq<LinkRow>, discount: string, key: Key)
    ensures Of(Unlinked(rows, LinkRow(discount, key)), discount) == Without(Of(rows, discount), key)
  {
    if rows != [] {
      var rest := Unlinked(rows[1..], LinkRow(discount, key));
      OfUnlinked(rows[1..], discount, key);
      var tail := Of(rows[1..], discount);
      assert ([rows[0]] + rest)[1..] == rest && ([rows[0].key] + tail)[1..] == tail;
      assert [] + tail == tail && [] + rest == rest && [] + Of(rest, discount) == Of(rest, discount);
    }
  }

  lemma {:induction false} WithoutDistinct(s: seq<Key>, key: Key)
    requires Distinct(s)
    ensures var left := Without(s, key); Distinct(left) && forall x :: x in left <==> x in s && x != key
  {
    if s != [] {
      var tail := s[1..];
      assert forall k | 0 <= k < |tail| :: tail[k] == s[k + 1] && s[0] != s[k + 1];
      WithoutDistinct(tail, key);
      assert s == [s[0]] + tail;
      if s[0] != key {
        DistinctCons(s[0], Without(tail, key));
      }
    }
  }

  lemma DistinctCons(key: Key, rest: seq<Key>)
    requires Distinct(rest) && key !in rest
    ensures Distinct([key] + rest)
  {
  }

  lemma AddedLinks(rows: seq<LinkRow>, discount: string, key: Key)
    requires Distinct(Of(rows, discount)) && key !in Sort(Of(rows, discount))
    ensures var now := Of(rows + [LinkRow(discount, key)], discount);
            Distinct(now) && Sort(now) == Sort(Sort(Of(rows, discount)) + [key])
  {
    hide Sort; hide Of;
    var raw := Of(rows, discount);
    OfAppend(rows, LinkRow(discount, key), discount);
    SortMembers(raw);
    SortOrdered(raw);
    AppendThenSort(Sort(raw), key);
    SortOrdered(raw + [key]);
    SortMembers(raw + [key]);
    OrderedUnique(Sort(raw + [key]), Sort(Sort(raw) + [key]));
  }

  lemma RemovedLinks(rows: seq<LinkRow>, discount: string, key: Key)
    requires Distinct(Of(rows, discount))
    ensures var now := Of(Unlinked(rows, LinkRow(discount, key)), discount);
            Distinct(now) && Sort(now) == Without(Sort(Of(rows, discount)), key)
  {
    hide Sort; hide Of; hide Unlinked; hide Without;
    var raw, now := Of(rows, discount), Of(Unlinked(rows, LinkRow(discount, key)), discount);
    OfUnlinked(rows, discount, key);
    WithoutDistinct(raw, key);
    SortMembers(raw);
    SortOrdered(raw);
    WithoutFacts(Sort(raw), key);
    SortMembers(now);
    SortOrdered(now);
    OrderedUnique(Sort(now), Without(Sort(raw), key));
  }
}

/** The plan an existing discount's writes must follow, and the method that follows it. */
module Reconcile {
  import opened Wrappers
  import opened LinkKeys
  import opened DiscountBody
  import opened Remote
  import opened WriteEvidence

  datatype Problem =
    | Invalid | Mismatch | Changed | ReadFailed | GateRefused | WriteUncertain | NotVerified

  /** What a write does to the expected links. */
  function Effect(links: seq<Key>, w: Write): seq<Key> {
    if w.RemoveLink? then Without(links, w.key) else if w.AddLink? then Sort(links + [w.key]) else links
  }

  /** The links that should be there after a prefix of the writes. */
  function After(start: seq<Key>, ws: seq<Sent>): seq<Key> {
    if ws == [] then start else Effect(After(start, ws[..|ws| - 1]), ws[|ws| - 1].write)
  }

  datatype Plan = Plan(discount: string, before: Row, start: seq<Key>, adds: seq<Key>, removes: seq<Key>, body: Row,
                       event: EventData, items: Option<Catalog>)

  /** Write `i`: sent on exactly the expected links, the unchanged row, event and items, in phase, and only as requested. */
  /** Acknowledged, then read back until it matched, and all of it reported. */
  ghost predicate ReadBack(noted: seq<Evidence>) {
    && |noted| >= 2 && noted[0] == OTHER && noted[|noted| - 1].kind == Readback && noted[|noted| - 1].matched
    && forall k | 0 <= k < |noted| - 1 :: !noted[k].matched
  }

  ghost predicate WriteLegal(p: Plan, ws: seq<Sent>, i: nat)
    requires i < |ws|
  {
    && ws[i].cleared && (i > 0 ==> ReadBack(ws[i].noted)) && (p.removes != [] ==> ws[i].rechecked)
    && ws[i].links == Some(Links(p.discount, After(p.start, ws[..i])))
    && ws[i].row.Some? && Business(ws[i].row.value) == Business(p.before)
    && ws[i].event == Some(p.event) && (p.items.Some? ==> ws[i].items == p.items)
    && AsRequested(p, After(p.start, ws[..i]), ws[i])
    && (forall j | 0 <= j < i :: ws[j].write.RemoveLink? || (ws[j].write.AddLink? && !ws[i].write.RemoveLink?))
  }

  /** Removals are rechecked and only of listed links; additions only of wanted ones that were not there. */
  ghost predicate AsRequested(p: Plan, cur: seq<Key>, sent: Sent) {
    var w := sent.write;
    || (w.RemoveLink? && w.discount == p.discount && w.key in p.removes && w.key in p.start && w.key in cur && sent.rechecked
        && w.existing == cur && w.expected == Without(cur, w.key))
    || (w.AddLink? && w.discount == p.discount && w.key in p.adds && w.key !in p.start && w.key !in cur && w.existing == cur)
    || (w.Update? && w.discount == p.discount && w.body == p.body)
  }

  ghost predicate Legal(p: Plan, ws: seq<Sent>) {
    forall i | 0 <= i < |ws| :: WriteLegal(p, ws, i)
  }

  lemma EffectFacts(cur: seq<Key>, w: Write)
    requires Ordered(cur) && (w.AddLink? ==> w.key !in cur)
    ensures Ordered(Effect(cur, w))
    ensures forall x :: x in Effect(cur, w) <==> (x in cur && !(w.RemoveLink? && x == w.key)) || (w.AddLink? && x == w.key)
  {
    hide Ordered; hide Sort; hide Without;
    if w.RemoveLink? {
      WithoutFacts(cur, w.key);
    } else if w.AddLink? {
      AppendThenSort(cur, w.key);
    }
  }

  lemma AfterAppend(start: seq<Key>, ws: seq<Sent>, w: Sent)
    ensures After(start, ws + [w]) == Effect(After(start, ws), w.write)
  {
    assert (ws + [w])[..|ws|] == ws;
  }

  lemma LegalAppend(p: Plan, ws: seq<Sent>, w: Sent)
    requires Legal(p, ws) && WriteLegal(p, ws + [w], |ws|)
    ensures Legal(p, ws + [w])
  {
    hide After;
    forall i | 0 <= i < |ws|
      ensures WriteLegal(p, ws + [w], i)
    {
      assert WriteLegal(p, ws, i);
      assert (ws + [w])[..i] == ws[..i];
    }
  }

  // ---- What the plan guarantees ----------------------------------------------------------------------

  /** Wanted links that were there are never touched, so a discount that keeps one is never left without links. */
  lemma {:induction false} KeptLinkSurvives(p: Plan, ws: seq<Sent>, i: nat, kept: Key)
    requires Legal(p, ws) && i <= |ws| && Ordered(p.start)
    requires kept in p.start && kept !in p.removes
    ensures Ordered(After(p.start, ws[..i])) && kept in After(p.start, ws[..i])
  {
    if i > 0 {
      KeptLinkSurvives(p, ws, i - 1, kept);
      assert WriteLegal(p, ws, i - 1);
      assert ws[..i][..i - 1] == ws[..i - 1];
      var cur := After(p.start, ws[..i - 1]);
      EffectFacts(cur, ws[i - 1].write);
    }
  }

  /** Over a legal plan every intermediate link set of an active, partly kept discount is non-empty. */
  lemma NeverEmptied(p: Plan, ws: seq<Sent>)
    requires Legal(p, ws) && Ordered(p.start)
    requires exists key :: key in p.start && key !in p.removes
    ensures forall i | 0 <= i <= |ws| :: After(p.start, ws[..i]) != []
    ensures forall i | 0 <= i < |ws| && ws[i].write.RemoveLink? :: ws[i].write.expected != []
  {
    var kept :| kept in p.start && kept !in p.removes;
    forall i | 0 <= i <= |ws|
      ensures After(p.start, ws[..i]) != []
    {
      KeptLinkSurvives(p, ws, i, kept);
    }
    forall i | 0 <= i < |ws| && ws[i].write.RemoveLink?
      ensures ws[i].write.expected != []
    {
      assert WriteLegal(p, ws, i);
      assert ws[..i + 1][..i] == ws[..i];
      assert After(p.start, ws[..i + 1]) == ws[i].write.expected;
    }
  }

  /** No association is written twice. */
  lemma NoLinkWrittenTwice(p: Plan, ws: seq<Sent>, i: nat, j: nat)
    requires Legal(p, ws) && Ordered(p.start) && i < j < |ws|
    requires ws[i].write.RemoveLink? || ws[i].write.AddLink?
    requires ws[j].write.RemoveLink? || ws[j].write.AddLink?
    ensures ws[i].write.key != ws[j].write.key
  {
    assert WriteLegal(p, ws, i) && WriteLegal(p, ws, j);
    if ws[i].write.RemoveLink? == ws[j].write.RemoveLink? {
      StaysWritten(p, ws, i, j);
    }
  }

  lemma {:induction false} StaysWritten(p: Plan, ws: seq<Sent>, i: nat, j: nat)
    requires Legal(p, ws) && Ordered(p.start) && i < j <= |ws|
    requires ws[i].write.RemoveLink? || ws[i].write.AddLink?
    ensures Ordered(After(p.start, ws[..j]))
    ensures ws[i].write.RemoveLink? ==> ws[i].write.key !in After(p.start, ws[..j])
    ensures ws[i].write.AddLink? ==> ws[i].write.key in After(p.start, ws[..j])
    decreases j
  {
    hide Business; hide Sort; hide Without;
    assert WriteLegal(p, ws, i);
    assert WriteLegal(p, ws, j - 1);
    assert ws[..j][..j - 1] == ws[..j - 1];
    var cur := After(p.start, ws[..j - 1]);
    AfterOrdered(p, ws, j - 1);
    if i < j - 1 {
      StaysWritten(p, ws, i, j - 1);
    }
    EffectFacts(cur, ws[j - 1].write);
  }

  lemma {:induction false} AfterOrdered(p: Plan, ws: seq<Sent>, i: nat)
    requires Legal(p, ws) && Ordered(p.start) && i <= |ws|
    ensures Ordered(After(p.start, ws[..i]))
  {
    if i > 0 {
      AfterOrdered(p, ws, i - 1);
      assert WriteLegal(p, ws, i - 1);
      assert ws[..i][..i - 1] == ws[..i - 1];
      var cur := After(p.start, ws[..i - 1]);
      EffectFacts(cur, ws[i - 1].write);
    }
  }
}
