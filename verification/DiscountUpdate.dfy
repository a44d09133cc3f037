/** Moving an existing discount from its observed links and row to the requested ones. */
module DiscountUpdate {
  import opened Wrappers
  import opened LinkKeys
  import opened DiscountBody
  import opened WriteEvidence
  import opened Remote
  import opened Reconcile

  datatype Input = Input(code: string, discountId: Option<string>, patch: Row, createIfMissing: bool,
                         items: Option<seq<Item>>, removes: Option<seq<Item>>)

  predicate ValidInput(input: Input) {
    && input.patch != map[] && (forall f | f in input.patch :: Patchable(f))
    && (input.items.Some? ==> ValidItems(input.items.value))
    && (input.removes.Some? ==>
          && input.discountId.Some? && !input.createIfMissing && input.items.Some? && ValidItems(input.removes.value)
          && forall i, j | 0 <= i < |input.removes.value| && 0 <= j < |input.items.value| :: input.removes.value[i].id != input.items.value[j].id)
  }

  /** What is accepted as input. */
  lemma ValidInputIs(input: Input)
    ensures ValidInput(input) <==>
      && input.patch != map[] && input.patch.Keys <= PATCHED
      && (input.items.Some? ==> ValidItems(input.items.value))
      && (input.removes.Some? ==>
            && input.discountId.Some? && !input.createIfMissing && input.items.Some? && ValidItems(input.removes.value)
            && forall x, y | x in input.removes.value && y in input.items.value :: x.id != y.id)
  {
    hide ValidItems;
    PatchIsListed(input.patch);
  }

  function Adds(input: Input): seq<Key> {
    if input.items.Some? then KeysOf(input.items.value) else []
  }

  function Removes(input: Input): seq<Key> {
    if input.removes.Some? then KeysOf(input.removes.value) else []
  }

  /** What was fixed when the update was prepared. */
  datatype Prepared = Prepared(event: EventData, catalog: Option<Catalog>, recheck: bool, polls: nat)

  /** A scripted remote goes on showing the event, the row and the links that were observed. */
  ghost predicate Steady(c: Cvent, pre: Prepared, before: Row, id: string, links: seq<Key>, n: nat) {
    c.Shows(pre.event, before, n) && links == c.LinksOf(id) && (pre.catalog.Some? ==> pre.catalog.value == 0)
  }

  /** A remote that does what it is told holds exactly this row and these links. */
  ghost predicate Kept(c: Cvent, pre: Prepared, before: Row, id: string, links: seq<Key>)
    reads c`world
  {
    && c.Obeys() && c.world.value.event == pre.event && c.world.value.row == Some(before) && Matched(before)
    && Distinct(Of(c.world.value.links, id)) && Sort(Of(c.world.value.links, id)) == links
    && (pre.catalog.Some? ==> pre.catalog.value == 0)
  }

  /** The PUT leaves the row that is expected, as far as anybody can tell. */
  ghost predicate Written(before: Row, body: Row, expected: Row) {
    Matched(PutRow(before, body)) && Business(PutRow(before, body)) == Business(expected)
  }

  /** Such a remote holds the expected row and these links. */
  ghost predicate Settled(c: Cvent, pre: Prepared, expected: Row, id: string, links: seq<Key>)
    reads c`world
  {
    && c.Obeys() && c.world.value.event == pre.event && c.world.value.row.Some?
    && Matched(c.world.value.row.value) && Business(c.world.value.row.value) == Business(expected)
    && Distinct(Of(c.world.value.links, id)) && Sort(Of(c.world.value.links, id)) == links
    && (pre.catalog.Some? ==> pre.catalog.value == 0)
  }

  lemma StaysSteady(c: Cvent, pre: Prepared, before: Row, id: string, links: seq<Key>, n: nat, m: nat)
    requires Steady(c, pre, before, id, links, n) && n <= m
    ensures Steady(c, pre, before, id, links, m)
  {
  }

  method AssertBaseline(c: Cvent, pre: Prepared, before: Row, id: string, links: seq<Key>) returns (ok: bool)
    modifies c`links, c`row, c`rechecked, c`rowReads, c`event, c`items, c`refused
    ensures ok ==> Observed(c, pre, before, id, links) && c.rechecked
    ensures old(c.rowReads) <= c.rowReads
    ensures Steady(c, pre, before, id, links, old(c.rowReads)) || Kept(c, pre, before, id, links) ==> ok
  {
    hide Sort; hide Business;
    var event := c.AssertTarget();
    if event != Some(pre.event) {
      return false;
    }
    var row := c.ReadRow();
    if row.None? || Business(if row.value.Some? then row.value.value else map[]) != Business(before) {
      return false;
    }
    var seen := c.DiscountLinks(id);
    if seen != Some(links) {
      return false;
    }
    if pre.catalog.Some? {
      var catalog := c.Catalog();
      if catalog != pre.catalog {
        return false;
      }
    }
    return true;
  }

  /** The latest observations are exactly the expected links, and an unchanged row, event and items. */
  ghost predicate Observed(c: Cvent, pre: Prepared, before: Row, id: string, links: seq<Key>)
    reads c
  {
    && c.links == Some(Links(id, links)) && c.row.Some? && Business(c.row.value) == Business(before)
    && c.event == Some(pre.event) && (pre.catalog.Some? ==> c.items == pre.catalog)
  }

  ghost predicate SentAs(s: Sent, write: Write, pre: Prepared, before: Row, id: string, links: seq<Key>) {
    && s.write == write && s.links == Some(Links(id, links)) && s.row.Some? && Business(s.row.value) == Business(before)
    && s.event == Some(pre.event) && (pre.catalog.Some? ==> s.items == pre.catalog) && s.cleared
  }

  /** Evidence is recorded after writes only. */
  ghost predicate Reported(before: seq<Evidence>, after: seq<Evidence>, done: seq<Sent>) {
    if done == [] then after == before else done[0].noted == before
  }

  /** What is reported of an acknowledgment: its status, and its body if it has one. */
  function Receipts(ack: Ack): seq<Evidence> {
    if ack.NoContent? then [OTHER] else [OTHER, OTHER]
  }

  /** The last write, if any, was acknowledged and read back. */
  ghost predicate UpToDate(noted: seq<Evidence>, ws: seq<Sent>) {
    ws != [] ==> ReadBack(noted)
  }

  /** It was acknowledged, and has not been read back yet. */
  ghost predicate Acknowledged(noted: seq<Evidence>) {
    noted != [] && noted[0] == OTHER && forall k | 0 <= k < |noted| :: !noted[k].matched
  }

  method Dispatch(c: Cvent, write: Write, recheck: bool, pre: Prepared, before: Row, id: string, links: seq<Key>)
    returns (ack: Option<Ack>, ghost done: seq<Sent>)
    requires Observed(c, pre, before, id, links)
    modifies c
    ensures c.sent == old(c.sent) + done && |done| <= 1 && (ack.Some? ==> |done| == 1)
    ensures |done| == 1 ==> SentAs(done[0], write, pre, before, id, links) && (recheck ==> done[0].rechecked)
    ensures old(Kept(c, pre, before, id, links)) ==>
              ack == Some(Answered(old(c.world).value, write)) && c.world == Some(Applied(old(c.world).value, write))
    ensures Reported(old(c.noted), c.noted, done) && (ack.Some? ==> c.noted == Receipts(ack.value))
    ensures old(c.rowReads) <= c.rowReads
    ensures c.script.Some? && !recheck ==> |done| == 1
    ensures Steady(c, pre, before, id, links, old(c.rowReads)) ==> |done| == 1
  {
    hide Business; hide Applied; hide Answered; hide Sort;
    var ok := c.Authenticate();
    if !ok {
      return None, [];
    }
    ok := c.Gate(write);
    if !ok {
      return None, [];
    }
    if recheck {
      ok := AssertBaseline(c, pre, before, id, links);
      if !ok {
        return None, [];
      }
    }
    ack := c.Send(write);
    done := [c.sent[|c.sent| - 1]];
    if ack.Some? {
      ok := c.Note(OTHER);
      if ok && ack.value != NoContent {
        ok := c.Note(OTHER);
      }
      if !ok {
        ack := None;
      }
    }
  }

  method PollLinks(c: Cvent, id: string, links: seq<Key>, polls: nat) returns (matched: bool)
    requires Acknowledged(c.noted)
    modifies c`links, c`rechecked, c`noted, c`refused
    ensures matched ==> c.links == Some(Links(id, links)) && ReadBack(c.noted)
    ensures |c.noted| <= |old(c.noted)| + polls && (!matched && !c.refused ==> |c.noted| == |old(c.noted)| + polls)
    ensures c.Obeys() && Distinct(Of(c.world.value.links, id)) && Sort(Of(c.world.value.links, id)) == links && polls > 0 ==> matched
  {
    hide Sort;
    for n := 0 to polls
      invariant Acknowledged(c.noted) && |c.noted| == |old(c.noted)| + n
      invariant c.Obeys() && Distinct(Of(c.world.value.links, id)) && Sort(Of(c.world.value.links, id)) == links ==> n == 0
    {
      var seen := c.DiscountLinks(id);
      if seen.None? {
        return false;
      }
      var ok := c.Note(Evidence(Readback, seen.value == links, None, None, []));
      if !ok {
        return false;
      }
      if seen.value == links {
        return true;
      }
    }
    return false;
  }

  ghost predicate OnlyRemovals(ws: seq<Sent>) {
    forall j | 0 <= j < |ws| :: ws[j].write.RemoveLink?
  }

  ghost predicate OnlyLinks(ws: seq<Sent>) {
    forall j | 0 <= j < |ws| :: ws[j].write.RemoveLink? || ws[j].write.AddLink?
  }

  /** The plan demands the very observations that were fixed. */
  ghost predicate Serves(pre: Prepared, p: Plan) {
    pre.event == p.event && pre.catalog == p.items && (p.removes != [] ==> pre.recheck)
  }

  lemma ExtendPlan(p: Plan, pre: Prepared, ws: seq<Sent>, s: Sent, write: Write)
    requires Legal(p, ws) && SentAs(s, write, pre, p.before, p.discount, After(p.start, ws)) && Serves(pre, p)
    requires AsRequested(p, After(p.start, ws), s) && UpToDate(s.noted, ws) && (p.removes != [] ==> s.rechecked)
    requires OnlyRemovals(ws) || (OnlyLinks(ws) && !write.RemoveLink?)
    ensures Legal(p, ws + [s]) && After(p.start, ws + [s]) == Effect(After(p.start, ws), write)
  {
    hide After; hide Business; hide AsRequested;
    assert (ws + [s])[..|ws|] == ws;
    AfterAppend(p.start, ws, s);
    LegalAppend(p, ws, s);
  }

  /** One turn of the removal loop. */
  method RemoveOne(c: Cvent, p: Plan, pre: Prepared, key: Key, links: seq<Key>, ghost ws: seq<Sent>)
    returns (ok: bool, next: seq<Key>, ghost done: seq<Sent>)
    requires Legal(p, ws) && OnlyRemovals(ws) && links == After(p.start, ws) && Ordered(links) && Serves(pre, p)
    requires key in p.removes && (forall x | x in links :: x in p.start) && UpToDate(c.noted, ws)
    modifies c
    ensures c.sent == old(c.sent) + done && Legal(p, ws + done) && OnlyRemovals(ws + done)
    ensures Reported(old(c.noted), c.noted, done) && (ok ==> UpToDate(c.noted, ws + done))
    ensures ok ==> next == After(p.start, ws + done) && Ordered(next) && forall x :: x in next <==> x in links && x != key
    ensures key !in links ==> ok && done == [] && c.rowReads == old(c.rowReads)
    ensures key in links && Steady(c, pre, p.before, p.discount, links, old(c.rowReads)) ==>
              |done| == 1 && done[0].write == RemoveLink(p.discount, key, links, Without(links, key))
    ensures old(Kept(c, pre, p.before, p.discount, links)) && pre.polls > 0 ==> ok && Kept(c, pre, p.before, p.discount, next)
  {
    hide ReadBack; hide After; hide Legal; hide Business; hide Ordered; hide Without; hide Steady; hide Sort; hide Of; hide Unlinked; hide Matched;
    next, done := links, [];
    assert ws + [] == ws;
    if key !in links {
      return true, next, done;
    }
    ghost var count, was := c.rowReads, c.world;
    ok := AssertBaseline(c, pre, p.before, p.discount, links);
    if !ok {
      return;
    }
    if Steady(c, pre, p.before, p.discount, links, count) {
      StaysSteady(c, pre, p.before, p.discount, links, count, c.rowReads);
    }
    next := Without(links, key);
    WithoutFacts(links, key);
    var write := RemoveLink(p.discount, key, links, next);
    var ack;
    ack, done := Dispatch(c, write, true, pre, p.before, p.discount, links);
    if |done| == 1 {
      assert done == [done[0]];
      ExtendPlan(p, pre, ws, done[0], write);
    } else {
      assert ws + done == ws;
    }
    if ack != Some(NoContent) {
      ok := false;
      return;
    }
    if was.Some? && Distinct(Of(was.value.links, p.discount)) {
      RemovedLinks(was.value.links, p.discount, key);
    }
    ok := PollLinks(c, p.discount, next, pre.polls);
  }

  /** One turn of the addition loop. */
  method AddOne(c: Cvent, p: Plan, pre: Prepared, key: Key, links: seq<Key>, ghost ws: seq<Sent>)
    returns (ok: bool, next: seq<Key>, ghost done: seq<Sent>)
    requires Legal(p, ws) && OnlyLinks(ws) && links == After(p.start, ws) && Ordered(links) && Serves(pre, p)
    requires key in p.adds && (key in p.start ==> key in links) && UpToDate(c.noted, ws)
    modifies c
    ensures c.sent == old(c.sent) + done && Legal(p, ws + done) && OnlyLinks(ws + done)
    ensures Reported(old(c.noted), c.noted, done) && (ok ==> UpToDate(c.noted, ws + done))
    ensures ok ==> next == After(p.start, ws + done) && Ordered(next) && forall x :: x in next <==> x in links || x == key
    ensures key in links ==> ok && done == [] && c.rowReads == old(c.rowReads)
    ensures key !in links && Steady(c, pre, p.before, p.discount, links, old(c.rowReads)) ==>
              |done| == 1 && done[0].write == AddLink(p.discount, key, links)
    ensures old(Kept(c, pre, p.before, p.discount, links)) && pre.polls > 0 ==> ok && Kept(c, pre, p.before, p.discount, next)
  {
    hide ReadBack; hide After; hide Legal; hide Business; hide Ordered; hide Sort; hide Steady; hide Of; hide Matched;
    next, done := links, [];
    assert ws + [] == ws;
    if key in links {
      return true, next, done;
    }
    ghost var count, was := c.rowReads, c.world;
    ok := AssertBaseline(c, pre, p.before, p.discount, links);
    if !ok {
      return;
    }
    if Steady(c, pre, p.before, p.discount, links, count) {
      StaysSteady(c, pre, p.before, p.discount, links, count, c.rowReads);
    }
    var write := AddLink(p.discount, key, links);
    var ack;
    ack, done := Dispatch(c, write, pre.recheck, pre, p.before, p.discount, links);
    if |done| == 1 {
      assert done == [done[0]];
      ExtendPlan(p, pre, ws, done[0], write);
    } else {
      assert ws + done == ws;
    }
    if ack != Some(NoContent) {
      ok := false;
      return;
    }
    next := Sort(links + [key]);
    AppendThenSort(links, key);
    if was.Some? && Distinct(Of(was.value.links, p.discount)) && Sort(Of(was.value.links, p.discount)) == links {
      AddedLinks(was.value.links, p.discount, key);
    }
    ok := PollLinks(c, p.discount, next, pre.polls);
  }

  method RemoveAll(c: Cvent, p: Plan, pre: Prepared) returns (ok: bool, links: seq<Key>, ghost ws: seq<Sent>)
    requires Ordered(p.start) && Serves(pre, p)
    modifies c
    ensures c.sent == old(c.sent) + ws && Legal(p, ws) && OnlyRemovals(ws) && Reported(old(c.noted), c.noted, ws)
    ensures ok ==> UpToDate(c.noted, ws)
    ensures old(Kept(c, pre, p.before, p.discount, p.start)) && pre.polls > 0 ==> ok && Kept(c, pre, p.before, p.discount, links)
    ensures ok ==> links == After(p.start, ws) && Ordered(links) && forall x :: x in links <==> x in p.start && x !in p.removes
    ensures (forall key | key in p.removes :: key !in p.start) ==> ok && ws == [] && links == p.start && c.rowReads == old(c.rowReads)
    ensures p.removes != [] && p.removes[0] in p.start && Steady(c, pre, p.before, p.discount, p.start, old(c.rowReads)) ==>
              ws != [] && ws[0].write == RemoveLink(p.discount, p.removes[0], p.start, Without(p.start, p.removes[0]))
  {
    hide ReadBack; hide After; hide Legal; hide Ordered; hide Steady; hide Without; hide Kept; hide Serves;
    ok, links, ws := true, p.start, [];
    EmptyPlan(p);
    assert old(c.sent) + [] == old(c.sent);
    for n := 0 to |p.removes|
      invariant c.sent == old(c.sent) + ws && Legal(p, ws) && OnlyRemovals(ws) && Reported(old(c.noted), c.noted, ws)
      invariant UpToDate(c.noted, ws)
      invariant links == After(p.start, ws) && Ordered(links)
      invariant old(Kept(c, pre, p.before, p.discount, p.start)) && pre.polls > 0 ==> ok && Kept(c, pre, p.before, p.discount, links)
      invariant forall x :: x in links <==> x in p.start && x !in p.removes[..n]
      invariant (forall key | key in p.removes[..n] :: key !in p.start) ==> ok && ws == [] && links == p.start && c.rowReads == old(c.rowReads)
      invariant n > 0 && p.removes[0] in p.start && Steady(c, pre, p.before, p.discount, p.start, old(c.rowReads)) ==>
                  ws != [] && ws[0].write == RemoveLink(p.discount, p.removes[0], p.start, Without(p.start, p.removes[0]))
    {
      ghost var done;
      ghost var before := ws;
      ok, links, done := RemoveOne(c, p, pre, p.removes[n], links, ws);
      ws := ws + done;
      assert c.sent == old(c.sent) + before + done;
      assert p.removes[..n + 1] == p.removes[..n] + [p.removes[n]];
      if !ok {
        return;
      }
    }
    assert p.removes[..|p.removes|] == p.removes;
  }

  lemma EmptyPlan(p: Plan)
    ensures Legal(p, []) && After(p.start, []) == p.start
  {
  }

  method AddAll(c: Cvent, p: Plan, pre: Prepared, links0: seq<Key>, ghost ws0: seq<Sent>) returns (ok: bool, links: seq<Key>, ghost ws: seq<Sent>)
    requires Legal(p, ws0) && OnlyLinks(ws0) && links0 == After(p.start, ws0) && Ordered(links0) && Serves(pre, p)
    requires (forall key | key in p.adds && key in p.start :: key in links0) && UpToDate(c.noted, ws0)
    modifies c
    ensures ws0 <= ws && c.sent == old(c.sent) + ws[|ws0|..] && Legal(p, ws) && OnlyLinks(ws)
    ensures Reported(old(c.noted), c.noted, ws[|ws0|..]) && (ok ==> UpToDate(c.noted, ws))
    ensures ok ==> links == After(p.start, ws) && Ordered(links) && forall x :: x in links <==> x in links0 || x in p.adds
    ensures (forall key | key in p.adds :: key in links0) ==> ok && ws == ws0 && links == links0 && c.rowReads == old(c.rowReads)
    ensures (exists key :: key in p.adds && key !in links0) && Steady(c, pre, p.before, p.discount, links0, old(c.rowReads)) ==>
              |ws| > |ws0| && ws[|ws0|].write.AddLink?
    ensures old(Kept(c, pre, p.before, p.discount, links0)) && pre.polls > 0 ==> ok && Kept(c, pre, p.before, p.discount, links)
  {
    hide ReadBack; hide After; hide Legal; hide Ordered; hide Steady; hide Kept; hide Serves;
    ok, links, ws := true, links0, ws0;
    assert old(c.sent) + [] == old(c.sent);
    for n := 0 to |p.adds|
      invariant ws0 <= ws && c.sent == old(c.sent) + ws[|ws0|..] && Legal(p, ws) && OnlyLinks(ws)
      invariant Reported(old(c.noted), c.noted, ws[|ws0|..]) && UpToDate(c.noted, ws)
      invariant links == After(p.start, ws) && Ordered(links)
      invariant old(Kept(c, pre, p.before, p.discount, links0)) && pre.polls > 0 ==> ok && Kept(c, pre, p.before, p.discount, links)
      invariant forall x :: x in links <==> x in links0 || x in p.adds[..n]
      invariant if forall key | key in p.adds[..n] :: key in links0
                then ok && ws == ws0 && links == links0 && c.rowReads == old(c.rowReads)
                else Steady(c, pre, p.before, p.discount, links0, old(c.rowReads)) ==> |ws| > |ws0| && ws[|ws0|].write.AddLink?
    {
      ghost var done;
      ghost var before := ws;
      ok, links, done := AddOne(c, p, pre, p.adds[n], links, ws);
      ws := ws + done;
      assert ws[|ws0|..] == before[|ws0|..] + done;
      assert p.adds[..n + 1] == p.adds[..n] + [p.adds[n]];
      if !ok {
        return;
      }
    }
    assert p.adds[..|p.adds|] == p.adds;
  }

  /** The row write, when the row differs, and its readback. */
  method WriteRow(c: Cvent, p: Plan, pre: Prepared, links: seq<Key>, expected: Row, ghost ws: seq<Sent>)
    returns (saved: Option<Row>, ghost done: seq<Sent>)
    requires Legal(p, ws) && OnlyLinks(ws) && links == After(p.start, ws) && Observed(c, pre, p.before, p.discount, links) && Serves(pre, p)
    requires UpToDate(c.noted, ws)
    modifies c
    ensures saved.Some? ==> UpToDate(c.noted, ws + done) && if done == [] then saved == Some(p.before) else c.row == saved
    ensures Business(p.before) == Business(expected) ==> done == []
    ensures Steady(c, pre, p.before, p.discount, links, old(c.rowReads)) && Business(p.before) != Business(expected) ==> |done| == 1
    ensures c.sent == old(c.sent) + done && Legal(p, ws + done) && Reported(old(c.noted), c.noted, done)
    ensures forall j | 0 <= j < |done| :: done[j].write.Update?
    ensures saved.Some? ==> Business(saved.value) == Business(expected) && c.row.Some? && Business(c.row.value) == Business(expected)
    ensures old(Kept(c, pre, p.before, p.discount, links)) && pre.polls > 0 && Written(p.before, p.body, expected) ==>
              saved.Some? && Settled(c, pre, expected, p.discount, links)
  {
    hide After; hide Legal; hide Business; hide Steady; hide Sort; hide Of; hide PutRow; hide Matched;
    done := [];
    assert ws + [] == ws;
    if Business(p.before) == Business(expected) {
      return Some(p.before), done;
    }
    var ack;
    var write := Update(p.discount, p.body);
    ack, done := Dispatch(c, write, pre.recheck, pre, p.before, p.discount, links);
    if |done| == 1 {
      assert done == [done[0]];
      ExtendPlan(p, pre, ws, done[0], write);
    } else {
      assert ws + done == ws;
    }
    if ack != Some(Identified(Some(p.discount))) {
      return None, done;
    }
    saved := AwaitRow(c, expected, pre.polls);
  }

  /** The row, once it is read back as expected. */
  method AwaitRow(c: Cvent, expected: Row, polls: nat) returns (saved: Option<Row>)
    requires Acknowledged(c.noted)
    modifies c`row, c`rowReads, c`noted, c`refused
    ensures saved.Some? ==> Business(saved.value) == Business(expected) && c.row == saved && ReadBack(c.noted)
    ensures |c.noted| <= |old(c.noted)| + polls && (saved.None? && !c.refused ==> |c.noted| == |old(c.noted)| + polls)
    ensures
      && c.Obeys() && c.world.value.row.Some? && Matched(c.world.value.row.value)
      && Business(c.world.value.row.value) == Business(expected) && polls > 0
      ==> saved.Some?
  {
    hide Business; hide Matched;
    for n := 0 to polls
      invariant Acknowledged(c.noted) && |c.noted| == |old(c.noted)| + n
      invariant c.Obeys() && c.world.value.row.Some? && Matched(c.world.value.row.value) && Business(c.world.value.row.value) == Business(expected) ==>
                  n == 0
    {
      var row := c.ReadRow();
      if row.None? {
        return None;
      }
      var ok := c.Note(Evidence(Readback, row.value.Some? && Business(row.value.value) == Business(expected), None, row.value, []));
      if !ok {
        return None;
      }
      if row.value.Some? && Business(row.value.value) == Business(expected) {
        return row.value;
      }
    }
    return None;
  }

  function NotIn(links: seq<Key>, desired: seq<Key>): (r: seq<Key>)
    ensures forall x :: x in r <==> x in links && x !in desired
    ensures (forall x | x in links :: x in desired) ==> r == []
  {
    if links == [] then [] else
      var rest := NotIn(links[1..], desired);
      assert links == [links[0]] + links[1..];
      if links[0] in desired then rest else [links[0]] + rest
  }

  predicate On(row: Row) {
    Active in row && row[Active] == Flag(true)
  }

  /** The refusals before anything is written. */
  predicate MayStart(input: Input, before: Row, links: seq<Key>, desired: seq<Key>) {
    var removed := NotIn(links, desired);
    && (removed != [] ==> removed == Sort(Removes(input)))
    && (input.removes.Some? ==>
          && Active in before && before[Active].Flag?
          && ApplyToAllAgendaItems in before && before[ApplyToAllAgendaItems] == Flag(true)
          && (removed != [] || links == desired))
    && (removed != [] && On(before) ==> exists k | 0 <= k < |links| :: links[k] in desired)
  }

  // ---- What an update is refused for, in terms of the keys alone ---------------------------------------------

  /** Some link is not among the wanted ones. */
  ghost predicate Leaving(input: Input, links: seq<Key>) {
    input.items.Some? && exists key :: key in links && key !in Adds(input)
  }

  /** Some wanted link is not there. */
  ghost predicate Missing(input: Input, links: seq<Key>) {
    exists key :: key in Adds(input) && key !in links
  }

  /** A list of removals needs an item-scoped baseline of known activity. */
  ghost predicate Removable(input: Input, before: Row) {
    input.removes.Some? ==>
      && Active in before && before[Active] in {Flag(true), Flag(false)}
      && ApplyToAllAgendaItems in before && before[ApplyToAllAgendaItems] == Flag(true)
  }

  /** The links to go are exactly the listed ones, an active discount keeps one, and no list is given in vain. */
  ghost predicate Startable(input: Input, before: Row, links: seq<Key>) {
    && Removable(input, before)
    && (Leaving(input, links) ==>
          && (forall key :: key in Removes(input) <==> key in links && key !in Adds(input))
          && (Active in before && before[Active] == Flag(true) ==> exists key :: key in links && key in Adds(input)))
    && (input.removes.Some? && !Leaving(input, links) ==> !Missing(input, links))
  }

  lemma {:induction false} NotInOrdered(links: seq<Key>, desired: seq<Key>)
    requires Ordered(links)
    ensures Ordered(NotIn(links, desired))
  {
    if links != [] {
      NotInOrdered(links[1..], desired);
      var rest := NotIn(links[1..], desired);
      forall k | 0 <= k < |rest|
        ensures Less(links[0], rest[k])
      {
        assert rest[k] in links[1..];
      }
    }
  }

  /** From the comparison of sorted lists to the keys. */
  lemma LeavingIs(input: Input, links: seq<Key>, desired: seq<Key>)
    requires ValidInput(input) && Ordered(links) && input.items.Some? && desired == Sort(Adds(input))
    ensures var removed := NotIn(links, desired);
            && (removed != [] <==> Leaving(input, links))
            && (removed == Sort(Removes(input)) <==> forall key :: key in Removes(input) <==> key in links && key !in Adds(input))
  {
    hide Sort; hide Ordered; hide ValidInput; hide Adds; hide Removes;
    NotInOrdered(links, desired);
    var removed := NotIn(links, desired);
    RemovesSorted(input);
    AddsSorted(input);
    assert removed != [] ==> removed[0] in removed;
    assert forall key :: key in removed <==> key in links && key !in Adds(input);
    if forall key :: key in Removes(input) <==> key in links && key !in Adds(input) {
      OrderedUnique(removed, Sort(Removes(input)));
    }
  }

  lemma PlacedIs(input: Input, links: seq<Key>, desired: seq<Key>)
    requires ValidInput(input) && Ordered(links) && input.items.Some? && desired == Sort(Adds(input))
    ensures links == desired <==> !Leaving(input, links) && !Missing(input, links)
    ensures (exists k :: 0 <= k < |links| && links[k] in desired) <==> exists key :: key in links && key in Adds(input)
  {
    hide Sort; hide Ordered; hide ValidInput; hide Adds;
    AddsSorted(input);
    if !Leaving(input, links) && !Missing(input, links) {
      OrderedUnique(links, desired);
    }
  }

  lemma StartsExactly(input: Input, before: Row, links: seq<Key>, desired: seq<Key>)
    requires ValidInput(input) && Ordered(links)
    requires desired == if input.items.Some? then Sort(Adds(input)) else links
    ensures MayStart(input, before, links, desired) <==> Startable(input, before, links)
    ensures links == desired <==> !Leaving(input, links) && !Missing(input, links)
  {
    hide Sort; hide Ordered; hide Leaving; hide Missing; hide ValidItems; hide Removes;
    if input.items.Some? {
      LeavingIs(input, links, desired);
      PlacedIs(input, links, desired);
      hide Adds;
    } else {
      NothingMoves(input, links);
    }
  }

  lemma NothingMoves(input: Input, links: seq<Key>)
    requires input.items.None?
    ensures !Leaving(input, links) && !Missing(input, links)
  {
  }

  lemma RemovesSorted(input: Input)
    requires ValidInput(input)
    ensures Ordered(Sort(Removes(input))) && forall key :: key in Sort(Removes(input)) <==> key in Removes(input)
  {
    hide Sort; hide Ordered;
    if input.removes.Some? {
      ItemKeysAreDistinct(input.removes.value);
    }
    SortOrdered(Removes(input));
    SortMembers(Removes(input));
  }

  lemma AddsSorted(input: Input)
    requires ValidInput(input) && input.items.Some?
    ensures Ordered(Sort(Adds(input))) && forall key :: key in Sort(Adds(input)) <==> key in Adds(input)
  {
    hide Sort; hide Ordered;
    ItemKeysAreDistinct(input.items.value);
    SortOrdered(Adds(input));
    SortMembers(Adds(input));
  }

  lemma StartFacts(input: Input, before: Row, links: seq<Key>, desired: seq<Key>)
    requires ValidInput(input) && Ordered(links) && Startable(input, before, links)
    requires desired == if input.items.Some? then Sort(Adds(input)) else links
    ensures Ordered(desired)
    ensures input.items.Some? ==> forall x :: x in desired <==> x in Adds(input)
    ensures forall x | x in links :: x in desired || x in Removes(input)
    ensures forall x | x in Removes(input) :: x !in desired
    ensures On(before) && (exists x :: x in links && x in Removes(input)) ==> exists x :: x in links && x !in Removes(input)
  {
    hide Sort; hide Ordered; hide ValidItems;
    if input.items.Some? {
      AddsSorted(input);
      if input.removes.Some? {
        DisjointItemsHaveDisjointKeys(input.removes.value, input.items.value);
      }
    }
  }

  /** After both loops the links are the wanted ones. */
  lemma EndsAtDesired(input: Input, start: seq<Key>, kept: seq<Key>, links: seq<Key>, desired: seq<Key>)
    requires Ordered(links) && Ordered(desired)
    requires forall x :: x in kept <==> x in start && x !in Removes(input)
    requires forall x :: x in links <==> x in kept || x in Adds(input)
    requires forall x | x in start :: x in desired || x in Removes(input)
    requires forall x | x in Removes(input) :: x !in desired
    requires if input.items.Some? then forall x :: x in desired <==> x in Adds(input) else desired == start
    ensures links == desired
  {
    OrderedUnique(links, desired);
  }

  /** There is something to write, and nothing to refuse. */
  ghost predicate Due(input: Input, p: Plan) {
    && Startable(input, p.before, p.start)
    && (Leaving(input, p.start) || Missing(input, p.start) || Business(p.before) != Business(Expected(p.before, p.body, input.patch)))
  }

  /** What is written first: the first listed removal, or else a missing link, or else the row. */
  ghost predicate Leads(input: Input, p: Plan, w: Write) {
    if Leaving(input, p.start) then
      && Removes(input) != []
      && w == RemoveLink(p.discount, Removes(input)[0], p.start, Without(p.start, Removes(input)[0]))
    else if Missing(input, p.start) then
      w.AddLink? && w.discount == p.discount && w.key in Adds(input) && w.key !in p.start && w.existing == p.start
    else w == Update(p.discount, p.body)
  }

  /** A remote that does what it is told, and so far holds this row and associations without duplicates. */
  ghost predicate Willing(c: Cvent, event: EventData, before: Row, id: string)
    reads c`world
  {
    && c.Obeys() && c.world.value.event == event && c.world.value.row == Some(before) && Matched(before)
    && Distinct(Of(c.world.value.links, id))
  }

  /** The links the update starts from. */
  method FirstLinks(c: Cvent, event: EventData, before: Row, id: string) returns (found: Option<seq<Key>>)
    modifies c`links, c`rechecked, c`refused
    ensures found.Some? ==> Ordered(found.value) && c.links == Some(Links(id, found.value))
    ensures c.Shows(event, before, c.rowReads) ==> found == Some(c.LinksOf(id))
    ensures Willing(c, event, before, id) ==> found == Some(Sort(Of(c.world.value.links, id)))
  {
    hide Sort; hide Of; hide Matched; hide Ordered;
    found := c.DiscountLinks(id);
  }

  /** What is fixed for the whole update: the event, and for an item list the items' catalog. */
  method Fix(c: Cvent, input: Input, event: EventData, before: Row, id: string, start: seq<Key>, polls: nat) returns (pre: Option<Prepared>)
    modifies c`items, c`refused
    ensures pre.Some? ==>
              pre.value == Prepared(event, pre.value.catalog, input.removes.Some?, polls) && (pre.value.catalog.Some? <==> input.items.Some?)
    ensures c.Shows(event, before, c.rowReads) && start == c.LinksOf(id) ==> pre.Some? && Steady(c, pre.value, before, id, start, c.rowReads)
    ensures Willing(c, event, before, id) && start == Sort(Of(c.world.value.links, id)) ==> pre.Some? && Kept(c, pre.value, before, id, start)
  {
    hide Sort; hide Of; hide Matched;
    pre := Some(Prepared(event, None, input.removes.Some?, polls));
    if input.items.Some? {
      var catalog := c.Catalog();
      if catalog.None? {
        return None;
      }
      pre := Some(pre.value.(catalog := catalog));
    }
  }

  /**
   * Against any behaviour of the remote: the writes always follow the plan, and success means the links last
   * observed are exactly the wanted ones and the saved row is the expected one. A remote that refuses nothing and
   * goes on showing what it showed receives the first write exactly when one is due.
   */
  method UpdateDiscount(c: Cvent, input: Input, event: EventData, before: Row, id: string, prepared: Row, polls: nat)
    returns (r: Result<Row, Problem>, ghost p: Plan, ghost ws: seq<Sent>)
    requires ValidInput(input)
    modifies c
    ensures c.sent == old(c.sent) + ws && Legal(p, ws) && Ordered(p.start)
    ensures p.discount == id && p.before == before && p.adds == Adds(input) && p.removes == Removes(input)
    ensures p.body == Scoped(prepared, input.items.Some?)
    ensures p.event == event && (ws != [] && input.items.Some? ==> p.items.Some?)
    ensures Reported(old(c.noted), c.noted, ws) && (r.Ok? ==> UpToDate(c.noted, ws))
    ensures r.Ok? && ws != [] ==> Reread(c, Expected(before, p.body, input.patch), p.items)
    ensures ws != [] ==> KeepsSome(p)
    ensures ws != [] || r.Ok? ==> Startable(input, before, p.start)
    ensures ws != [] && input.removes.Some? ==>
              && Active in before && before[Active].Flag?
              && ApplyToAllAgendaItems in before && before[ApplyToAllAgendaItems] == Flag(true)
    ensures r == Err(Mismatch) ==> ws == [] && !Startable(input, before, p.start)
    ensures r.Ok? ==>
              && c.links == Some(Links(id, if input.items.Some? then Sort(Adds(input)) else p.start))
              && Business(r.value) == Business(Expected(before, p.body, input.patch))
    ensures c.Shows(event, before, old(c.rowReads)) ==>
              && p.start == c.LinksOf(id) && (r == Err(Mismatch) <==> !Startable(input, before, p.start))
              && (ws != [] <==> Due(input, p)) && (ws != [] ==> Leads(input, p, ws[0].write))
              && (input.items.None? && Due(input, p) ==> |ws| == 1)
    ensures old(Willing(c, event, before, id)) && polls > 0 && Written(before, p.body, Expected(before, p.body, input.patch)) ==>
              p.start == old(Sort(Of(c.world.value.links, id))) && (r.Ok? <==> Startable(input, before, p.start))
  {
    hide ReadBack; hide Reread; hide After; hide Legal; hide Business; hide Expected; hide Scoped; hide MayStart; hide Sort; hide Ordered; hide ValidItems;
    hide Startable; hide Without; hide Written; hide Matched; hide Willing; hide Kept; hide Steady; hide Of; hide Leads; hide Adds; hide Removes;
    hide Leaving; hide Missing;
    var body := Scoped(prepared, input.items.Some?);
    var plan := Plan(id, before, [], Adds(input), Removes(input), body, event, None);
    p, ws := plan, [];
    EmptyPlan(p);
    NoKeysOrdered();
    assert old(c.sent) + [] == old(c.sent);
    var found := FirstLinks(c, event, before, id);
    if found.None? {
      return Err(ReadFailed), p, ws;
    }
    var start := found.value;
    var desired := if input.items.Some? then Sort(Adds(input)) else start;
    plan := plan.(start := start);
    p := plan;
    EmptyPlan(p);
    StartsExactly(input, before, start, desired);
    if !MayStart(input, before, start, desired) {
      return Err(Mismatch), p, ws;
    }
    StartFacts(input, before, start, desired);
    NotBoth(input);
    StartIsRemovable(input, before, start);
    var fixed := Fix(c, input, event, before, id, start, polls);
    if fixed.None? {
      return Err(ReadFailed), p, ws;
    }
    var pre := fixed.value;
    plan := plan.(items := pre.catalog);
    p := plan;
    EmptyPlan(p);
    var expected := Expected(before, body, input.patch);
    if Business(before) == Business(expected) && start == desired {
      return Ok(before), p, ws;
    }
    ghost var count := c.rowReads;
    r, ws := MoveLinksAndRow(c, input, plan, pre, desired, expected);
    assert KeepsSome(p);
    if Steady(c, pre, before, id, start, count) {
      LedBy(input, plan, ws);
    }
  }

  lemma StartIsRemovable(input: Input, before: Row, links: seq<Key>)
    requires Startable(input, before, links)
    ensures input.removes.Some? ==>
              && Active in before && before[Active].Flag?
              && ApplyToAllAgendaItems in before && before[ApplyToAllAgendaItems] == Flag(true)
  {
  }

  /** Removals, then additions, from the accepted start to the wanted links. */
  method MoveLinks(c: Cvent, input: Input, p: Plan, pre: Prepared, desired: seq<Key>)
    returns (ok: bool, ghost ws: seq<Sent>)
    requires Ordered(p.start) && Ordered(desired) && p.adds == Adds(input) && p.removes == Removes(input) && Serves(pre, p)
    requires forall x | x in p.start :: x in desired || x in p.removes
    requires forall x | x in p.removes :: x !in desired
    requires if input.items.Some? then forall x :: x in desired <==> x in p.adds else desired == p.start
    modifies c
    ensures c.sent == old(c.sent) + ws && Legal(p, ws) && OnlyLinks(ws) && Reported(old(c.noted), c.noted, ws)
    ensures ok ==> desired == After(p.start, ws) && UpToDate(c.noted, ws)
    ensures old(Kept(c, pre, p.before, p.discount, p.start)) && pre.polls > 0 ==> ok && Kept(c, pre, p.before, p.discount, desired)
    ensures Placed(p) ==> ok && ws == [] && c.rowReads == old(c.rowReads)
    ensures Steady(c, pre, p.before, p.discount, p.start, old(c.rowReads)) ==> Moves(p, ws)
  {
    hide ReadBack; hide After; hide Legal; hide Ordered; hide Adds; hide Removes; hide Steady; hide Without; hide Kept; hide Serves;
    var kept, links;
    ghost var removed;
    ok, kept, removed := RemoveAll(c, p, pre);
    ws := removed;
    if !ok {
      return;
    }
    ok, links, ws := AddAll(c, p, pre, kept, removed);
    assert ws == removed + ws[|removed|..];
    if ok {
      EndsAtDesired(input, p.start, kept, links, desired);
    }
  }

  /** Nothing listed is linked, and everything wanted is. */
  ghost predicate Placed(p: Plan) {
    (forall key | key in p.removes :: key !in p.start) && (forall key | key in p.adds :: key in p.start)
  }

  /** How the moves begin on a remote that refuses nothing. */
  ghost predicate Moves(p: Plan, ws: seq<Sent>) {
    && (p.removes != [] && p.removes[0] in p.start ==>
          ws != [] && ws[0].write == RemoveLink(p.discount, p.removes[0], p.start, Without(p.start, p.removes[0])))
    && ((forall key | key in p.removes :: key !in p.start) && (exists key :: key in p.adds && key !in p.start) ==>
          ws != [] && ws[0].write.AddLink?)
  }

  lemma LedBy(input: Input, p: Plan, ws: seq<Sent>)
    requires ValidInput(input) && Startable(input, p.before, p.start) && p.adds == Adds(input) && p.removes == Removes(input)
    requires Legal(p, ws) && Moves(p, ws)
    requires Placed(p) ==> |ws| == 1 && ws[0].write.Update?
    ensures ws != [] && Leads(input, p, ws[0].write)
    ensures input.items.None? ==> |ws| == 1
  {
    hide ValidItems; hide After; hide Business; hide Without; hide Adds; hide Removes; hide Removable;
    NotBoth(input);
    if Leaving(input, p.start) {
      var key :| key in p.start && key !in Adds(input);
      assert key in Removes(input) && Removes(input)[0] in Removes(input);
    } else if Missing(input, p.start) {
      assert p.removes == [];
      var key :| key in Adds(input) && key !in p.start;
      assert key in p.adds;
      FirstIsLegal(p, ws);
    } else {
      assert Placed(p);
      FirstIsLegal(p, ws);
    }
  }

  /** Nothing is both wanted and to be removed; nothing is wanted or to be removed without a list. */
  lemma NotBoth(input: Input)
    requires ValidInput(input)
    ensures forall key | key in Removes(input) :: key !in Adds(input)
    ensures (input.items.None? ==> Adds(input) == []) && (input.removes.None? ==> Removes(input) == [])
    ensures input.items.None? ==> Removes(input) == []
  {
    hide ValidItems;
    if input.removes.Some? {
      DisjointItemsHaveDisjointKeys(input.removes.value, input.items.value);
    }
  }

  lemma FirstIsLegal(p: Plan, ws: seq<Sent>)
    requires Legal(p, ws) && ws != []
    ensures AsRequested(p, p.start, ws[0])
  {
    hide AsRequested;
    assert WriteLegal(p, ws, 0);
    assert ws[..0] == [];
  }

  /** From the accepted start: removals, additions, the row, and the last reads. */
  method MoveLinksAndRow(c: Cvent, input: Input, p: Plan, pre: Prepared, desired: seq<Key>, expected: Row)
    returns (r: Result<Row, Problem>, ghost ws: seq<Sent>)
    requires Ordered(p.start) && Ordered(desired) && p.adds == Adds(input) && p.removes == Removes(input) && Serves(pre, p)
    requires forall x | x in p.start :: x in desired || x in p.removes
    requires forall x | x in p.removes :: x !in desired
    requires if input.items.Some? then forall x :: x in desired <==> x in p.adds else desired == p.start
    requires Business(p.before) != Business(expected) || p.start != desired
    modifies c
    ensures c.sent == old(c.sent) + ws && Legal(p, ws) && Reported(old(c.noted), c.noted, ws)
    ensures r.Ok? ==> UpToDate(c.noted, ws) && Reread(c, expected, p.items)
    ensures r.Ok? ==> c.links == Some(Links(p.discount, desired)) && Business(r.value) == Business(expected)
    ensures r != Err(Mismatch)
    ensures Steady(c, pre, p.before, p.discount, p.start, old(c.rowReads)) ==>
              Moves(p, ws) && (Placed(p) ==> |ws| == 1 && ws[0].write.Update?)
    ensures old(Kept(c, pre, p.before, p.discount, p.start)) && pre.polls > 0 && Written(p.before, p.body, expected) ==> r.Ok?
  {
    hide ReadBack; hide Reread; hide After; hide Legal; hide Business; hide Ordered; hide Adds; hide Removes; hide Steady;
    hide Without; hide Kept; hide Written; hide Serves;
    var ok;
    ghost var moved;
    ok, moved := MoveLinks(c, input, p, pre, desired);
    ws := moved;
    if Placed(p) {
      PlacedIsDesired(input, p, desired);
    }
    if !ok {
      return Err(NotVerified), ws;
    }
    r, ws := WriteAndConfirm(c, input, p, pre, desired, expected, moved);
    assert ws == moved + ws[|moved|..];
  }

  lemma PlacedIsDesired(input: Input, p: Plan, desired: seq<Key>)
    requires Ordered(p.start) && Ordered(desired) && Placed(p)
    requires forall x | x in p.start :: x in desired || x in p.removes
    requires if input.items.Some? then forall x :: x in desired <==> x in p.adds else desired == p.start
    ensures p.start == desired
  {
    hide Ordered;
    OrderedUnique(p.start, desired);
  }

  /** With every link in place: recheck the baseline, write the row and read it all back. */
  method WriteAndConfirm(c: Cvent, input: Input, p: Plan, pre: Prepared, links: seq<Key>, expected: Row, ghost before: seq<Sent>)
    returns (r: Result<Row, Problem>, ghost ws: seq<Sent>)
    requires Legal(p, before) && OnlyLinks(before) && links == After(p.start, before) && Serves(pre, p) && UpToDate(c.noted, before)
    modifies c
    ensures r.Ok? ==> UpToDate(c.noted, ws) && Reread(c, expected, p.items)
    ensures before <= ws && c.sent == old(c.sent) + ws[|before|..] && Legal(p, ws) && Reported(old(c.noted), c.noted, ws[|before|..])
    ensures r.Ok? ==> c.links == Some(Links(p.discount, links)) && Business(r.value) == Business(expected)
    ensures r != Err(Mismatch)
    ensures Steady(c, pre, p.before, p.discount, links, old(c.rowReads)) && Business(p.before) != Business(expected) ==>
              |ws| == |before| + 1 && ws[|before|].write.Update?
    ensures old(Kept(c, pre, p.before, p.discount, links)) && pre.polls > 0 && Written(p.before, p.body, expected) ==> r.Ok?
  {
    hide ReadBack; hide Reread; hide After; hide Legal; hide Business; hide Steady; hide Kept; hide Written; hide Settled;
    ws := before;
    ghost var count := c.rowReads;
    var ok := AssertBaseline(c, pre, p.before, p.discount, links);
    if !ok {
      return Err(Changed), ws;
    }
    if Steady(c, pre, p.before, p.discount, links, count) {
      StaysSteady(c, pre, p.before, p.discount, links, count, c.rowReads);
    }
    var saved;
    ghost var done;
    saved, done := WriteRow(c, p, pre, links, expected, before);
    ws := before + done;
    assert ws[|before|..] == done;
    if saved.None? {
      return Err(NotVerified), ws;
    }
    r := Confirm(c, input, pre, p.discount, links, expected, saved.value);
  }

  /** Removing anything from an active discount leaves at least one of the links it had. */
  ghost predicate KeepsSome(p: Plan) {
    On(p.before) && (exists key :: key in p.start && key in p.removes) ==> exists key :: key in p.start && key !in p.removes
  }

  /** The row as expected, the items as they were, and the target, all read after the last write. */
  ghost predicate Reread(c: Cvent, expected: Row, items: Option<Catalog>)
    reads c
  {
    c.row.Some? && Business(c.row.value) == Business(expected) && c.event.Some? && (items.Some? ==> c.items == items)
  }

  /** The last reads: links and items once more, and for a replacement the row as well. */
  method Confirm(c: Cvent, input: Input, pre: Prepared, id: string, links: seq<Key>, expected: Row, saved: Row) returns (r: Result<Row, Problem>)
    requires Business(saved) == Business(expected) && c.row.Some? && Business(c.row.value) == Business(expected)
    modifies c`links, c`row, c`rechecked, c`rowReads, c`event, c`items, c`refused
    ensures r != Err(Mismatch)
    ensures r.Ok? ==> c.links == Some(Links(id, links)) && Business(r.value) == Business(expected) && Reread(c, expected, pre.catalog)
    ensures r.Ok? ==> if input.removes.Some? then c.row == Some(r.value) else r.value == saved
    ensures Settled(c, pre, expected, id, links) ==> r.Ok?
  {
    hide Business; hide Sort; hide Of; hide Matched;
    var final := c.DiscountLinks(id);
    if final != Some(links) {
      return Err(Changed);
    }
    if pre.catalog.Some? {
      var catalog := c.Catalog();
      if catalog != pre.catalog {
        return Err(Changed);
      }
    }
    r := Ok(saved);
    if input.removes.Some? {
      var row := c.ReadRow();
      if row.None? || row.value.None? || Business(row.value.value) != Business(expected) {
        return Err(Changed);
      }
      r := Ok(row.value.value);
    }
    var target := c.AssertTarget();
    if target.None? {
      return Err(Changed);
    }
  }

  lemma NoKeysOrdered()
    ensures Ordered([])
  {
  }

  /** An active discount from which anything is removed has links at every moment of the update. */
  lemma ActiveDiscountIsNeverEmptied(p: Plan, ws: seq<Sent>, i: nat)
    requires Legal(p, ws) && Ordered(p.start) && i <= |ws|
    requires KeepsSome(p) && exists j :: 0 <= j < |ws| && ws[j].write.RemoveLink?
    requires On(p.before)
    ensures After(p.start, ws[..i]) != []
  {
    var j :| 0 <= j < |ws| && ws[j].write.RemoveLink?;
    assert WriteLegal(p, ws, j);
    assert ws[j].write.key in p.start && ws[j].write.key in p.removes;
    NeverEmptied(p, ws);
  }

  // ---- A remote that does what it is told holds what the adapter expects ------------------------------------------

  lemma PutField(before: Row, body: Row, patch: Row, items: bool, f: Field)
    requires FieldCarried(body, before, patch, f) && (f in patch ==> f in PATCHED) && f != Capacity
    ensures var put, expected := Business(PutRow(before, Scoped(body, items))), Business(Expected(before, Scoped(body, items), patch));
            (f in put <==> f in expected) && (f in put ==> put[f] == expected[f])
  {
    hide CapacityOf;
    FieldsAreListed(f);
  }

  lemma PutCapacity(before: Row, body: Row, patch: Row, items: bool)
    requires Capacity in body
    ensures var put, expected := Business(PutRow(before, Scoped(body, items))), Business(Expected(before, Scoped(body, items), patch));
            Capacity in put && Capacity in expected && put[Capacity] == expected[Capacity]
  {
  }

  lemma PutMatches(before: Row, body: Row, patch: Row, items: bool)
    requires Matched(before) && FieldCarried(body, before, patch, Type) && FieldCarried(body, before, patch, Code)
    requires FieldCarried(body, before, patch, Id) && FieldCarried(body, before, patch, Level)
    requires Type !in patch && Code !in patch
    ensures Matched(PutRow(before, Scoped(body, items)))
  {
    hide CapacityOf;
  }

  /** A PUT of a prepared body leaves exactly what the adapter expects to read back. */
  lemma PutIsExpected(before: Row, body: Row, patch: Row, items: bool)
    requires Matched(before) && (forall f | f in patch :: f in PATCHED) && Carries(body, before, patch)
    ensures Written(before, Scoped(body, items), Expected(before, Scoped(body, items), patch))
  {
    hide Business; hide PutRow; hide Expected; hide Scoped; hide FieldCarried; hide Matched;
    var put, expected := Business(PutRow(before, Scoped(body, items))), Business(Expected(before, Scoped(body, items), patch));
    forall f
      ensures (f in put <==> f in expected) && (f in put ==> put[f] == expected[f])
    {
      if f == Capacity {
        PutCapacity(before, body, patch, items);
      } else {
        FieldOf(body, before, patch, f);
        PutField(before, body, patch, items, f);
      }
    }
    assert put == expected;
    FieldOf(body, before, patch, Type);
    FieldOf(body, before, patch, Code);
    FieldOf(body, before, patch, Id);
    FieldOf(body, before, patch, Level);
    PutMatches(before, body, patch, items);
  }
}
