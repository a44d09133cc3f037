/** Creating a discount, and the complete initial configuration of an item-scoped one. */
module DiscountCreate {
  import opened Wrappers
  import opened LinkKeys
  import opened DiscountBody
  import opened WriteEvidence
  import opened Remote
  import opened Reconcile
  import opened DiscountUpdate

  /** Used to read, and so validate, the whole association catalog before anything is created. */
  const SENTINEL := "00000000-0000-0000-0000-000000000000"

  predicate IncludesValue(actual: Value, expected: Value) {
    match expected
    case Object(fields) =>
      actual.Object? && forall k | k in fields :: k in actual.fields && IncludesValue(actual.fields[k], fields[k])
    case List(items) =>
      actual.List? && |actual.items| == |items| && forall k | 0 <= k < |items| :: IncludesValue(actual.items[k], items[k])
    case _ => actual == expected
  }

  datatype Hop = Named(key: string) | Numbered(k: nat)

  /** What is found on a path into a value. */
  function At(v: Value, path: seq<Hop>): Option<Value> {
    if path == [] then Some(v)
    else if path[0].Named? then
      if v.Object? && path[0].key in v.fields then At(v.fields[path[0].key], path[1..]) else None
    else if v.List? && path[0].k < |v.items| then At(v.items[path[0].k], path[1..])
    else None
  }

  /** The same scalar, any object for an object, and a list of the same length for a list. */
  ghost predicate Alike(actual: Value, expected: Value) {
    if expected.Object? then actual.Object?
    else if expected.List? then actual.List? && |actual.items| == |expected.items|
    else actual == expected
  }

  lemma {:induction false} IncludedAt(actual: Value, expected: Value, path: seq<Hop>)
    requires IncludesValue(actual, expected) && At(expected, path).Some?
    ensures At(actual, path).Some? && Alike(At(actual, path).value, At(expected, path).value)
    decreases |path|
  {
    if path != [] {
      if path[0].Named? {
        IncludedAt(actual.fields[path[0].key], expected.fields[path[0].key], path[1..]);
      } else {
        IncludedAt(actual.items[path[0].k], expected.items[path[0].k], path[1..]);
      }
    }
  }

  ghost predicate AlikeThroughout(actual: Value, expected: Value) {
    forall path :: At(expected, path).Some? ==> At(actual, path).Some? && Alike(At(actual, path).value, At(expected, path).value)
  }

  lemma AlikeBelow(actual: Value, expected: Value, hop: Hop)
    requires AlikeThroughout(actual, expected) && At(expected, [hop]).Some?
    ensures At(actual, [hop]).Some? && AlikeThroughout(At(actual, [hop]).value, At(expected, [hop]).value)
  {
    hide Alike;
    forall path | At(At(expected, [hop]).value, path).Some?
      ensures At(At(actual, [hop]).value, path).Some?
      ensures Alike(At(At(actual, [hop]).value, path).value, At(At(expected, [hop]).value, path).value)
    {
      assert ([hop] + path)[1..] == path;
      assert At(expected, [hop] + path).Some?;
    }
  }

  lemma {:induction false} AlikeIncludes(actual: Value, expected: Value)
    requires AlikeThroughout(actual, expected)
    ensures IncludesValue(actual, expected)
  {
    hide AlikeThroughout;
    AlikeAtTop(actual, expected);
    if expected.Object? {
      forall key | key in expected.fields
        ensures key in actual.fields && IncludesValue(actual.fields[key], expected.fields[key])
      {
        AlikeBelow(actual, expected, Named(key));
        AlikeIncludes(actual.fields[key], expected.fields[key]);
      }
    } else if expected.List? {
      forall k | 0 <= k < |expected.items|
        ensures IncludesValue(actual.items[k], expected.items[k])
      {
        AlikeBelow(actual, expected, Numbered(k));
        AlikeIncludes(actual.items[k], expected.items[k]);
      }
    }
  }

  lemma AlikeAtTop(actual: Value, expected: Value)
    requires AlikeThroughout(actual, expected)
    ensures Alike(actual, expected)
  {
    assert At(expected, []).Some?;
  }

  /** A readback is accepted exactly if everything requested is found in its place. */
  lemma IncludesIs(actual: Value, expected: Value)
    ensures IncludesValue(actual, expected) <==> AlikeThroughout(actual, expected)
  {
    hide IncludesValue;
    if IncludesValue(actual, expected) {
      forall path | At(expected, path).Some?
        ensures At(actual, path).Some? && Alike(At(actual, path).value, At(expected, path).value)
      {
        IncludedAt(actual, expected, path);
      }
    }
    if AlikeThroughout(actual, expected) {
      AlikeIncludes(actual, expected);
    }
  }

  /** The saved row carries every requested field. */
  predicate Includes(actual: Row, expected: Row) {
    forall f | f in expected :: f in actual && IncludesValue(actual[f], expected[f])
  }

  predicate DatesCleared(row: Row, patch: Row) {
    forall f | f in patch && Date(f) && patch[f] == Null :: f !in row || row[f] == Null
  }

  /** A date that was to be cleared is gone, or null. */
  lemma ClearedIs(row: Row, patch: Row)
    ensures DatesCleared(row, patch) <==>
            (EffectiveFrom in patch && patch[EffectiveFrom] == Null ==> !Present(row, EffectiveFrom))
            && (EffectiveTo in patch && patch[EffectiveTo] == Null ==> !Present(row, EffectiveTo))
  {
    forall f | Date(f)
      ensures f == EffectiveFrom || f == EffectiveTo
    {
    }
  }

  /** No readback matched so far. */
  ghost predicate Unmatched(noted: seq<Evidence>) {
    forall k | 0 <= k < |noted| :: !noted[k].matched
  }

  /** The created row was reported, by its identity, as the last evidence and the first that matched. */
  ghost predicate Announced(noted: seq<Evidence>, id: string, row: Row) {
    |noted| >= 2 && noted[0] == OTHER && Unmatched(noted[..|noted| - 1]) && noted[|noted| - 1] == Evidence(Readback, true, Some(id), Some(row), [])
  }

  /** So was the set of its links. */
  ghost predicate Confirmed(noted: seq<Evidence>, id: string, links: seq<Key>) {
    |noted| >= 2 && noted[0] == OTHER && Unmatched(noted[..|noted| - 1]) && noted[|noted| - 1] == Evidence(LinkReadback, true, Some(id), None, links)
  }

  /** The row a POST makes is the one asked for, as far as the adapter looks. */
  ghost predicate Born(w: World, body: Row, patch: Row) {
    var row := NewRow(body, w.nextId);
    Matched(row) && IdOf(row) == Some(w.nextId) && Includes(row, body) && DatesCleared(row, patch)
  }

  /** The row there is, is the one asked for. */
  ghost predicate Shown(row: Option<Row>, id: string, body: Row, patch: Row) {
    row.Some? && Matched(row.value) && IdOf(row.value) == Some(id) && Includes(row.value, body) && DatesCleared(row.value, patch)
  }

  /** A remote that does what it is told and has no such row. */
  ghost predicate Vacant(c: Cvent, event: EventData)
    reads c`world
  {
    c.Obeys() && c.world.value.event == event && c.world.value.row.None?
  }

  /** One POST on a fresh, unchanged catalog without the identity, and its acknowledgment. */
  method PostNew(c: Cvent, event: EventData, body: Row) returns (r: Result<string, Problem>, ghost done: seq<Sent>)
    modifies c
    ensures c.sent == old(c.sent) + done && |done| <= 1 && (r.Ok? ==> |done| == 1 && c.noted == [OTHER])
    ensures |done| == 1 ==> done[0].write == Write.Create(body) && done[0].row == Some(map[]) && done[0].event == Some(event) && done[0].cleared
    ensures Reported(old(c.noted), c.noted, done)
    ensures old(Vacant(c, event)) ==>
              var w := old(c.world).value; r == Ok(w.nextId) && c.world == Some(Applied(w, Write.Create(body)))
  {
    hide NewRow; hide Matched;
    done := [];
    var ok := c.Authenticate();
    if !ok {
      return Err(ReadFailed), done;
    }
    var current := c.AssertTarget();
    if current != Some(event) {
      return Err(Changed), done;
    }
    var latest := c.ReadRow();
    if latest.None? || latest.value.Some? {
      return Err(Changed), done;
    }
    ok := c.Gate(Write.Create(body));
    if !ok {
      return Err(GateRefused), done;
    }
    var ack := c.Send(Write.Create(body));
    done := [c.sent[|c.sent| - 1]];
    if ack.None? {
      return Err(WriteUncertain), done;
    }
    ok := c.Note(OTHER);
    if !ok || !ack.value.Identified? || ack.value.id.None? {
      return Err(WriteUncertain), done;
    }
    return Ok(ack.value.id.value), done;
  }

  /** The creation of a row: the POST, then readback by identity and in full. */
  method Create(c: Cvent, input: Input, event: EventData, body: Row, polls: nat) returns (r: Result<(string, Row), Problem>, ghost done: seq<Sent>)
    modifies c
    ensures c.sent == old(c.sent) + done && |done| <= 1
    ensures |done| == 1 ==> done[0].write == Write.Create(body) && done[0].row == Some(map[]) && done[0].event == Some(event) && done[0].cleared
    ensures Reported(old(c.noted), c.noted, done)
    ensures r.Ok? ==> Announced(c.noted, r.value.0, r.value.1) && c.row == Some(r.value.1) && c.event.Some?
    ensures old(Vacant(c, event)) && polls > 0 && Born(old(c.world).value, body, input.patch) ==>
              var w := old(c.world).value; r == Ok((w.nextId, NewRow(body, w.nextId))) && c.world == Some(Applied(w, Write.Create(body)))
    ensures r.Ok? ==> |done| == 1 && IdOf(r.value.1) == Some(r.value.0) && Includes(r.value.1, body) && DatesCleared(r.value.1, input.patch)
  {
    hide NewRow; hide Includes; hide DatesCleared; hide Matched; hide Announced;
    var posted;
    posted, done := PostNew(c, event, body);
    if posted.Err? {
      return Err(posted.error), done;
    }
    var unknown := c.Unknown(posted.value);
    if !unknown {
      return Err(WriteUncertain), done;
    }
    var row := AwaitCreated(c, posted.value, body, input.patch, polls);
    return if row.Some? then Ok((posted.value, row.value)) else Err(NotVerified), done;
  }

  /** The catalog shows the code under another identity. */
  ghost predicate Astray(row: Option<Row>, id: string) {
    row.Some? && IdOf(row.value).Some? && IdOf(row.value) != Some(id)
  }

  lemma AcknowledgedStill(noted: seq<Evidence>, e: Evidence)
    requires Acknowledged(noted)
    ensures !e.matched ==> Acknowledged(noted + [e])
    ensures forall id, row :: e == Evidence(Readback, true, Some(id), Some(row), []) ==> Announced(noted + [e], id, row)
  {
    assert (noted + [e])[..|noted|] == noted;
  }

  lemma MatchedHasId(row: Row)
    requires Matched(row)
    ensures IdOf(row).Some?
  {
  }

  /** The created row, once it is found both by its identity and in the full catalog. */
  method AwaitCreated(c: Cvent, id: string, body: Row, patch: Row, polls: nat) returns (row: Option<Row>)
    requires Acknowledged(c.noted)
    modifies c`row, c`rowReads, c`noted, c`event, c`refused
    ensures row.Some? ==> Announced(c.noted, id, row.value) && IdOf(row.value) == Some(id) && Includes(row.value, body) && DatesCleared(row.value, patch)
    ensures row.Some? ==> c.row == row && c.event.Some?
    ensures |c.noted| <= |old(c.noted)| + polls
    ensures row.None? && !c.refused ==> |c.noted| == |old(c.noted)| + polls || Astray(c.row, id)
    ensures c.Obeys() && Shown(c.world.value.row, id, body, patch) && polls > 0 ==> row == c.world.value.row
  {
    hide Includes; hide DatesCleared; hide Matched; hide IdOf; hide Acknowledged; hide Announced;
    for n := 0 to polls
      invariant Acknowledged(c.noted) && |c.noted| == |old(c.noted)| + n && (c.Obeys() && Shown(c.world.value.row, id, body, patch) ==> n == 0)
    {
      var found := c.ReadById(id);
      if found.None? {
        return None;
      }
      var matched := found.value.Some? && Includes(found.value.value, body) && DatesCleared(found.value.value, patch);
      if matched {
        var full := c.ReadRow();
        if full.Some? && full.value.Some? {
          MatchedHasId(full.value.value);
        }
        if full.None? || (full.value.Some? && IdOf(full.value.value) != Some(id)) {
          return None;
        }
        if full.value.Some? && Includes(full.value.value, body) && DatesCleared(full.value.value, patch) {
          AcknowledgedStill(c.noted, Evidence(Readback, true, Some(id), full.value, []));
          var ok := c.Note(Evidence(Readback, true, Some(id), full.value, []));
          if !ok {
            return None;
          }
          var target := c.AssertTarget();
          if target.None? {
            return None;
          }
          return full.value;
        }
      }
      AcknowledgedStill(c.noted, Evidence(Readback, false, Some(id), found.value, []));
      var ok := c.Note(Evidence(Readback, false, Some(id), found.value, []));
      if !ok {
        return None;
      }
    }
    return None;
  }

  // ---- The lifecycle of an item-scoped discount ----------------------------------------------------

  datatype Birth = Birth(id: string, keys: seq<Key>, baseline: Row, first: Row, last: Row, event: EventData, items: Catalog)

  /** What the caller was told of between write `i` and the one before it. */
  ghost predicate Told(b: Birth, noted: seq<Evidence>, i: nat)
    requires 1 <= i <= |b.keys| + 1
  {
    if i == 1 then Announced(noted, b.id, b.baseline) else Confirmed(noted, b.id, Sort(b.keys[..i - 1]))
  }

  /**
   * The writes in order: the inactive creation on an absent identity; each link on the created row with exactly
   * the earlier links; and the finalisation on the created row with all of them. Before each of these the caller was
   * told of what it relies on.
   */
  ghost predicate StepOfBirth(b: Birth, s: Sent, i: nat) {
    s.cleared &&
    if i == 0 then
      && s.write == Write.Create(b.first) && Active in b.first && b.first[Active] == Flag(false)
      && s.row == Some(map[]) && s.event == Some(b.event)
    else
      && s.row.Some? && Business(s.row.value) == Business(b.baseline) && s.event.Some? && s.items == Some(b.items)
      && i <= |b.keys| + 1 && IdOf(s.row.value) == Some(b.id)
      && s.links == Some(Links(b.id, Sort(b.keys[..i - 1])))
      && s.write == (if i <= |b.keys| then LinkNew(b.id, b.keys[i - 1]) else Finalize(b.id, b.last))
      && Told(b, s.noted, i)
  }

  ghost predicate Lifecycle(b: Birth, ws: seq<Sent>) {
    forall i | 0 <= i < |ws| :: StepOfBirth(b, ws[i], i)
  }

  lemma LifecycleAppend(b: Birth, ws: seq<Sent>, s: Sent)
    requires Lifecycle(b, ws) && StepOfBirth(b, s, |ws|)
    ensures Lifecycle(b, ws + [s])
  {
    hide StepOfBirth;
  }

  /** Once created, an item discount stays inactive until every link was observed, and only then is finalised. */
  lemma FinalisedOnlyWhenComplete(b: Birth, ws: seq<Sent>, i: nat)
    requires Lifecycle(b, ws) && i < |ws| && ws[i].write.Finalize?
    ensures i == |b.keys| + 1 && ws[i].links == Some(Links(b.id, Sort(b.keys)))
    ensures forall k | 0 <= k < |b.keys| :: ws[k + 1].write == LinkNew(b.id, b.keys[k])
    ensures ws[0].write == Write.Create(b.first) && b.first[Active] == Flag(false)
  {
    hide Business; hide Sort;
    assert StepOfBirth(b, ws[i], i);
    assert StepOfBirth(b, ws[0], 0);
    assert b.keys[..|b.keys|] == b.keys;
    forall k | 0 <= k < |b.keys|
      ensures ws[k + 1].write == LinkNew(b.id, b.keys[k])
    {
      assert StepOfBirth(b, ws[k + 1], k + 1);
    }
  }

  method AssertNewUnchanged(c: Cvent, id: string, baseline: Row, catalog: Catalog) returns (ok: bool)
    modifies c`row, c`rowReads, c`event, c`items, c`refused
    ensures ok ==> c.row.Some? && Business(c.row.value) == Business(baseline) && IdOf(c.row.value) == Some(id)
    ensures ok ==> c.event.Some? && c.items == Some(catalog)
    ensures c.Obeys() && c.world.value.row == Some(baseline) && Matched(baseline) && IdOf(baseline) == Some(id) && catalog == 0 ==> ok
  {
    hide Business; hide Matched; hide IdOf;
    var target := c.AssertTarget();
    if target.None? {
      return false;
    }
    var row := c.ReadRow();
    if row.None? || row.value.None? || IdOf(row.value.value) != Some(id) || Business(row.value.value) != Business(baseline) {
      return false;
    }
    var items := c.Catalog();
    return items == Some(catalog);
  }

  /** A remote that does what it is told holds the created row with these links. */
  ghost predicate Held(c: Cvent, b: Birth, links: seq<Key>)
    reads c`world
  {
    && c.Obeys() && c.world.value.row == Some(b.baseline) && Matched(b.baseline) && IdOf(b.baseline) == Some(b.id) && b.items == 0
    && Distinct(Of(c.world.value.links, b.id)) && Sort(Of(c.world.value.links, b.id)) == links
  }

  /** The write, on the created row with exactly these links, the items it was prepared for, and the event. */
  ghost predicate SentOn(s: Sent, write: Write, b: Birth, links: seq<Key>) {
    && s.write == write && s.links == Some(Links(b.id, links)) && s.row.Some? && Business(s.row.value) == Business(b.baseline)
    && IdOf(s.row.value) == Some(b.id) && s.event.Some? && s.items == Some(b.items)
    && s.cleared
  }

  /** Check the created row and its links, then pass the gate and send. */
  method SendChecked(c: Cvent, b: Birth, write: Write, expected: seq<Key>) returns (ack: Option<Ack>, ghost done: seq<Sent>)
    modifies c
    ensures c.sent == old(c.sent) + done && |done| <= 1 && (ack.Some? ==> |done| == 1)
    ensures |done| == 1 ==> SentOn(done[0], write, b, expected) && (ack.Some? ==> c.noted == [OTHER])
    ensures Reported(old(c.noted), c.noted, done)
    ensures old(Held(c, b, expected)) ==>
              ack == Some(Answered(old(c.world).value, write)) && c.world == Some(Applied(old(c.world).value, write)) && |done| == 1
  {
    hide Business; hide Sort; hide Of; hide Matched; hide IdOf; hide Applied; hide Answered;
    var ok := AssertNewUnchanged(c, b.id, b.baseline, b.items);
    if !ok {
      return None, [];
    }
    var links := c.DiscountLinks(b.id);
    if links != Some(expected) {
      return None, [];
    }
    ok := c.Authenticate();
    if !ok {
      return None, [];
    }
    ok := c.Gate(write);
    if !ok {
      return None, [];
    }
    ack := c.Send(write);
    done := [c.sent[|c.sent| - 1]];
    ok := c.Note(OTHER);
    if !ok {
      ack := None;
    }
  }

  /** Something else is linked. */
  ghost predicate Foreign(links: Option<Links>, id: string, expected: seq<Key>) {
    links.Some? && links.value.discount == id && exists key :: key in links.value.keys && key !in expected
  }

  method PollNewLinks(c: Cvent, id: string, expected: seq<Key>, polls: nat) returns (matched: bool)
    requires Acknowledged(c.noted)
    modifies c`links, c`rechecked, c`noted, c`refused
    ensures matched ==> Confirmed(c.noted, id, expected)
    ensures |c.noted| <= |old(c.noted)| + polls
    ensures !matched && !c.refused ==> |c.noted| == |old(c.noted)| + polls || Foreign(c.links, id, expected)
    ensures c.Obeys() && Distinct(Of(c.world.value.links, id)) && Sort(Of(c.world.value.links, id)) == expected && polls > 0 ==> matched
  {
    hide Sort; hide Of;
    matched := false;
    var n := 0;
    while n < polls && !matched
      invariant if matched then Confirmed(c.noted, id, expected) else Acknowledged(c.noted)
      invariant n <= polls && |c.noted| == |old(c.noted)| + n
      invariant c.Obeys() && Distinct(Of(c.world.value.links, id)) && Sort(Of(c.world.value.links, id)) == expected ==> n == 0 || matched
    {
      var links := c.DiscountLinks(id);
      if links.None? || exists k | 0 <= k < |links.value| :: links.value[k] !in expected {
        return false;
      }
      var ok := c.Note(Evidence(LinkReadback, links.value == expected, Some(id), None, links.value));
      if !ok {
        return false;
      }
      matched := links.value == expected;
      n := n + 1;
    }
  }

  lemma NextExpected(keys: seq<Key>, n: nat)
    requires Distinct(keys) && n < |keys|
    ensures Sort(Sort(keys[..n]) + [keys[n]]) == Sort(keys[..n + 1])
  {
    hide Sort;
    SortOrdered(keys[..n]);
    SortMembers(keys[..n]);
    assert keys[n] !in keys[..n];
    AppendThenSort(Sort(keys[..n]), keys[n]);
    SortOrdered(keys[..n + 1]);
    SortMembers(keys[..n + 1]);
    assert keys[..n + 1] == keys[..n] + [keys[n]];
    OrderedUnique(Sort(Sort(keys[..n]) + [keys[n]]), Sort(keys[..n + 1]));
  }

  lemma NotYetLinked(keys: seq<Key>, n: nat)
    requires Distinct(keys) && n < |keys|
    ensures keys[n] !in Sort(keys[..n])
  {
    hide Sort;
    SortMembers(keys[..n]);
  }

  /** The linking loop. */
  method LinkAll(c: Cvent, b: Birth, polls: nat, ghost ws0: seq<Sent>) returns (ok: bool, ghost ws: seq<Sent>)
    requires Lifecycle(b, ws0) && |ws0| == 1 && Distinct(b.keys) && Announced(c.noted, b.id, b.baseline)
    modifies c
    ensures ws0 <= ws && c.sent == old(c.sent) + ws[1..] && Lifecycle(b, ws)
    ensures ok ==> |ws| == |b.keys| + 1 && Told(b, c.noted, |ws|)
    ensures old(Held(c, b, [])) && polls > 0 ==> ok && Held(c, b, Sort(b.keys))
  {
    hide Business; hide Sort; hide Lifecycle; hide Of; hide Matched; hide IdOf;
    ok, ws := true, ws0;
    var expected: seq<Key> := [];
    NothingSorted();
    assert b.keys[..0] == [];
    for n := 0 to |b.keys|
      invariant ws0 <= ws && c.sent == old(c.sent) + ws[1..] && Lifecycle(b, ws) && |ws| == n + 1
      invariant expected == Sort(b.keys[..n]) && Told(b, c.noted, n + 1)
      invariant old(Held(c, b, [])) && polls > 0 ==> Held(c, b, expected)
    {
      ghost var was := c.world;
      var write := LinkNew(b.id, b.keys[n]);
      var ack;
      ghost var done;
      ghost var before := ws;
      ack, done := SendChecked(c, b, write, expected);
      if |done| == 1 {
        assert done == [done[0]];
        LifecycleAppend(b, ws, done[0]);
      } else {
        assert ws + done == ws;
      }
      ws := ws + done;
      assert ws[1..] == before[1..] + done;
      if ack != Some(NoContent) {
        ok := false;
        return;
      }
      NextExpected(b.keys, n);
      if was.Some? && Distinct(Of(was.value.links, b.id)) && Sort(Of(was.value.links, b.id)) == expected {
        NotYetLinked(b.keys, n);
        AddedLinks(was.value.links, b.id, b.keys[n]);
      }
      expected := Sort(expected + [b.keys[n]]);
      ok := PollNewLinks(c, b.id, expected, polls);
      if !ok {
        return;
      }
    }
    assert b.keys[..|b.keys|] == b.keys;
  }

  lemma NothingSorted()
    ensures Sort([]) == []
  {
  }

  /** The row the finalising PUT leaves is the one asked for. */
  ghost predicate Fits(b: Birth, patch: Row) {
    var row := PutRow(b.baseline, b.last);
    && Matched(row) && IdOf(row) == Some(b.id) && DatesCleared(row, patch)
    && Business(row) == Business(Expected(b.baseline, b.last, map[]))
  }

  /** Evidence by which the caller learns nothing. */
  ghost predicate Uncounted(noted: seq<Evidence>) {
    forall k | 0 <= k < |noted| :: noted[k] == OTHER
  }

  lemma UncountedMore(noted: seq<Evidence>)
    ensures Uncounted([OTHER]) && (Uncounted(noted) ==> Uncounted(noted + [OTHER]))
  {
  }

  /** Such a remote holds the row as finalised, with these links. */
  ghost predicate Finished(c: Cvent, b: Birth, links: seq<Key>)
    reads c`world
  {
    && c.Obeys() && c.world.value.row == Some(PutRow(b.baseline, b.last)) && b.items == 0
    && Distinct(Of(c.world.value.links, b.id)) && Sort(Of(c.world.value.links, b.id)) == links
  }

  /** The finalised row and its links, once they are read back as expected. */
  method AwaitFinal(c: Cvent, b: Birth, patch: Row, polls: nat) returns (saved: Option<Row>)
    requires |c.noted| >= 1 && Uncounted(c.noted)
    modifies c`links, c`row, c`rechecked, c`rowReads, c`noted, c`event, c`items, c`refused
    ensures saved.Some? ==>
              && c.links == Some(Links(b.id, Sort(b.keys))) && c.row == saved && c.event.Some? && c.items == Some(b.items)
              && Business(saved.value) == Business(Expected(b.baseline, b.last, map[])) && DatesCleared(saved.value, patch)
              && |c.noted| >= 2 && Uncounted(c.noted)
    ensures |c.noted| <= |old(c.noted)| + polls
    ensures saved.None? && !c.refused ==>
              || |c.noted| == |old(c.noted)| + polls || Astray(c.row, b.id)
              || c.links != Some(Links(b.id, Sort(b.keys))) || c.items != Some(b.items)
    ensures Finished(c, b, Sort(b.keys)) && polls > 0 && Fits(b, patch) ==> saved.Some?
  {
    hide Business; hide Sort; hide Expected; hide Of; hide Matched; hide IdOf; hide PutRow; hide DatesCleared; hide Uncounted;
    for n := 0 to polls
      invariant |c.noted| == |old(c.noted)| + n && Uncounted(c.noted)
      invariant Finished(c, b, Sort(b.keys)) && Fits(b, patch) ==> n == 0
    {
      var row := c.ReadRow();
      if row.Some? && row.value.Some? {
        MatchedHasId(row.value.value);
      }
      if row.None? || (row.value.Some? && IdOf(row.value.value) != Some(b.id)) {
        return None;
      }
      var links := c.DiscountLinks(b.id);
      if links != Some(Sort(b.keys)) {
        return None;
      }
      UncountedMore(c.noted);
      var ok := c.Note(OTHER);
      if !ok {
        return None;
      }
      if row.value.Some? && Business(row.value.value) == Business(Expected(b.baseline, b.last, map[])) && DatesCleared(row.value.value, patch) {
        var target := c.AssertTarget();
        var items := c.Catalog();
        return if target.Some? && items == Some(b.items) then row.value else None;
      }
    }
    return None;
  }

  /** Finalise and read back row and links together. */
  method FinalizeNew(c: Cvent, b: Birth, patch: Row, polls: nat, ghost ws0: seq<Sent>)
    returns (saved: Option<Row>, ghost done: seq<Sent>)
    requires Lifecycle(b, ws0) && |ws0| == |b.keys| + 1 && Told(b, c.noted, |ws0|)
    modifies c
    ensures c.sent == old(c.sent) + done && Lifecycle(b, ws0 + done) && |done| <= 1
    ensures saved.Some? ==>
              && |done| == 1 && c.links == Some(Links(b.id, Sort(b.keys)))
              && Business(saved.value) == Business(Expected(b.baseline, b.last, map[])) && DatesCleared(saved.value, patch)
    ensures saved.Some? ==> c.row == saved && c.event.Some? && c.items == Some(b.items) && |c.noted| >= 2 && Uncounted(c.noted)
    ensures old(Held(c, b, Sort(b.keys))) && polls > 0 && Fits(b, patch) ==> saved.Some?
  {
    hide Business; hide Sort; hide Lifecycle; hide Expected; hide Of; hide Matched; hide IdOf; hide PutRow; hide DatesCleared; hide Told;
    hide Uncounted; hide Fits;
    var ack;
    assert b.keys[..|b.keys|] == b.keys;
    ack, done := SendChecked(c, b, Finalize(b.id, b.last), Sort(b.keys));
    if |done| == 1 {
      assert done == [done[0]];
      LifecycleAppend(b, ws0, done[0]);
    } else {
      assert ws0 + done == ws0;
    }
    if ack != Some(Identified(Some(b.id))) {
      return None, done;
    }
    UncountedMore([]);
    saved := AwaitFinal(c, b, patch, polls);
  }

  /**
   * Which writes a configuration made: those of an update, of an update by which a discount that appeared overtook
   * a creation, of an item-scoped creation, or one plain POST.
   */
  datatype Trail = Updating(plan: Plan) | Overtaken(plan: Plan) | Creating(birth: Birth) | Posting(body: Row)

  ghost predicate Follows(t: Trail, ws: seq<Sent>) {
    match t
    case Updating(p) => Legal(p, ws) && Ordered(p.start)
    case Overtaken(p) => Legal(p, ws) && Ordered(p.start)
    case Creating(b) => Lifecycle(b, ws)
    case Posting(body) => |ws| <= 1 && (|ws| == 1 ==> ws[0].write == Write.Create(body) && ws[0].row == Some(map[]))
  }

  /** The update an input asks for on the row that carries its code. */
  ghost predicate Planned(p: Plan, input: Input, row: Row, valid: Row -> bool) {
    && p.before == row && Matched(row) && IdOf(row) == Some(p.discount) && Code in row && row[Code] == Text(input.code)
    && (input.discountId.Some? ==> input.discountId == Some(p.discount))
    && Prepare(input.code, input.patch, Some(row), valid).Ok?
    && p.body == Scoped(Prepare(input.code, input.patch, Some(row), valid).value, input.items.Some?)
    && p.adds == Adds(input) && p.removes == Removes(input)
  }

  /** The initial configuration of an item discount: the same, inactive and without items. */
  function Inactive(input: Input): Input {
    input.(patch := input.patch[Active := Flag(false)], items := None)
  }

  /** The inner catalog reading found a row of this very code that the inactive configuration can be applied to. */
  predicate Overtakes(input: Input, inner: Option<Option<Row>>, valid: Row -> bool) {
    && inner.Some? && inner.value.Some? && IdOf(inner.value.value).Some?
    && Code in inner.value.value && inner.value.value[Code] == Text(input.code)
    && Prepare(input.code, Inactive(input).patch, inner.value, valid).Ok?
  }

  // ---- A creation on a remote that does what it is told -------------------------------------------------------------

  /** Such a remote has no such row, and nothing is linked to the identity it would give it. */
  ghost predicate Barren(c: Cvent, event: EventData)
    reads c`world
  {
    Vacant(c, event) && |c.world.value.nextId| == ID_LENGTH && Of(c.world.value.links, c.world.value.nextId) == []
  }

  lemma {:induction false} IncludesSelf(v: Value)
    ensures IncludesValue(v, v)
  {
    match v
    case Object(fields) =>
      forall k | k in fields
        ensures IncludesValue(fields[k], fields[k])
      {
        IncludesSelf(fields[k]);
      }
    case List(items) =>
      forall k | 0 <= k < |items|
        ensures IncludesValue(items[k], items[k])
      {
        IncludesSelf(items[k]);
      }
    case _ =>
  }

  lemma UnusedIncludes(fields: map<string, Value>)
    requires USED !in fields
    ensures IncludesValue(Object(fields[USED := Number(0)]), Object(fields))
  {
    forall k | k in fields
      ensures IncludesValue(fields[k], fields[k])
    {
      IncludesSelf(fields[k]);
    }
  }

  lemma NewBodyField(code: string, patch: Row, valid: Row -> bool, f: Field)
    requires Prepare(code, patch, None, valid).Ok? && forall f | f in patch :: f in PATCHED
    ensures var body := Prepare(code, patch, None, valid).value;
            && (f in body ==> f in CARRIED || f == Capacity)
            && (f in patch && !Present(patch, f) ==> f !in body)
            && (f == Type ==> f in body && body[f] == Text("DISCOUNT_CODE")) && (f == Code ==> f in body && body[f] == Text(code))
            && (f == Capacity ==> f in body && body[f].Object? && USED !in body[f].fields)
  {
    OkIsOriginal(code, patch, None, valid);
    FieldsAreListed(f);
    if f in patch {
      if Present(patch, f) {
        PatchedField(code, patch, None, f);
      } else {
        ClearedField(code, patch, None, f);
      }
    } else {
      NewField(code, patch, f);
    }
    hide Original; hide DropNullDates;
  }

  lemma NewRowField(body: Row, id: string, f: Field)
    ensures f !in {Id, Level, Capacity} ==> (f in NewRow(body, id) <==> f in body) && (f in body ==> NewRow(body, id)[f] == body[f])
    ensures var row := NewRow(body, id);
      && Id in row && row[Id] == Text(id) && Level in row && row[Level] == Text("EVENT")
      && Capacity in row && row[Capacity] == Object(CapacityOf(body)[USED := Number(0)])
  {
    hide CapacityOf;
  }

  lemma BornField(code: string, patch: Row, valid: Row -> bool, id: string, f: Field)
    requires Prepare(code, patch, None, valid).Ok? && forall f | f in patch :: f in PATCHED
    ensures var body, row := Prepare(code, patch, None, valid).value, NewRow(Prepare(code, patch, None, valid).value, id);
            && (f in body ==> f in row && IncludesValue(row[f], body[f]))
            && (f in patch && Date(f) && patch[f] == Null ==> f !in row)
  {
    hide NewRow; hide Prepare; hide IncludesValue; hide CapacityOf;
    var body := Prepare(code, patch, None, valid).value;
    NewBodyField(code, patch, valid, f);
    NewRowField(body, id, f);
    if f in body {
      if f == Capacity {
        CapacityIsOwn(body);
        UnusedIncludes(body[f].fields);
      } else {
        IncludesSelf(body[f]);
      }
    }
  }

  lemma CapacityIsOwn(body: Row)
    requires Capacity in body && body[Capacity].Object?
    ensures CapacityOf(body) == body[Capacity].fields
  {
  }

  lemma BornOfPrepared(w: World, code: string, patch: Row, valid: Row -> bool)
    requires Prepare(code, patch, None, valid).Ok? && (forall f | f in patch :: f in PATCHED) && |w.nextId| == ID_LENGTH
    ensures Born(w, Prepare(code, patch, None, valid).value, patch)
  {
    var body := Prepare(code, patch, None, valid).value;
    var row := NewRow(body, w.nextId);
    hide NewRow; hide Prepare; hide IncludesValue; hide CapacityOf;
    NewBodyField(code, patch, valid, Type);
    NewBodyField(code, patch, valid, Code);
    NewRowField(body, w.nextId, Type);
    NewRowField(body, w.nextId, Code);
    forall f
      ensures f in body ==> f in row && IncludesValue(row[f], body[f])
      ensures f in patch && Date(f) && patch[f] == Null ==> f !in row
    {
      BornField(code, patch, valid, w.nextId, f);
    }
  }

  /** Dates that were cleared are not in the new row, so the finalising PUT need not clear them again. */
  lemma ClearedAtBirth(body: Row, code: string, patch: Row, valid: Row -> bool, id: string, f: Field)
    requires Prepare(code, patch, None, valid) == Ok(body) && (forall f | f in patch :: f in PATCHED) && f in patch && !Present(patch, f)
    ensures f !in NewRow(body, id)
  {
    NewBodyField(code, patch, valid, f);
    NewRowField(body, id, f);
    hide NewRow; hide Prepare;
  }

  lemma FinalField(before: Row, body: Row, patch: Row, f: Field)
    requires FieldCarried(body, before, patch, f) && (f in patch ==> f in PATCHED) && f != Capacity
    requires f in patch && !Present(patch, f) ==> f !in before
    ensures var put, expected := Business(PutRow(before, Scoped(body, true))), Business(Expected(before, Scoped(body, true), map[]));
            (f in put <==> f in expected) && (f in put ==> put[f] == expected[f])
    ensures f in patch && !Present(patch, f) ==> f !in PutRow(before, Scoped(body, true))
  {
    hide CapacityOf;
    FieldsAreListed(f);
  }

  lemma KeptIdentity(before: Row, body: Row, patch: Row)
    requires FieldCarried(body, before, patch, Id)
    ensures IdOf(PutRow(before, Scoped(body, true))) == IdOf(before)
  {
    hide CapacityOf;
  }

  lemma FinalRowFits(b: Birth, body: Row, patch: Row)
    requires Matched(b.baseline) && IdOf(b.baseline) == Some(b.id) && b.last == Scoped(body, true)
    requires (forall f | f in patch :: f in PATCHED) && Carries(body, b.baseline, patch)
    requires forall f | f in patch && !Present(patch, f) :: f !in b.baseline
    ensures Fits(b, patch)
  {
    hide Business; hide PutRow; hide Expected; hide Scoped; hide FieldCarried; hide Matched; hide IdOf;
    var put, expected := Business(PutRow(b.baseline, b.last)), Business(Expected(b.baseline, b.last, map[]));
    forall f
      ensures (f in put <==> f in expected) && (f in put ==> put[f] == expected[f])
      ensures f in patch && !Present(patch, f) ==> f !in PutRow(b.baseline, b.last)
    {
      if f == Capacity {
        PutCapacity(b.baseline, body, map[], true);
      } else {
        FieldOf(body, b.baseline, patch, f);
        FinalField(b.baseline, body, patch, f);
      }
    }
    assert put == expected;
    FieldOf(body, b.baseline, patch, Type);
    FieldOf(body, b.baseline, patch, Code);
    FieldOf(body, b.baseline, patch, Id);
    FieldOf(body, b.baseline, patch, Level);
    PutMatches(b.baseline, body, patch, true);
    KeptIdentity(b.baseline, body, patch);
  }

  /** How far a creation's record is determined by what was written. */
  ghost predicate Begun(b: Birth, input: Input, ws: seq<Sent>, valid: Row -> bool) {
    && b.keys == Adds(input)
    && Prepare(input.code, Inactive(input).patch, None, valid) == Ok(b.first)
    && (|ws| > 1 ==>
          && IdOf(b.baseline) == Some(b.id) && Includes(b.baseline, b.first)
          && Prepare(input.code, input.patch, Some(b.baseline), valid).Ok?
          && b.last == Scoped(Prepare(input.code, input.patch, Some(b.baseline), valid).value, true))
  }

  /** A scripted catalog that shows an active row of this code from its n-th reading on. */
  ghost predicate Appears(c: Cvent, input: Input, event: EventData, valid: Row -> bool, n: nat) {
    && c.script.Some? && c.script.value.rows(n).Some? && c.Shows(event, c.script.value.rows(n).value, n)
    && On(c.script.value.rows(n).value) && Overtakes(input, Some(c.script.value.rows(n)), valid)
  }

  /** An active row is not what an inactive configuration expects to read back. */
  lemma OffDiffers(before: Row, body: Row, patch: Row)
    requires On(before) && Active in body && body[Active] == Flag(false)
    ensures Business(before) != Business(Expected(before, body, patch))
  {
    assert Business(before)[Active] == Flag(true);
    assert Active in Expected(before, body, patch) && Expected(before, body, patch)[Active] == Flag(false);
  }

  /** Before anything is created: the items, every association, and the row once more. */
  method Survey(c: Cvent, event: EventData) returns (catalog: Option<Catalog>, row: Option<Option<Row>>)
    modifies c`links, c`rechecked, c`items, c`row, c`rowReads, c`refused
    ensures catalog.None? ==> row.None?
    ensures catalog.Some? ==> c.items == catalog && c.links.Some? && c.links.value.discount == SENTINEL
    ensures row.Some? && row.value.Some? ==> Matched(row.value.value)
    ensures c.Linked() ==> catalog.Some? && row == Found(c.script.value.rows(old(c.rowReads))) && c.rowReads == old(c.rowReads) + 1
    ensures Barren(c, event) && Distinct(Of(c.world.value.links, SENTINEL)) ==> catalog == Some(0) && row == Some(None)
  {
    hide Of; hide Matched;
    row := None;
    catalog := c.Catalog();
    var all := c.DiscountLinks(SENTINEL);
    if catalog.None? || all.None? {
      return None, None;
    }
    row := c.ReadRow();
  }

  /** The row that carries the code, if any. */
  method FirstRow(c: Cvent, event: EventData) returns (row: Option<Option<Row>>)
    modifies c`row, c`rowReads, c`refused
    ensures row.Some? && row.value.Some? ==> Matched(row.value.value) && IdOf(row.value.value).Some?
    ensures c.rowReads == old(c.rowReads) + 1 && (c.script.Some? ==> row == Found(c.script.value.rows(old(c.rowReads))))
    ensures Barren(c, event) ==> row == Some(None)
  {
    row := c.ReadRow();
  }

  lemma PreparedPut(input: Input, row: Row, valid: Row -> bool)
    requires ValidInput(input) && Matched(row) && Prepare(input.code, input.patch, Some(row), valid).Ok?
    ensures var body := Scoped(Prepare(input.code, input.patch, Some(row), valid).value, input.items.Some?);
            Written(row, body, Expected(row, body, input.patch))
    ensures forall f | f in input.patch :: f in PATCHED
  {
    hide Prepare; hide Written; hide Matched; hide Scoped; hide Expected; hide Carries; hide ValidItems;
    PatchIsListed(input.patch);
    PreparedBodyPreserves(input.code, input.patch, row, valid);
    PutIsExpected(row, Prepare(input.code, input.patch, Some(row), valid).value, input.patch, input.items.Some?);
  }

  /**
   * The complete initial configuration of one new discount. `inner` is what its own catalog reading answered. The
   * inner configuration updates a discount exactly when that reading found one of this code, switching it off as
   * the inactive initial patch asks; then the whole operation fails.
   */
  method ConfigureItemDiscount(c: Cvent, input: Input, event: EventData, valid: Row -> bool, polls: nat)
    returns (r: Result<Row, Problem>, ghost trail: Trail, ghost ws: seq<Sent>, ghost inner: Option<Option<Row>>)
    requires ValidInput(input) && input.items.Some? && input.removes.None? && input.discountId.None?
    modifies c
    ensures c.sent == old(c.sent) + ws && Follows(trail, ws)
    ensures trail.Overtaken? <==> Overtakes(input, inner, valid)
    ensures trail.Overtaken? ==> r.Err? && Planned(trail.plan, Inactive(input), inner.value.value, valid)
    ensures trail.Overtaken? ==> Active in trail.plan.body && trail.plan.body[Active] == Flag(false)
    ensures Appears(c, input, event, valid, old(c.rowReads)) ==>
              && trail.Overtaken? && |ws| == 1 && ws[0].write == Update(trail.plan.discount, trail.plan.body)
              && inner == Some(c.script.value.rows(old(c.rowReads)))
    ensures trail.Overtaken? || trail.Creating?
    ensures trail.Creating? && ws != [] ==> Begun(trail.birth, input, ws, valid)
    ensures ws != [] ==> ws[0].noted == old(c.noted)
    ensures r.Ok? ==> trail.Creating? && Complete(input, trail.birth, ws, c.links, valid, r.value)
    ensures trail.Creating? && ws != [] ==> trail.birth.event == event
    ensures trail.Overtaken? ==> trail.plan.event == event
    // A remote that does what it is told gets the complete discount.
    ensures old(Barren(c, event)) && old(Distinct(Of(c.world.value.links, SENTINEL))) && polls > 0 && input.createIfMissing
            && Prepare(input.code, Inactive(input).patch, None, valid).Ok?
            && Finishable(input, Prepare(input.code, Inactive(input).patch, None, valid).value, old(c.world).value.nextId, valid)
            ==> r.Ok?
  {
    hide Business; hide Sort; hide Expected; hide Scoped; hide Prepare; hide Legal; hide Ordered; hide Lifecycle; hide DatesCleared; hide ValidItems;
    hide On; hide Begun; hide Matched; hide Complete; hide CapacityBodyOk; hide Of; hide Finishable; hide NewRow; hide Barren;
    var none := Birth("", [], map[], map[], map[], 0, 0);
    trail, ws, inner := Creating(none), [], None;
    NoWrites(none);
    assert old(c.sent) + [] == old(c.sent);
    var catalog, row := Survey(c, event);
    inner := row;
    if catalog.None? {
      return Err(ReadFailed), trail, ws, inner;
    }
    var initial := Inactive(input);
    if row.None? || (row.value.None? && !input.createIfMissing) {
      return Err(ReadFailed), trail, ws, inner;
    }
    var first := Prepare(initial.code, initial.patch, row.value, valid);
    if first.Err? {
      return Err(Invalid), trail, ws, inner;
    }
    PatchedFlag(initial.code, initial.patch, row.value, valid);
    if row.value.Some? {
      var id := IdOf(row.value.value);
      if id.None? || Code !in row.value.value || row.value.value[Code] != Text(input.code) {
        return Err(Mismatch), trail, ws, inner;
      }
      ghost var p;
      p, ws := Overtake(c, initial, event, row.value.value, id.value, first.value, polls);
      NotScoped(first.value);
      return Err(Changed), Overtaken(p), ws, inner;
    }
    r, trail, ws := CreateAndLink(c, input, initial, event, first.value, catalog.value, valid, polls);
  }

  /** The update of the discount that appeared. Its result is not used. */
  method Overtake(c: Cvent, initial: Input, event: EventData, row: Row, id: string, first: Row, polls: nat)
    returns (ghost p: Plan, ghost ws: seq<Sent>)
    requires ValidInput(initial) && initial.items.None? && initial.removes.None?
    requires Active in first && first[Active] == Flag(false)
    modifies c
    ensures c.sent == old(c.sent) + ws && Legal(p, ws) && Ordered(p.start) && Reported(old(c.noted), c.noted, ws)
    ensures p.discount == id && p.before == row && p.body == first && p.adds == [] && p.removes == [] && p.event == event
    ensures c.Shows(event, row, old(c.rowReads)) && On(row) ==> |ws| == 1 && ws[0].write == Update(id, first)
  {
    hide Business; hide Expected; hide Legal; hide Ordered; hide Scoped; hide On; hide ValidItems;
    NotScoped(first);
    var updated;
    updated, p, ws := UpdateDiscount(c, initial, event, row, id, first, polls);
    if On(row) {
      OffDiffers(row, first, initial.patch);
      if |ws| == 1 {
        OnlyUpdates(p, ws);
        LegalUpdate(p, ws);
      }
    }
  }

  lemma LegalUpdate(p: Plan, ws: seq<Sent>)
    requires Legal(p, ws) && |ws| == 1 && ws[0].write.Update?
    ensures ws[0].write == Update(p.discount, p.body)
  {
    assert WriteLegal(p, ws, 0);
  }

  /** The inactive POST. */
  method CreateInitial(c: Cvent, input: Input, initial: Input, event: EventData, first: Row, valid: Row -> bool, polls: nat)
    returns (created: Result<(string, Row), Problem>, ghost ws: seq<Sent>)
    requires ValidInput(input) && Prepare(input.code, initial.patch, None, valid) == Ok(first) && initial == Inactive(input)
    modifies c
    ensures c.sent == old(c.sent) + ws && |ws| <= 1
    ensures |ws| == 1 ==>
              ws[0].write == Write.Create(first) && ws[0].row == Some(map[]) && ws[0].event == Some(event) && ws[0].noted == old(c.noted) && ws[0].cleared
    ensures created.Ok? ==>
              && |ws| == 1 && Announced(c.noted, created.value.0, created.value.1)
              && IdOf(created.value.1) == Some(created.value.0) && Includes(created.value.1, first)
    ensures old(Barren(c, event)) && polls > 0 ==>
              var w := old(c.world).value;
              && created == Ok((w.nextId, NewRow(first, w.nextId))) && Born(w, first, initial.patch)
              && c.Obeys() && c.world.value.row == Some(NewRow(first, w.nextId)) && Of(c.world.value.links, w.nextId) == []
  {
    hide Prepare; hide ValidItems; hide Includes; hide Inactive; hide Announced; hide Born; hide Of; hide NewRow; hide IdOf; hide DatesCleared;
    if c.world.Some? && |c.world.value.nextId| == ID_LENGTH {
      InitialIsBorn(c.world.value, input, valid);
    }
    created, ws := Create(c, initial, event, first, polls);
  }

  /** A row just made by such a remote is held, with no link yet. */
  lemma HeldAtBirth(c: Cvent, input: Input, first: Row, w: World, b: Birth, valid: Row -> bool)
    requires ValidInput(input) && Prepare(input.code, Inactive(input).patch, None, valid) == Ok(first)
    requires Born(w, first, Inactive(input).patch) && b.id == w.nextId && b.baseline == NewRow(first, w.nextId) && b.items == 0
    requires Prepare(input.code, input.patch, Some(b.baseline), valid).Ok?
    requires b.last == Scoped(Prepare(input.code, input.patch, Some(b.baseline), valid).value, true)
    requires c.Obeys() && c.world.value.row == Some(b.baseline) && Of(c.world.value.links, b.id) == []
    ensures Held(c, b, []) && Fits(b, input.patch)
  {
    hide Prepare; hide Fits; hide NewRow; hide ValidItems; hide Matched; hide IdOf; hide Scoped; hide Inactive; hide Born; hide Of; hide Sort;
    NewRowFits(input, first, w, b, valid);
    NothingSorted();
  }

  /** The creating branch: the inactive POST, every link, and the finalising PUT. */
  method CreateAndLink(c: Cvent, input: Input, initial: Input, event: EventData, first: Row, catalog: Catalog, valid: Row -> bool, polls: nat)
    returns (r: Result<Row, Problem>, ghost trail: Trail, ghost ws: seq<Sent>)
    requires ValidInput(input) && input.items.Some? && Active in first && first[Active] == Flag(false)
    requires Prepare(input.code, Inactive(input).patch, None, valid) == Ok(first) && initial == Inactive(input)
    modifies c
    ensures c.sent == old(c.sent) + ws && Follows(trail, ws) && trail.Creating?
    ensures Begun(trail.birth, input, ws, valid) && (ws != [] ==> ws[0].noted == old(c.noted)) && trail.birth.event == event
    ensures r.Ok? ==> Complete(input, trail.birth, ws, c.links, valid, r.value)
    ensures old(Barren(c, event)) && polls > 0 && catalog == 0 && Finishable(input, first, old(c.world).value.nextId, valid) ==> r.Ok?
  {
    hide Business; hide Sort; hide Expected; hide Scoped; hide Prepare; hide Lifecycle; hide DatesCleared; hide ValidItems; hide Includes;
    hide Announced; hide Born; hide Fits; hide Of; hide NewRow; hide Matched; hide IdOf; hide Inactive; hide Held;
    var created;
    created, ws := CreateInitial(c, input, initial, event, first, valid, polls);
    var b := Birth("", Adds(input), map[], first, map[], event, catalog);
    CreatedFirst(b, ws);
    trail := Creating(b);
    if created.Err? {
      return Err(created.error), trail, ws;
    }
    b := b.(id := created.value.0, baseline := created.value.1);
    CreatedFirst(b, ws);
    trail := Creating(b);
    var desired := Prepare(input.code, input.patch, Some(b.baseline), valid);
    if desired.Err? {
      return Err(Invalid), trail, ws;
    }
    b := b.(last := Scoped(desired.value, true));
    CreatedFirst(b, ws);
    trail := Creating(b);
    ItemKeysAreDistinct(input.items.value);
    if old(Barren(c, event)) && polls > 0 && catalog == 0 {
      HeldAtBirth(c, input, first, old(c.world).value, b, valid);
    }
    ghost var ws0 := ws;
    r, ws := LinkAndFinish(c, b, input, polls, ws);
    assert ws == ws0 + ws[1..];
  }

  /** The finalising body can be prepared from the row that was made. */
  ghost predicate Finishable(input: Input, first: Row, id: string, valid: Row -> bool) {
    Prepare(input.code, input.patch, Some(NewRow(first, id)), valid).Ok?
  }

  lemma InactiveIsListed(input: Input)
    requires input.patch.Keys <= PATCHED || forall f | f in input.patch :: f in PATCHED
    ensures forall f | f in Inactive(input).patch :: f in PATCHED
  {
  }

  lemma InitialIsBorn(w: World, input: Input, valid: Row -> bool)
    requires ValidInput(input) && Prepare(input.code, Inactive(input).patch, None, valid).Ok? && |w.nextId| == ID_LENGTH
    ensures Born(w, Prepare(input.code, Inactive(input).patch, None, valid).value, Inactive(input).patch)
  {
    hide Prepare; hide Born; hide ValidItems;
    PatchIsListed(input.patch);
    InactiveIsListed(input);
    hide Inactive;
    BornOfPrepared(w, input.code, Inactive(input).patch, valid);
  }

  lemma NewRowFits(input: Input, first: Row, w: World, b: Birth, valid: Row -> bool)
    requires ValidInput(input) && Prepare(input.code, Inactive(input).patch, None, valid) == Ok(first)
    requires Born(w, first, Inactive(input).patch) && b.id == w.nextId && b.baseline == NewRow(first, w.nextId)
    requires Prepare(input.code, input.patch, Some(b.baseline), valid).Ok?
    requires b.last == Scoped(Prepare(input.code, input.patch, Some(b.baseline), valid).value, true)
    ensures Fits(b, input.patch) && Matched(b.baseline) && IdOf(b.baseline) == Some(b.id)
  {
    hide Prepare; hide Fits; hide NewRow; hide ValidItems; hide Carries; hide Matched; hide IdOf; hide Includes; hide Scoped;
    PatchIsListed(input.patch);
    InactiveIsListed(input);
    var body := Prepare(input.code, input.patch, Some(b.baseline), valid).value;
    PreparedBodyPreserves(input.code, input.patch, b.baseline, valid);
    forall f | f in input.patch && !Present(input.patch, f)
      ensures f !in b.baseline
    {
      ClearedAtBirth(first, input.code, Inactive(input).patch, valid, w.nextId, f);
    }
    FinalRowFits(b, body, input.patch);
  }

  /** Every link of a created discount, then its finalising PUT. */
  method LinkAndFinish(c: Cvent, b: Birth, input: Input, polls: nat, ghost ws0: seq<Sent>)
    returns (r: Result<Row, Problem>, ghost ws: seq<Sent>)
    requires Lifecycle(b, ws0) && |ws0| == 1 && Distinct(b.keys) && Announced(c.noted, b.id, b.baseline)
    modifies c
    ensures ws0 <= ws && c.sent == old(c.sent) + ws[1..] && Lifecycle(b, ws)
    ensures r.Ok? ==>
              && |ws| == |b.keys| + 2 && c.links == Some(Links(b.id, Sort(b.keys)))
              && Business(r.value) == Business(Expected(b.baseline, b.last, map[])) && DatesCleared(r.value, input.patch)
    ensures old(Held(c, b, [])) && polls > 0 && Fits(b, input.patch) ==> r.Ok?
  {
    hide Business; hide Sort; hide Expected; hide Lifecycle; hide DatesCleared; hide Held; hide Fits;
    var ok, saved;
    ghost var linked, done;
    ok, linked := LinkAll(c, b, polls, ws0);
    ws := linked;
    if !ok {
      return Err(NotVerified), ws;
    }
    saved, done := FinalizeNew(c, b, input.patch, polls, linked);
    ws := linked + done;
    assert ws[1..] == linked[1..] + done;
    r := if saved.Some? then Ok(saved.value) else Err(NotVerified);
  }

  /** Everything was written once, the links last observed are the requested ones, and the row is as requested. */
  ghost predicate Complete(input: Input, b: Birth, ws: seq<Sent>, links: Option<Links>, valid: Row -> bool, saved: Row) {
    && b.keys == Adds(input) && |ws| == |b.keys| + 2
    && links == Some(Links(b.id, Sort(Adds(input))))
    && Prepare(input.code, input.patch, Some(b.baseline), valid).Ok?
    && b.last == Scoped(Prepare(input.code, input.patch, Some(b.baseline), valid).value, true)
    && Business(saved) == Business(Expected(b.baseline, b.last, map[])) && DatesCleared(saved, input.patch)
  }

  lemma NoWrites(b: Birth)
    ensures Lifecycle(b, [])
  {
  }

  lemma CreatedFirst(b: Birth, ws: seq<Sent>)
    requires |ws| <= 1 && Active in b.first && b.first[Active] == Flag(false)
    requires |ws| == 1 ==> ws[0].write == Write.Create(b.first) && ws[0].row == Some(map[]) && ws[0].event == Some(b.event) && ws[0].cleared
    ensures Lifecycle(b, ws)
  {
  }

  lemma PatchedFlag(code: string, patch: Row, before: Option<Row>, valid: Row -> bool)
    requires Prepare(code, patch, before, valid).Ok? && Active in patch && patch[Active] == Flag(false)
    ensures var body := Prepare(code, patch, before, valid).value; Active in body && body[Active] == Flag(false)
  {
  }

  lemma NotScoped(body: Row)
    ensures Scoped(body, false) == body
  {
  }

  /** The finalised row carries the whole request. */
  lemma FinalRowIsRequested(baseline: Row, body: Row, patch: Row, saved: Row)
    requires (forall f | f in patch :: f in PATCHED) && Carries(body, baseline, patch)
    requires Business(saved) == Business(Expected(baseline, Scoped(body, true), map[])) && DatesCleared(saved, patch)
    ensures forall f | f in patch && f != Capacity :: if Present(patch, f) then f in saved && saved[f] == patch[f] else !Present(saved, f)
    ensures ApplyToAllAgendaItems in saved && saved[ApplyToAllAgendaItems] == Flag(true)
    ensures CapacityPreserved(saved, baseline, body)
  {
    hide Carries; hide Expected; hide Scoped; hide Business; hide CapacityPreserved;
    CarriedCapacity(body, baseline, patch);
    ReadbackCapacity(baseline, body, map[], true, saved);
    var expected := Expected(baseline, Scoped(body, true), map[]);
    ExpectedScope(baseline, body, map[]);
    BusinessEqual(saved, expected, ApplyToAllAgendaItems);
    forall f | f in patch && f != Capacity
      ensures if Present(patch, f) then f in saved && saved[f] == patch[f] else !Present(saved, f)
    {
      FieldsAreListed(f);
      if Present(patch, f) {
        FieldOf(body, baseline, patch, f);
        SentField(baseline, body, patch, f);
        BusinessEqual(saved, expected, f);
      }
    }
  }

  lemma SentField(baseline: Row, body: Row, patch: Row, f: Field)
    requires f in body && f in patch && f in PATCHED && body[f] == patch[f] && f != Capacity
    ensures var expected := Expected(baseline, Scoped(body, true), map[]); f in expected && expected[f] == patch[f]
  {
  }

  /** What a successful update leaves: the wanted links, and a row preserved outside the patch. */
  ghost predicate Updated(p: Plan, input: Input, links: Option<Links>, valid: Row -> bool, saved: Row) {
    && links == Some(Links(p.discount, if input.items.Some? then Sort(Adds(input)) else p.start))
    && Preserved(saved, p.before, input.patch, input.items.Some?)
    && Prepare(input.code, input.patch, Some(p.before), valid).Ok?
    && CapacityPreserved(saved, p.before, Prepare(input.code, input.patch, Some(p.before), valid).value)
  }

  /** A successful update preserves everything outside the patch, and the capacity total is the prepared one. */
  lemma UpdatePreserves(p: Plan, input: Input, row: Row, valid: Row -> bool, saved: Row)
    requires (forall f | f in input.patch :: f in PATCHED) && Planned(p, input, row, valid)
    requires Business(saved) == Business(Expected(p.before, p.body, input.patch))
    ensures var body := Prepare(input.code, input.patch, Some(p.before), valid).value;
            && Carries(body, p.before, input.patch)
            && Preserved(saved, p.before, input.patch, input.items.Some?) && CapacityPreserved(saved, p.before, body)
  {
    hide Business; hide Expected; hide Scoped; hide Prepare; hide Carries; hide Preserved; hide CapacityPreserved; hide IdOf;
    var body := Prepare(input.code, input.patch, Some(p.before), valid).value;
    PreparedBodyPreserves(input.code, input.patch, p.before, valid);
    ReadbackPreserves(p.before, body, input.patch, input.items.Some?, saved);
  }

  /** Links leave an update only by the input's explicit list, and an active discount is never left without any. */
  lemma UpdateRemovesOnlyListed(p: Plan, input: Input, ws: seq<Sent>, i: nat)
    requires Legal(p, ws) && Ordered(p.start) && p.removes == Removes(input) && i <= |ws| && (ws != [] ==> KeepsSome(p))
    ensures forall j | 0 <= j < i && ws[j].write.RemoveLink? :: ws[j].write.key in Removes(input)
    ensures forall key | key in p.start && key !in Removes(input) :: key in After(p.start, ws[..i])
    ensures On(p.before) && (exists j :: 0 <= j < |ws| && ws[j].write.RemoveLink?) ==> After(p.start, ws[..i]) != []
  {
    hide After; hide Legal; hide Ordered; hide KeepsSome; hide Removes;
    forall j | 0 <= j < i && ws[j].write.RemoveLink?
      ensures ws[j].write.key in p.removes
    {
      RemovalIsListed(p, ws, j);
    }
    forall key | key in p.start && key !in p.removes
      ensures key in After(p.start, ws[..i])
    {
      KeptLinkSurvives(p, ws, i, key);
    }
    if On(p.before) && exists j :: 0 <= j < |ws| && ws[j].write.RemoveLink? {
      ActiveDiscountIsNeverEmptied(p, ws, i);
    }
  }

  lemma RemovalIsListed(p: Plan, ws: seq<Sent>, j: nat)
    requires Legal(p, ws) && j < |ws| && ws[j].write.RemoveLink?
    ensures ws[j].write.key in p.removes
  {
    assert WriteLegal(p, ws, j);
  }

  /** What a successful item-scoped creation leaves: the wanted links, and a row that carries the whole request. */
  lemma CreationIsRequested(input: Input, b: Birth, ws: seq<Sent>, links: Option<Links>, valid: Row -> bool, saved: Row)
    requires ValidInput(input) && Complete(input, b, ws, links, valid, saved)
    ensures links == Some(Links(b.id, Sort(Adds(input))))
    ensures forall f | f in input.patch && f != Capacity ::
              if Present(input.patch, f) then f in saved && saved[f] == input.patch[f] else !Present(saved, f)
    ensures ApplyToAllAgendaItems in saved && saved[ApplyToAllAgendaItems] == Flag(true)
    ensures CapacityPreserved(saved, b.baseline, Prepare(input.code, input.patch, Some(b.baseline), valid).value)
  {
    hide Business; hide Expected; hide Scoped; hide Prepare; hide Carries; hide CapacityPreserved; hide DatesCleared; hide ValidItems; hide Sort;
    var body := Prepare(input.code, input.patch, Some(b.baseline), valid).value;
    PatchIsListed(input.patch);
    PreparedBodyPreserves(input.code, input.patch, b.baseline, valid);
    FinalRowIsRequested(b.baseline, body, input.patch, saved);
  }

  /**
   * The entry point for one discount code. `outer` and `inner` are what its own and the item configuration's catalog
   * readings answered.
   */
  method ConfigureDiscount(c: Cvent, input: Input, event: EventData, valid: Row -> bool, polls: nat)
    returns (r: Result<Row, Problem>, ghost trail: Trail, ghost ws: seq<Sent>, ghost outer: Option<Option<Row>>, ghost inner: Option<Option<Row>>)
    modifies c
    ensures c.sent == old(c.sent) + ws && Follows(trail, ws)
    ensures !ValidInput(input) ==> r.Err? && ws == []
    // An update is the one the input asks for, of the row that was read.
    ensures trail.Updating? ==>
              && outer.Some? && outer.value.Some? && Planned(trail.plan, input, outer.value.value, valid)
              && (ws != [] ==> KeepsSome(trail.plan)) && (ws != [] || r.Ok? ==> Startable(input, trail.plan.before, trail.plan.start))
              && (r.Ok? ==> Updated(trail.plan, input, c.links, valid, r.value))
    ensures trail.Updating? <==>
              && ValidInput(input) && outer.Some? && outer.value.Some?
              && (input.discountId.Some? ==> IdOf(outer.value.value) == input.discountId)
              && Code in outer.value.value && outer.value.value[Code] == Text(input.code)
              && Prepare(input.code, input.patch, Some(outer.value.value), valid).Ok?
    ensures trail.Updating? && c.Shows(event, trail.plan.before, old(c.rowReads)) ==>
              && trail.plan.start == c.LinksOf(trail.plan.discount)
              && (ws != [] <==> Due(input, trail.plan)) && (ws != [] ==> Leads(input, trail.plan, ws[0].write))
    ensures trail.Updating? && ws != [] && input.items.None? ==> forall i | 0 <= i < |ws| :: ws[i].write.Update?
    // A discount that appeared between two readings is switched off, and the operation fails.
    ensures trail.Overtaken? ==> outer == Some(None) && Overtakes(input, inner, valid) && r.Err? && input.removes.None?
    ensures trail.Overtaken? ==> Planned(trail.plan, Inactive(input), inner.value.value, valid)
    ensures
      && ValidInput(input) && input.items.Some? && input.removes.None? && input.discountId.None? && input.createIfMissing
      && c.script.Some? && c.script.value.rows(old(c.rowReads)).None? && Prepare(input.code, input.patch, None, valid).Ok?
      && Appears(c, input, event, valid, old(c.rowReads) + 1)
      ==> trail.Overtaken? && |ws| == 1 && ws[0].write == Update(trail.plan.discount, trail.plan.body)
          && Active in trail.plan.body && trail.plan.body[Active] == Flag(false)
          && inner == Some(c.script.value.rows(old(c.rowReads) + 1))
    // A creation is complete, or a single POST that was read back.
    ensures trail.Creating? && ws != [] ==> ValidInput(input) && input.items.Some? && Begun(trail.birth, input, ws, valid)
    ensures trail.Posting? ==> Prepare(input.code, input.patch, None, valid) == Ok(trail.body)
    ensures ws != [] ==> ws[0].noted == old(c.noted)
    ensures trail.Creating? && r.Ok? ==> Complete(input, trail.birth, ws, c.links, valid, r.value)
    ensures trail.Posting? ==> input.items.None? && outer == Some(None)
    ensures trail.Posting? && r.Ok? ==> |ws| == 1 && Includes(r.value, trail.body) && DatesCleared(r.value, input.patch)
    // Success on items: the links last observed are exactly the wanted ones.
    ensures r.Ok? && input.items.Some? ==>
              && !trail.Posting?
              && c.links == Some(Links(if trail.Updating? then trail.plan.discount else trail.birth.id, Sort(Adds(input))))
    // A remote that does what it is told is updated exactly if nothing is to be refused, and given what it lacks.
    ensures trail.Updating? && old(Willing(c, event, trail.plan.before, trail.plan.discount)) && polls > 0 ==>
              && trail.plan.start == old(Sort(Of(c.world.value.links, trail.plan.discount)))
              && (r.Ok? <==> Startable(input, trail.plan.before, trail.plan.start))
    ensures
      && old(Barren(c, event)) && old(Distinct(Of(c.world.value.links, SENTINEL))) && polls > 0
      && ValidInput(input) && input.createIfMissing && input.discountId.None? && Prepare(input.code, input.patch, None, valid).Ok?
      && (input.items.Some? ==>
            && Prepare(input.code, Inactive(input).patch, None, valid).Ok?
            && Finishable(input, Prepare(input.code, Inactive(input).patch, None, valid).value, old(c.world).value.nextId, valid))
      ==> r.Ok?
    ensures trail.Updating? ==> trail.plan.event == event
    ensures r.Ok? && trail.Updating? ==> Business(r.value) == Business(Expected(trail.plan.before, trail.plan.body, input.patch))
  {
    hide Business; hide Sort; hide Expected; hide Scoped; hide Prepare; hide Legal; hide Ordered; hide Lifecycle; hide DatesCleared;
    hide Complete; hide Includes; hide Preserved; hide CapacityPreserved; hide Appears; hide Overtakes; hide ValidItems; hide Carries;
    hide Begun; hide Matched; hide Startable; hide Due; hide Leads; hide Willing; hide Written; hide Of; hide Finishable; hide Born; hide NewRow;
    hide Barren; hide Inactive; hide KeepsSome; hide UpToDate; hide ReadBack; hide Reread; hide Distinct;
    var none := Birth("", [], map[], map[], map[], 0, 0);
    trail, ws, outer, inner := Creating(none), [], None, None;
    NoWrites(none);
    assert old(c.sent) + [] == old(c.sent);
    if !ValidInput(input) {
      return Err(Invalid), trail, ws, outer, inner;
    }
    var row := FirstRow(c, event);
    outer := row;
    if row.None? {
      return Err(ReadFailed), trail, ws, outer, inner;
    }
    if input.discountId.Some? && (row.value.None? || IdOf(row.value.value) != input.discountId) {
      return Err(Mismatch), trail, ws, outer, inner;
    }
    if row.value.None? && !input.createIfMissing {
      return Err(Mismatch), trail, ws, outer, inner;
    }
    var body := Prepare(input.code, input.patch, row.value, valid);
    if body.Err? {
      return Err(Invalid), trail, ws, outer, inner;
    }
    if row.value.Some? {
      var id := IdOf(row.value.value);
      if id.None? || Code !in row.value.value || row.value.value[Code] != Text(input.code) {
        return Err(Mismatch), trail, ws, outer, inner;
      }
      ghost var p;
      PreparedPut(input, row.value.value, valid);
      r, p, ws := UpdateDiscount(c, input, event, row.value.value, id.value, body.value, polls);
      trail := Updating(p);
      if input.items.None? {
        OnlyUpdates(p, ws);
      }
      if r.Ok? {
        UpdatePreserves(p, input, row.value.value, valid, r.value);
      }
      return;
    }
    if input.items.Some? {
      r, trail, ws, inner := ConfigureItemDiscount(c, input, event, valid, polls);
      if r.Ok? {
        CompleteLinks(input, trail.birth, ws, c.links, valid, r.value);
      }
      return;
    }
    var created;
    PostIsBorn(c, input, event, valid);
    created, ws := Create(c, input, event, body.value, polls);
    return if created.Ok? then Ok(created.value.1) else Err(created.error), Posting(body.value), ws, outer, inner;
  }

  lemma PostIsBorn(c: Cvent, input: Input, event: EventData, valid: Row -> bool)
    requires ValidInput(input) && Prepare(input.code, input.patch, None, valid).Ok?
    ensures Barren(c, event) ==> Vacant(c, event) && Born(c.world.value, Prepare(input.code, input.patch, None, valid).value, input.patch)
  {
    hide Prepare; hide Born; hide ValidItems; hide Of;
    if Barren(c, event) {
      PatchIsListed(input.patch);
      BornOfPrepared(c.world.value, input.code, input.patch, valid);
    }
  }

  lemma OnlyUpdates(p: Plan, ws: seq<Sent>)
    requires Legal(p, ws) && p.adds == [] && p.removes == []
    ensures forall i | 0 <= i < |ws| :: ws[i].write.Update?
  {
    forall i | 0 <= i < |ws|
      ensures ws[i].write.Update?
    {
      assert WriteLegal(p, ws, i);
    }
  }

  lemma CompleteLinks(input: Input, b: Birth, ws: seq<Sent>, links: Option<Links>, valid: Row -> bool, saved: Row)
    requires Complete(input, b, ws, links, valid, saved)
    ensures links == Some(Links(b.id, Sort(Adds(input))))
  {
    hide Business; hide Expected; hide Scoped; hide Prepare; hide DatesCleared; hide Sort;
  }
}
