/** The cursor paginator over a server that may answer anything, differently every time. */
module Pagination {
  import opened Wrappers

  const PAGE_LIMIT := 200

  /** `extras` stands for embedded credentials or a fragment. */
  datatype Url = Url(base: string, extras: bool, params: seq<(string, string)>)

  datatype Link = NoLink | BadLink | Linked(url: Url)

  datatype TokenField = NoToken | Token(text: string) | NotText

  datatype Response<+T> = Failed | Page(data: seq<T>, link: Link, token: TokenField)

  datatype Exchange<+T> = Exchange(url: Url, response: Response<T>)

  datatype Problem = Transport | InvalidPage | UnsafeOrRepeated | TooManyPages

  const TOKEN := "token"

  function Values(params: seq<(string, string)>, key: string): seq<string> {
    if params == [] then [] else (if params[0].0 == key then [params[0].1] else []) + Values(params[1..], key)
  }

  function WithCursor(first: Url, cursor: string): Url {
    if cursor == "" then first else first.(params := first.params + [(TOKEN, cursor)])
  }

  /** The cursor a request carries. */
  function CursorOf(url: Url): string {
    var v := Values(url.params, TOKEN);
    if v == [] then "" else v[0]
  }

  /** The first request: single-valued parameters and no cursor. */
  predicate Initial(first: Url) {
    !first.extras && Values(first.params, TOKEN) == []
    && forall k | 0 <= k < |first.params| :: Values(first.params, first.params[k].0) == [first.params[k].1]
  }

  /** A page may link only to its own route, with nothing but the cursor changed. */
  predicate SafeLink(linked: Url, first: Url) {
    && linked.base == first.base && !linked.extras
    && forall k | 0 <= k < |linked.params| ::
         && |Values(linked.params, linked.params[k].0)| == 1
         && (linked.params[k].0 == TOKEN || Values(first.params, linked.params[k].0) == [linked.params[k].1])
  }

  /** Where a response points: a failure, the end, or a next cursor. */
  function Next<T>(r: Response<T>, first: Url, itemOk: T -> bool): Result<Option<string>, Problem> {
    if r.Failed? then Err(Transport)
    else if !(forall k | 0 <= k < |r.data| :: itemOk(r.data[k])) || r.token.NotText? then Err(InvalidPage)
    else
      var token := if r.token.Token? then r.token.text else "";
      match r.link
      case NoLink => Ok(if token == "" then None else Some(token))
      case BadLink => Err(InvalidPage)
      case Linked(url) =>
        if !SafeLink(url, first) then Err(UnsafeOrRepeated)
        else
          var linked := CursorOf(url);
          if linked == "" || (token != "" && token != linked) then Err(UnsafeOrRepeated) else Ok(Some(linked))
  }

  lemma ValuesCons(pair: (string, string), rest: seq<(string, string)>, key: string)
    ensures Values([pair] + rest, key) == (if pair.0 == key then [pair.1] else []) + Values(rest, key)
  {
    assert ([pair] + rest)[1..] == rest;
  }

  lemma {:induction false} ValuesSplit(a: seq<(string, string)>, b: seq<(string, string)>, key: string)
    ensures Values(a + b, key) == Values(a, key) + Values(b, key)
  {
    if a == [] {
      assert a + b == b;
    } else {
      hide Values;
      ValuesSplit(a[1..], b, key);
      assert a == [a[0]] + a[1..] && a + b == [a[0]] + (a[1..] + b);
      ValuesCons(a[0], a[1..], key);
      ValuesCons(a[0], a[1..] + b, key);
    }
  }

  /** Requests built from the first one always carry the cursor asked for and stay in scope. */
  lemma BuiltRequestsAreInScope(first: Url, cursor: string)
    requires Initial(first)
    ensures CursorOf(WithCursor(first, cursor)) == cursor && SafeLink(WithCursor(first, cursor), first)
  {
    if cursor != "" {
      var extra := [(TOKEN, cursor)];
      assert extra[1..] == [];
      forall key
        ensures Values(first.params + extra, key) == Values(first.params, key) + (if key == TOKEN then [cursor] else [])
      {
        ValuesSplit(first.params, extra, key);
      }
      forall k | 0 <= k < |first.params|
        ensures first.params[k].0 != TOKEN
      {
        assert Values(first.params, first.params[k].0) == [first.params[k].1];
      }
    }
  }

  // ---- What a page must say ------------------------------------------------------------------------------------

  /** The route of the first request with this one cursor, and no parameter that the first request does not have. */
  ghost predicate SameRoute(url: Url, first: Url, cursor: string) {
    && url.base == first.base && !url.extras && (TOKEN, cursor) in url.params
    && (forall p <- url.params :: p.0 != TOKEN ==> p in first.params)
    && forall i, j :: 0 <= i < |url.params| && 0 <= j < |url.params| && url.params[i].0 == url.params[j].0 ==> i == j
  }

  /** A page of good items that ends the collection, or names the next cursor: by its token, by its link, or by both alike. */
  ghost predicate Points<T(!new)>(r: Response<T>, first: Url, itemOk: T -> bool, cursor: Option<string>) {
    && r.Page? && (forall x <- r.data :: itemOk(x))
    && match cursor {
         case None => r.link == NoLink && r.token in {NoToken, Token("")}
         case Some(c) =>
           && c != "" && r.token in {NoToken, Token(""), Token(c)} && !r.link.BadLink?
           && (if r.link.NoLink? then r.token == Token(c) else SameRoute(r.link.url, first, c))
       }
  }

  lemma {:induction false} ValuesMember(params: seq<(string, string)>, key: string, value: string)
    ensures value in Values(params, key) <==> (key, value) in params
  {
    if params != [] {
      ValuesMember(params[1..], key, value);
    }
  }

  lemma {:induction false} ValuesMany(params: seq<(string, string)>, i: nat, j: nat)
    requires i < j < |params| && params[i].0 == params[j].0
    ensures |Values(params, params[i].0)| > 1
  {
    if i > 0 {
      ValuesMany(params[1..], i - 1, j - 1);
    } else {
      ValuesMember(params[1..], params[j].0, params[j].1);
      assert params[j] == params[1..][j - 1];
    }
  }

  lemma {:induction false} ValuesOne(params: seq<(string, string)>, key: string)
    requires forall i, j :: 0 <= i < |params| && 0 <= j < |params| && params[i].0 == params[j].0 ==> i == j
    ensures |Values(params, key)| <= 1
  {
    if params != [] {
      var rest := params[1..];
      assert forall i | 0 <= i < |rest| :: rest[i] == params[i + 1];
      ValuesOne(rest, key);
      if params[0].0 == key {
        assert forall k | 0 <= k < |rest| :: rest[k].0 != key;
        ValuesNone(rest, key);
      }
    }
  }

  lemma {:induction false} ValuesNone(params: seq<(string, string)>, key: string)
    requires forall k | 0 <= k < |params| :: params[k].0 != key
    ensures Values(params, key) == []
  {
    if params != [] {
      assert forall k | 0 <= k < |params[1..]| :: params[1..][k] == params[k + 1];
      ValuesNone(params[1..], key);
    }
  }

  /** No name twice, said of positions and of values. */
  lemma SingleValued(params: seq<(string, string)>)
    ensures (forall k | 0 <= k < |params| :: |Values(params, params[k].0)| == 1)
            <==> forall i, j :: 0 <= i < |params| && 0 <= j < |params| && params[i].0 == params[j].0 ==> i == j
  {
    if forall i, j :: 0 <= i < |params| && 0 <= j < |params| && params[i].0 == params[j].0 ==> i == j {
      forall k | 0 <= k < |params|
        ensures |Values(params, params[k].0)| == 1
      {
        ValuesOne(params, params[k].0);
        ValuesMember(params, params[k].0, params[k].1);
        assert params[k] in params;
      }
    } else {
      var i, j :| 0 <= i < |params| && 0 <= j < |params| && params[i].0 == params[j].0 && i != j;
      ValuesMany(params, if i < j then i else j, if i < j then j else i);
    }
  }

  lemma InitialValue(first: Url, key: string, value: string)
    requires Initial(first)
    ensures Values(first.params, key) == [value] <==> (key, value) in first.params
  {
    ValuesMember(first.params, key, value);
    if (key, value) in first.params {
      var k :| 0 <= k < |first.params| && first.params[k] == (key, value);
    }
  }

  lemma SafeLinkIs(url: Url, first: Url, cursor: string)
    requires Initial(first) && cursor != ""
    ensures SafeLink(url, first) && CursorOf(url) == cursor <==> SameRoute(url, first, cursor)
  {
    hide Values;
    SingleValued(url.params);
    ValuesMember(url.params, TOKEN, cursor);
    forall k | 0 <= k < |url.params|
      ensures Values(first.params, url.params[k].0) == [url.params[k].1] <==> url.params[k] in first.params
      ensures url.params[k] in url.params
    {
      InitialValue(first, url.params[k].0, url.params[k].1);
      assert url.params[k] == (url.params[k].0, url.params[k].1);
    }
    ValuesAtMostOne(url.params, TOKEN);
    if Values(url.params, TOKEN) != [] {
      ValuesMember(url.params, TOKEN, Values(url.params, TOKEN)[0]);
    }
  }

  lemma ValuesAtMostOne(params: seq<(string, string)>, key: string)
    ensures (forall i, j :: 0 <= i < |params| && 0 <= j < |params| && params[i].0 == params[j].0 ==> i == j) ==> |Values(params, key)| <= 1
  {
    if forall i, j :: 0 <= i < |params| && 0 <= j < |params| && params[i].0 == params[j].0 ==> i == j {
      ValuesOne(params, key);
    }
  }

  /** Exactly when a page ends the collection, and exactly which cursor it asks for next; everything else is refused. */
  lemma NextIs<T(!new)>(r: Response<T>, first: Url, itemOk: T -> bool, cursor: Option<string>)
    requires Initial(first)
    ensures Next(r, first, itemOk) == Ok(cursor) <==> Points(r, first, itemOk, cursor)
  {
    hide SafeLink; hide CursorOf; hide SameRoute; hide Initial;
    if r.Page? {
      assert (forall k | 0 <= k < |r.data| :: itemOk(r.data[k])) <==> forall x <- r.data :: itemOk(x);
      if r.link.Linked? {
        if cursor.Some? && cursor.value != "" {
          SafeLinkIs(r.link.url, first, cursor.value);
        }
      }
    }
  }

  // ---- What a conversation with the server must look like ------------------------------------------

  /** Each request follows the page before it, no cursor is asked for twice, and the length is bounded. */
  ghost predicate Chain<T(!new)>(log: seq<Exchange<T>>, first: Url, itemOk: T -> bool) {
    && |log| <= PAGE_LIMIT
    && (forall k | 0 <= k < |log| :: log[k].url == WithCursor(first, CursorOf(log[k].url)))
    && (|log| > 0 ==> log[0].url == first)
    && (forall k | 0 < k < |log| :: Next(log[k - 1].response, first, itemOk) == Ok(Some(CursorOf(log[k].url))))
    && (forall i, j | 0 <= i < j < |log| :: CursorOf(log[i].url) != CursorOf(log[j].url))
  }

  function AllData<T>(log: seq<Exchange<T>>): seq<T> {
    if log == [] then []
    else AllData(log[..|log| - 1]) + (match log[|log| - 1].response case Failed => [] case Page(data, _, _) => data)
  }

  class Server<T(0)> {
    ghost var log: seq<Exchange<T>>

    constructor ()
      ensures log == []
    {
      log := [];
    }

    method Get(url: Url) returns (r: Response<T>)
      modifies this
      ensures log == old(log) + [Exchange(url, r)]
    {
      r := *;
      log := log + [Exchange(url, r)];
    }
  }

  /** The chain may go on with `url`; `seen` and `items` are what was asked for and received. */
  ghost predicate Going<T(!new)>(log: seq<Exchange<T>>, first: Url, itemOk: T -> bool, url: Url, seen: set<string>, items: seq<T>) {
    && Chain(log, first, itemOk) && items == AllData(log)
    && (forall k | 0 <= k < |log| :: CursorOf(log[k].url) in seen)
    && url == WithCursor(first, CursorOf(url)) && SafeLink(url, first)
    && (if log == [] then url == first else Next(log[|log| - 1].response, first, itemOk) == Ok(Some(CursorOf(url))))
  }

  lemma Starts<T(!new)>(first: Url, itemOk: T -> bool)
    requires Initial(first)
    ensures Going<T>([], first, itemOk, first, {}, [])
  {
    hide Next; hide SafeLink; hide WithCursor; hide CursorOf; hide Initial;
    FirstCursor(first);
  }

  /** The next request of a chain, and what its answer adds. */
  lemma ChainGrows<T(!new)>(log: seq<Exchange<T>>, x: Exchange<T>, first: Url, itemOk: T -> bool)
    requires Chain(log, first, itemOk) && |log| < PAGE_LIMIT && x.url == WithCursor(first, CursorOf(x.url))
    requires forall k | 0 <= k < |log| :: CursorOf(log[k].url) != CursorOf(x.url)
    requires if log == [] then x.url == first else Next(log[|log| - 1].response, first, itemOk) == Ok(Some(CursorOf(x.url)))
    ensures Chain(log + [x], first, itemOk)
  {
    hide Next; hide WithCursor; hide CursorOf; hide AllData;
    var now := log + [x];
    assert now[|log|] == x && forall k | 0 <= k < |log| :: now[k] == log[k];
    forall k | 0 < k < |now|
      ensures Next(now[k - 1].response, first, itemOk) == Ok(Some(CursorOf(now[k].url)))
    {
      if k == |log| {
        assert now[k - 1] == log[|log| - 1];
      }
    }
    forall k | 0 <= k < |now|
      ensures now[k].url == WithCursor(first, CursorOf(now[k].url))
    {
      if k < |log| {
        assert now[k].url == log[k].url;
      }
    }
  }

  lemma DataGrows<T>(log: seq<Exchange<T>>, x: Exchange<T>)
    requires x.response.Page?
    ensures AllData(log + [x]) == AllData(log) + x.response.data
  {
    assert (log + [x])[..|log|] == log;
  }

  lemma Asks<T(!new)>(log: seq<Exchange<T>>, first: Url, itemOk: T -> bool, url: Url, seen: set<string>, items: seq<T>, x: Exchange<T>)
    requires Going(log, first, itemOk, url, seen, items) && |log| < PAGE_LIMIT && CursorOf(url) !in seen && x.url == url
    ensures Chain(log + [x], first, itemOk)
  {
    hide Next; hide WithCursor; hide CursorOf; hide Chain; hide SafeLink; hide AllData;
    ChainGrows(log, x, first, itemOk);
  }

  lemma GoesOn<T(!new)>(log: seq<Exchange<T>>, first: Url, itemOk: T -> bool, url: Url, seen: set<string>, items: seq<T>, x: Exchange<T>, cursor: string)
    requires Initial(first) && Going(log, first, itemOk, url, seen, items) && x.url == url && x.response.Page?
    requires Chain(log + [x], first, itemOk) && Next(x.response, first, itemOk) == Ok(Some(cursor))
    ensures Going(log + [x], first, itemOk, WithCursor(first, cursor), seen + {CursorOf(url)}, items + x.response.data)
  {
    hide Next; hide WithCursor; hide CursorOf; hide Chain; hide SafeLink; hide AllData; hide Initial;
    BuiltRequestsAreInScope(first, cursor);
    DataGrows(log, x);
  }

  lemma NotEnded<T(!new)>(log: seq<Exchange<T>>, first: Url, itemOk: T -> bool, url: Url, seen: set<string>, items: seq<T>)
    requires Going(log, first, itemOk, url, seen, items)
    ensures Chain(log, first, itemOk) && items == AllData(log)
    ensures log != [] ==> Next(log[|log| - 1].response, first, itemOk) != Ok(None)
  {
    hide Next; hide WithCursor; hide CursorOf; hide Chain; hide SafeLink; hide AllData;
  }

  ghost predicate Asked<T>(log: seq<Exchange<T>>, cursor: string) {
    exists k | 0 <= k < |log| :: CursorOf(log[k].url) == cursor
  }

  /** Why a collection was given up: its last page was refused, or asks for a cursor again, or for one page too many. */
  ghost predicate Stuck<T(!new)>(log: seq<Exchange<T>>, first: Url, itemOk: T -> bool, problem: Problem) {
    && log != []
    && match Next(log[|log| - 1].response, first, itemOk) {
         case Err(e) => problem == e
         case Ok(None) => false
         case Ok(Some(c)) => if |log| == PAGE_LIMIT then problem == TooManyPages else Asked(log, c) && problem == UnsafeOrRepeated
       }
  }

  /** Every request is safe to send, and the page before it asked for it. */
  lemma StillSafe<T(!new)>(log: seq<Exchange<T>>, first: Url, itemOk: T -> bool, url: Url, seen: set<string>, items: seq<T>)
    requires Going(log, first, itemOk, url, seen, items)
    ensures SafeLink(url, first) && (log != [] ==> Next(log[|log| - 1].response, first, itemOk) == Ok(Some(CursorOf(url))))
  {
    hide Next; hide WithCursor; hide CursorOf; hide Chain; hide SafeLink; hide AllData;
  }

  lemma AskedMore<T>(log: seq<Exchange<T>>, x: Exchange<T>, cursor: string, seen: set<string>)
    requires (forall c <- seen :: Asked(log, c)) && CursorOf(x.url) == cursor
    ensures forall c <- seen + {cursor} :: Asked(log + [x], c)
  {
    hide CursorOf;
    assert (log + [x])[|log|] == x;
    forall c <- seen + {cursor}
      ensures Asked(log + [x], c)
    {
      if c in seen {
        var k :| 0 <= k < |log| && CursorOf(log[k].url) == c;
        assert (log + [x])[k] == log[k];
      }
    }
  }

  /**
   * Whatever the server answers, the conversation is a cursor chain, and a list is returned exactly when the
   * chain reached a page with no next cursor; then it is the concatenation of every page.
   */
  method ReadCollection<T(!new, 0)>(server: Server<T>, first: Url, itemOk: T -> bool) returns (r: Result<seq<T>, Problem>)
    requires Initial(first) && server.log == []
    modifies server
    ensures Chain(server.log, first, itemOk)
    ensures r.Ok? <==> server.log != [] && Next(server.log[|server.log| - 1].response, first, itemOk) == Ok(None)
    ensures r.Ok? ==> r.value == AllData(server.log)
    ensures r.Err? ==> Stuck(server.log, first, itemOk, r.error)
  {
    hide Next; hide SafeLink; hide WithCursor; hide CursorOf; hide Initial; hide Chain; hide Going; hide AllData;
    var url := first;
    var seen: set<string> := {};
    var items: seq<T> := [];
    Starts<T>(first, itemOk);
    for count := 0 to PAGE_LIMIT
      invariant |server.log| == count && Going(server.log, first, itemOk, url, seen, items)
      invariant forall c <- seen :: Asked(server.log, c)
    {
      StillSafe(server.log, first, itemOk, url, seen, items);
      NotEnded(server.log, first, itemOk, url, seen, items);
      var cursor := CursorOf(url);
      if !SafeLink(url, first) || cursor in seen {
        return Err(UnsafeOrRepeated);
      }
      ghost var before := server.log;
      var response := server.Get(url);
      ghost var x := Exchange(url, response);
      Asks(before, first, itemOk, url, seen, items, x);
      var next := Next(response, first, itemOk);
      if next.Err? {
        return Err(next.error);
      }
      NextNeedsPage(response, first, itemOk);
      if next.value.None? {
        DataGrows(before, x);
        return Ok(items + response.data);
      }
      AskedMore(before, x, cursor, seen);
      GoesOn(before, first, itemOk, url, seen, items, x, next.value.value);
      seen := seen + {cursor};
      items := items + response.data;
      url := WithCursor(first, next.value.value);
    }
    NotEnded(server.log, first, itemOk, url, seen, items);
    StillSafe(server.log, first, itemOk, url, seen, items);
    return Err(TooManyPages);
  }

  lemma NextNeedsPage<T>(r: Response<T>, first: Url, itemOk: T -> bool)
    requires Next(r, first, itemOk).Ok?
    ensures r.Page?
  {
  }

  lemma FirstCursor(first: Url)
    requires Initial(first)
    ensures CursorOf(first) == "" && WithCursor(first, "") == first && SafeLink(first, first)
  {
    BuiltRequestsAreInScope(first, "");
  }

  /** A cursor chain that ends has exactly one possible content: pages never repeat or go missing. */
  lemma {:induction false} ChainDeterminesRequests<T(!new)>(log: seq<Exchange<T>>, other: seq<Exchange<T>>, first: Url, itemOk: T -> bool)
    requires Chain(log, first, itemOk) && Chain(other, first, itemOk) && |log| <= |other|
    requires forall k | 0 <= k < |log| :: log[k].response == other[k].response
    requires log != [] && Next(log[|log| - 1].response, first, itemOk) == Ok(None)
    ensures log == other
  {
    hide Next; hide WithCursor; hide CursorOf;
    forall k | 0 <= k < |log|
      ensures log[k] == other[k]
    {
      if k > 0 {
        assert Next(log[k - 1].response, first, itemOk) == Ok(Some(CursorOf(log[k].url)));
        assert Next(other[k - 1].response, first, itemOk) == Ok(Some(CursorOf(other[k].url)));
      }
    }
    if |log| < |other| {
      ContinuesBeforeTheEnd(other, first, itemOk, |log| - 1);
    }
  }

  lemma ContinuesBeforeTheEnd<T(!new)>(log: seq<Exchange<T>>, first: Url, itemOk: T -> bool, k: nat)
    requires Chain(log, first, itemOk) && k + 1 < |log|
    ensures Next(log[k].response, first, itemOk) != Ok(None)
  {
    assert Next(log[k + 1 - 1].response, first, itemOk) == Ok(Some(CursorOf(log[k + 1].url)));
  }
}
