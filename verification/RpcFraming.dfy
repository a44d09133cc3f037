/** Line framing of the native process's stdout, and the bookkeeping of outstanding requests. */
module RpcFraming {
  import opened Wrappers

  /** What JSON parsing makes of a line: an error, the value null, or a value with fields to look at. */
  datatype Parsed<+E> = Unparsable | Null | Value(value: E)

  /** One complete line: nothing to do, a fault, an exception that ends the process, or an event. */
  datatype Line<+E> = Skipped | Bad | Lethal | Event(event: E)

  // ---- Splitting a stream into lines ------------------------------------------------------------

  /** The first newline, or the end. */
  function LineEnd(text: string): (i: nat)
    ensures i <= |text| && '\n' !in text[..i]
    ensures i < |text| ==> text[i] == '\n'
  {
    if text == "" || text[0] == '\n' then 0 else
      var i := LineEnd(text[1..]);
      assert text[..i + 1] == [text[0]] + text[1..][..i];
      i + 1
  }

  function Trimmed(line: string): string {
    if line != "" && line[|line| - 1] == '\r' then line[..|line| - 1] else line
  }

  function Classify<E>(line: string, parse: string -> Parsed<E>): Line<E> {
    var l := Trimmed(line);
    if l == "" then Skipped else match parse(l) case Unparsable => Bad case Null => Lethal case Value(e) => Event(e)
  }

  /** A line means its text, with or without a carriage return at its end. */
  lemma LineMeaning<E>(text: string, ending: string, parse: string -> Parsed<E>)
    requires ending == "\r" || (ending == "" && (text == "" || text[|text| - 1] != '\r'))
    ensures var line := Classify(text + ending, parse);
            && (line.Skipped? <==> text == "")
            && (line.Bad? <==> text != "" && parse(text).Unparsable?)
            && (line.Lethal? <==> text != "" && parse(text).Null?)
            && (line.Event? ==> parse(text) == Value(line.event))
  {
    assert text + "" == text;
    assert (text + "\r")[..|text|] == text;
  }

  /** Every complete line of the stream, up to one that ends the process. */
  function Lines<E>(text: string, parse: string -> Parsed<E>): seq<Line<E>>
    decreases |text|
  {
    var i := LineEnd(text);
    if i == |text| || Classify(text[..i], parse).Lethal? then []
    else [Classify(text[..i], parse)] + Lines(text[i + 1..], parse)
  }

  function Events<E>(lines: seq<Line<E>>): seq<E> {
    if lines == [] then []
    else (if lines[0].Event? then [lines[0].event] else []) + Events(lines[1..])
  }

  /** No event follows an unparsable line. */
  predicate Clean<E>(lines: seq<Line<E>>) {
    lines == [] || (if lines[0].Bad? then Silent(lines[1..]) else Clean(lines[1..]))
  }

  predicate Silent<E>(lines: seq<Line<E>>) {
    forall k | 0 <= k < |lines| :: !lines[k].Event?
  }

  lemma {:induction false} SilentEvents<E>(lines: seq<Line<E>>)
    ensures Silent(lines) <==> Events(lines) == []
  {
    if lines != [] {
      SilentEvents(lines[1..]);
      if Silent(lines[1..]) && !lines[0].Event? {
        assert forall k | 0 < k < |lines| :: lines[k] == lines[1..][k - 1];
      }
      if Silent(lines) {
        assert forall k | 0 <= k < |lines| - 1 :: lines[1..][k] == lines[k + 1];
      }
    }
  }

  // ---- The data callback ---------------------------------------------------------------------------

  /** How a callback ends: waiting for more, after a fault, or by throwing at the fields of null. */
  datatype Fate = Waiting | Faulted | Thrown

  datatype Drained<+E> = Drained(rest: string, events: seq<E>, fate: Fate)

  /** What one callback does with its buffer: it stops at the first bad line and leaves the rest unread. */
  function Drain<E>(buffer: string, parse: string -> Parsed<E>): Drained<E>
    decreases |buffer|
  {
    var i := LineEnd(buffer);
    if i == |buffer| then Drained(buffer, [], Waiting)
    else
      var rest := buffer[i + 1..];
      match Classify(buffer[..i], parse)
      case Bad => Drained(rest, [], Faulted)
      case Lethal => Drained(rest, [], Thrown)
      case Skipped => Drain(rest, parse)
      case Event(e) => var d := Drain(rest, parse); d.(events := [e] + d.events)
  }

  // The unfolding of Drain, for proofs that keep its definition out of sight.
  lemma DrainUnfold<E>(buffer: string, parse: string -> Parsed<E>)
    ensures Drain(buffer, parse) ==
            var i := LineEnd(buffer);
            if i == |buffer| then Drained(buffer, [], Waiting)
            else
              var rest := buffer[i + 1..];
              match Classify(buffer[..i], parse)
              case Bad => Drained(rest, [], Faulted)
              case Lethal => Drained(rest, [], Thrown)
              case Skipped => Drain(rest, parse)
              case Event(e) => var d := Drain(rest, parse); d.(events := [e] + d.events)
  {
    hide LineEnd; hide Classify;
  }

  function Concat(chunks: seq<string>): string {
    if chunks == [] then "" else chunks[0] + Concat(chunks[1..])
  }

  /** The events emitted over a whole stream of chunks, starting from `buffer`. */
  function Feed<E>(buffer: string, chunks: seq<string>, parse: string -> Parsed<E>): seq<E>
    decreases |chunks|
  {
    if chunks == [] then []
    else
      var d := Drain(buffer + chunks[0], parse);
      if d.fate.Thrown? then d.events else d.events + Feed(d.rest, chunks[1..], parse)
  }

  lemma LineEndStable(text: string, more: string)
    requires LineEnd(text) < |text|
    ensures LineEnd(text + more) == LineEnd(text)
  {
    if text[0] != '\n' {
      assert (text + more)[1..] == text[1..] + more;
      LineEndStable(text[1..], more);
    }
  }

  lemma LinesUnfold<E>(text: string, more: string, parse: string -> Parsed<E>)
    requires LineEnd(text) < |text|
    ensures var line := Classify(text[..LineEnd(text)], parse);
            Lines(text + more, parse) == if line.Lethal? then [] else [line] + Lines(text[LineEnd(text) + 1..] + more, parse)
  {
    var i := LineEnd(text);
    LineEndStable(text, more);
    assert (text + more)[..i] == text[..i];
    assert (text + more)[i + 1..] == text[i + 1..] + more;
  }

  /** The first of some lines. */
  lemma LinesFacts<E>(lines: seq<Line<E>>)
    ensures lines == [] ==> Events(lines) == []
    ensures lines != [] ==> Events(lines) == (if lines[0].Event? then [lines[0].event] else []) + Events(lines[1..])
    ensures lines != [] && Clean(lines) ==> if lines[0].Bad? then Silent(lines[1..]) else Clean(lines[1..])
  {
  }

  /** One callback, seen from the whole stream: what it emitted plus what remains is what the stream holds. */
  lemma {:induction false} DrainAccounts<E>(buffer: string, more: string, parse: string -> Parsed<E>)
    requires Clean(Lines(buffer + more, parse))
    ensures var d := Drain(buffer, parse);
            && (d.fate.Thrown? ==> Events(Lines(buffer + more, parse)) == d.events)
            && (!d.fate.Thrown? ==>
                  && Events(Lines(buffer + more, parse)) == d.events + Events(Lines(d.rest + more, parse))
                  && Clean(Lines(d.rest + more, parse)))
            && (d.fate.Faulted? ==> Silent(Lines(d.rest + more, parse)))
            && (d.fate.Waiting? ==> LineEnd(d.rest) == |d.rest|)
    decreases |buffer|
  {
    hide Classify; hide LineEnd; hide Silent; hide Drain; hide Lines; hide Events; hide Clean;
    DrainUnfold(buffer, parse);
    var i := LineEnd(buffer);
    if i < |buffer| {
      var rest := buffer[i + 1..];
      LinesUnfold(buffer, more, parse);
      var lines := Lines(buffer + more, parse);
      LinesFacts(lines);
      if !Classify(buffer[..i], parse).Lethal? {
        assert lines[1..] == Lines(rest + more, parse);
        if lines[0].Bad? {
          SilentIsClean(lines[1..]);
        } else {
          DrainAccounts(rest, more, parse);
        }
      }
    }
  }

  lemma {:induction false} SilentIsClean<E>(lines: seq<Line<E>>)
    requires Silent(lines)
    ensures Clean(lines) && Events(lines) == []
  {
    SilentEvents(lines);
    if lines != [] {
      assert Silent(lines[1..]) by {
        assert forall k | 0 <= k < |lines| - 1 :: lines[1..][k] == lines[k + 1];
      }
      SilentIsClean(lines[1..]);
    }
  }

  lemma {:induction false} FeedClean<E>(buffer: string, chunks: seq<string>, parse: string -> Parsed<E>)
    requires Clean(Lines(buffer + Concat(chunks), parse))
    requires LineEnd(buffer) == |buffer| || Silent(Lines(buffer + Concat(chunks), parse))
    ensures Feed(buffer, chunks, parse) == Events(Lines(buffer + Concat(chunks), parse))
    decreases |chunks|
  {
    hide LineEnd; hide Lines; hide Drain; hide Silent; hide Clean;
    if chunks == [] {
      assert buffer + Concat(chunks) == buffer;
      if LineEnd(buffer) == |buffer| {
        NoLines(buffer, parse);
      } else {
        SilentEvents(Lines(buffer, parse));
      }
    } else {
      var more := Concat(chunks[1..]);
      var d := Drain(buffer + chunks[0], parse);
      assert buffer + Concat(chunks) == (buffer + chunks[0]) + more;
      DrainAccounts(buffer + chunks[0], more, parse);
      if !d.fate.Thrown? {
        FeedClean(d.rest, chunks[1..], parse);
      }
    }
  }

  lemma NoLines<E>(text: string, parse: string -> Parsed<E>)
    requires LineEnd(text) == |text|
    ensures Lines(text, parse) == []
  {
  }

  lemma {:induction false} DrainStopsShort<E>(buffer: string, parse: string -> Parsed<E>)
    requires !Clean(Lines(buffer, parse))
    ensures |Drain(buffer, parse).events| < |Events(Lines(buffer, parse))|
    decreases |buffer|
  {
    hide Classify; hide LineEnd; hide Silent;
    var i := LineEnd(buffer);
    var lines := Lines(buffer, parse);
    assert lines[1..] == Lines(buffer[i + 1..], parse);
    if lines[0].Bad? {
      SilentEvents(lines[1..]);
    } else {
      DrainStopsShort(buffer[i + 1..], parse);
    }
  }

  /** Cutting the stream after each newline. */
  function PerLine(text: string): (chunks: seq<string>)
    ensures Concat(chunks) == text
    decreases |text|
  {
    var i := LineEnd(text);
    if i == |text| then
      if text == "" then []
      else
        assert Concat([text]) == text + Concat([]);
        [text]
    else
      var rest := PerLine(text[i + 1..]);
      assert ([text[..i + 1]] + rest)[1..] == rest;
      [text[..i + 1]] + rest
  }

  lemma OneLine<E>(text: string, parse: string -> Parsed<E>)
    requires LineEnd(text) < |text|
    ensures var i := LineEnd(text); var line := Classify(text[..i], parse);
            Drain("" + text[..i + 1], parse) ==
            Drained("", if line.Event? then [line.event] else [],
                    match line case Bad => Faulted case Lethal => Thrown case _ => Waiting)
  {
    hide Drain; hide Classify; hide LineEnd;
    var i := LineEnd(text);
    var t := text[..i + 1];
    assert "" + t == t;
    FirstEnd(text);
    assert t[..i] == text[..i] && t[i + 1..] == "";
    DrainUnfold(t, parse);
    DrainUnfold("", parse);
  }

  lemma FirstEnd(text: string)
    requires LineEnd(text) < |text|
    ensures LineEnd(text[..LineEnd(text) + 1]) == LineEnd(text)
  {
    var i := LineEnd(text);
    if text[0] != '\n' {
      assert text[..i + 1][1..] == text[1..][..i];
      FirstEnd(text[1..]);
    }
  }

  /** Cut after each newline, every event before the end of the process is delivered. */
  lemma {:induction false} AllDelivered<E>(text: string, parse: string -> Parsed<E>)
    ensures Feed("", PerLine(text), parse) == Events(Lines(text, parse))
    decreases |text|
  {
    hide Classify; hide Drain;
    var i := LineEnd(text);
    if i < |text| {
      var rest := text[i + 1..];
      var chunks := PerLine(text);
      assert chunks[1..] == PerLine(rest) && chunks[0] == text[..i + 1];
      OneLine(text, parse);
      AllDelivered(rest, parse);
      var line := Classify(text[..i], parse);
      if !line.Lethal? {
        assert Lines(text, parse)[1..] == Lines(rest, parse);
      }
    } else if text != "" {
      assert PerLine(text)[1..] == [];
      assert "" + text == text;
      DrainUnfold(text, parse);
      assert Feed("", PerLine(text), parse) == [] + Feed(text, [], parse);
    }
  }

  /** Cut in no place at all, an unclean stream loses events. */
  lemma AllAtOnce<E>(text: string, parse: string -> Parsed<E>)
    requires !Clean(Lines(text, parse))
    ensures Concat([text]) == text && |Feed("", [text], parse)| < |Events(Lines(text, parse))|
  {
    hide Drain; hide Lines; hide Events;
    DrainStopsShort(text, parse);
    assert Concat([text]) == text + Concat([]);
    var d := Drain("" + text, parse);
    assert "" + text == text;
    assert Feed(d.rest, [], parse) == [];
    assert d.events + [] == d.events;
    assert Feed("", [text], parse) == d.events;
  }

  /** Every way of cutting the stream delivers all of its events exactly when no event follows an unparsable line. */
  lemma AllIsDeliveredIffClean<E>(text: string, parse: string -> Parsed<E>)
    ensures Clean(Lines(text, parse))
            <==> forall chunks | Concat(chunks) == text :: Feed("", chunks, parse) == Events(Lines(text, parse))
  {
    if Clean(Lines(text, parse)) {
      forall chunks | Concat(chunks) == text
        ensures Feed("", chunks, parse) == Events(Lines(text, parse))
      {
        assert "" + Concat(chunks) == text;
        FeedClean("", chunks, parse);
      }
    } else {
      AllAtOnce(text, parse);
    }
  }

  /** The emitted events depend only on the text, not on how it was cut, exactly when no event follows such a line. */
  lemma ChunkingIsIrrelevantIffClean<E>(text: string, parse: string -> Parsed<E>)
    ensures Clean(Lines(text, parse))
            <==> forall c1, c2 | Concat(c1) == text && Concat(c2) == text :: Feed("", c1, parse) == Feed("", c2, parse)
  {
    hide Clean; hide Lines; hide Feed;
    AllIsDeliveredIffClean(text, parse);
    AllDelivered(text, parse);
    assert Concat(PerLine(text)) == text;
  }

  /** The streams the protocol promises: every line parses, so cutting never matters. */
  lemma {:induction false} ParsableIsClean<E>(lines: seq<Line<E>>)
    requires forall k | 0 <= k < |lines| :: !lines[k].Bad?
    ensures Clean(lines)
  {
    if lines != [] {
      ParsableIsClean(lines[1..]);
    }
  }

  // ---- The connection object -----------------------------------------------------------------------

  type Id = string

  datatype Message = Response(id: Id, success: bool, text: string) | Notice(text: string)

  datatype Outcome = Resolved(text: string) | Rejected

  /** Requests still waiting, and every request that was ever answered with how. */
  datatype Ledger = Ledger(pending: set<Id>, settled: map<Id, Outcome>) {
    predicate Valid() {
      pending !! settled.Keys
    }

    function Settle(id: Id, outcome: Outcome): Ledger {
      Ledger(pending - {id}, settled[id := outcome])
    }

    function RejectAll(): Ledger {
      Ledger({}, settled + map id | id in pending :: Rejected)
    }

    function Receive(m: Message): Ledger {
      if m.Response? && m.id in pending then Settle(m.id, if m.success then Resolved(m.text) else Rejected) else this
    }

    /** New identities start waiting. */
    function Issue(ids: set<Id>): Ledger {
      Ledger(pending + (ids - settled.Keys), settled)
    }

    /** Each message, followed by the requests its event handlers issue on the spot. */
    function ReceiveAll(ms: seq<Message>, calls: seq<set<Id>>): Ledger
      requires |calls| == |ms|
      decreases |ms|
    {
      if ms == [] then this else Receive(ms[0]).Issue(calls[0]).ReceiveAll(ms[1..], calls[1..])
    }

    /** Later states only add settlements: nothing settled is ever settled again, nothing issued is lost. */
    ghost predicate Extends(earlier: Ledger) {
      && (forall id | id in earlier.settled :: id in settled && settled[id] == earlier.settled[id])
      && earlier.pending + earlier.settled.Keys <= pending + settled.Keys
    }
  }

  lemma {:induction false} ReceiveAllExtends(ledger: Ledger, ms: seq<Message>, calls: seq<set<Id>>)
    requires ledger.Valid() && |calls| == |ms|
    ensures ledger.ReceiveAll(ms, calls).Valid() && ledger.ReceiveAll(ms, calls).Extends(ledger)
    decreases |ms|
  {
    if ms != [] {
      var next := ledger.Receive(ms[0]).Issue(calls[0]);
      assert next.Valid() && next.Extends(ledger);
      ReceiveAllExtends(next, ms[1..], calls[1..]);
    }
  }

  class PiRpc {
    const parse: string -> Parsed<Message>
    var buffer: string
    var pending: set<Id>
    var closed: bool
    var issued: set<Id> // identities are generated, and never twice
    // Whether the controller's process ended, the settlements, and the events passed on, in order.
    ghost var dead: bool
    ghost var settled: map<Id, Outcome>
    ghost var emitted: seq<Message>

    ghost function Books(): Ledger
      reads this
    {
      Ledger(pending, settled)
    }

    ghost predicate Balanced()
      reads this
    {
      pending !! settled.Keys && issued == pending + settled.Keys
    }

    /** Every issued request is either waiting or settled, never both; a dead process has none waiting. */
    ghost predicate Valid()
      reads this
    {
      Balanced() && (closed ==> pending == {})
    }

    constructor (parse: string -> Parsed<Message>)
      ensures Valid() && issued == {} && buffer == "" && emitted == [] && !closed && !dead && this.parse == parse
    {
      this.parse, buffer, pending, closed := parse, "", {}, false;
      settled, issued, emitted, dead := map[], {}, [], false;
    }

    method Fail()
      requires Balanced()
      modifies this`pending, this`settled
      ensures Valid() && pending == {} && Books() == old(Books()).RejectAll() && Books().Extends(old(Books()))
    {
      settled := settled + map id | id in pending :: Rejected;
      pending := {};
    }

    /** Only identities never used before are issued; a closed process accepts none. */
    method Request(id: Id) returns (accepted: bool)
      requires Valid() && id !in issued
      modifies this`pending, this`issued
      ensures Valid() && accepted == !closed
      ensures issued == old(issued) + (if accepted then {id} else {})
      ensures pending == old(pending) + (if accepted then {id} else {})
    {
      if closed {
        return false;
      }
      pending, issued := pending + {id}, issued + {id};
      return true;
    }

    /** A timer exists only while its request is pending, because settling clears it. */
    method TimeOut(id: Id)
      requires Valid() && id in pending
      modifies this`pending, this`settled
      ensures Valid() && Books() == old(Books()).Settle(id, Rejected) && Books().Extends(old(Books()))
    {
      pending := pending - {id};
      settled := settled[id := Rejected];
    }

    method Exit()
      requires Valid()
      modifies this`pending, this`settled, this`closed
      ensures Valid() && closed && issued == settled.Keys && Books().Extends(old(Books()))
    {
      closed := true;
      Fail();
    }

    /** The event handlers run inside the loop, and may issue requests there and then. */
    method Handle() returns (calls: set<Id>)
      requires Valid()
      modifies this`pending, this`issued
      ensures Valid() && calls !! old(issued) && issued == old(issued) + calls && Books() == old(Books()).Issue(calls)
    {
      var wanted: set<Id> := *;
      calls := if closed then {} else wanted - issued;
      pending, issued := pending + calls, issued + calls;
    }

    method Dispatch(m: Message) returns (ghost calls: set<Id>)
      requires Valid()
      modifies this`pending, this`settled, this`emitted, this`issued
      ensures Valid() && Books() == old(Books()).Receive(m).Issue(calls) && emitted == old(emitted) + [m]
      ensures calls !! old(issued) && issued == old(issued) + calls
    {
      if m.Response? && m.id in pending {
        pending := pending - {m.id};
        settled := settled[m.id := if m.success then Resolved(m.text) else Rejected];
      }
      emitted := emitted + [m];
      calls := Handle();
    }

    static method FindNewline(text: string) returns (i: nat)
      ensures i == LineEnd(text)
    {
      i := 0;
      while i < |text| && text[i] != '\n'
        invariant i <= |text|
        invariant LineEnd(text) == i + LineEnd(text[i..])
      {
        assert text[i..][1..] == text[i + 1..];
        i := i + 1;
      }
    }

    /**
     * The `data` callback: each complete line in turn, abandoning the loop at the first bad one. `calls` are the
     * requests issued by the handlers of each event. A line holding null ends the process, and with it whatever
     * was waiting.
     */
    method OnData(chunk: string) returns (ghost calls: seq<set<Id>>)
      requires Valid() && !dead
      modifies this
      ensures Valid() && closed == old(closed) && old(issued) <= issued
      ensures var d := Drain(old(buffer) + chunk, parse);
              && buffer == d.rest && emitted == old(emitted) + d.events && (dead <==> d.fate.Thrown?) && |calls| == |d.events|
              && Books() == (var after := old(Books()).ReceiveAll(d.events, calls); if d.fate.Faulted? then after.RejectAll() else after)
      ensures Books().Extends(old(Books()))
    {
      hide LineEnd; hide Classify; hide Drain; hide Ledger.ReceiveAll; hide Ledger.Extends; hide Ledger.Receive; hide Ledger.Issue;
      buffer := buffer + chunk;
      ghost var start := buffer;
      ghost var sent: seq<Message> := [];
      ghost var books := Books();
      calls := [];
      ReceiveNone(books);
      assert old(emitted) + [] == old(emitted);
      assert [] + Drain(start, parse).events == Drain(start, parse).events;
      while true
        invariant Valid() && closed == old(closed) && old(issued) <= issued && !dead
        invariant emitted == old(emitted) + sent && |calls| == |sent|
        invariant Books() == books.ReceiveAll(sent, calls)
        invariant Drain(start, parse) == (var d := Drain(buffer, parse); d.(events := sent + d.events))
        decreases |buffer|
      {
        DrainUnfold(buffer, parse);
        var end := FindNewline(buffer);
        if end == |buffer| {
          assert sent + [] == sent;
          break;
        }
        var line := buffer[..end];
        buffer := buffer[end + 1..];
        match Classify(line, parse) {
          case Skipped =>
          case Bad =>
            assert sent + [] == sent;
            Fail();
            break;
          case Lethal =>
            assert sent + [] == sent;
            dead := true;
            break;
          case Event(m) =>
            ghost var ids := Dispatch(m);
            ReceiveAppend(books, sent, calls, m, ids);
            SentOn(sent, m, Drain(buffer, parse).events, old(emitted));
            sent := sent + [m];
            calls := calls + [ids];
        }
      }
      ReceiveAllExtends(books, sent, calls);
      RejectAllExtends(books, books.ReceiveAll(sent, calls));
    }
  }

  lemma SentOn(sent: seq<Message>, m: Message, rest: seq<Message>, emitted: seq<Message>)
    ensures sent + ([m] + rest) == sent + [m] + rest && emitted + (sent + [m]) == emitted + sent + [m]
  {
  }

  lemma ReceiveNone(ledger: Ledger)
    ensures ledger.ReceiveAll([], []) == ledger
  {
  }

  lemma RejectAllExtends(ledger: Ledger, later: Ledger)
    requires later.Valid() && later.Extends(ledger)
    ensures later.RejectAll().Valid() && later.RejectAll().Extends(ledger)
  {
  }

  lemma {:induction false} ReceiveAppend(ledger: Ledger, ms: seq<Message>, calls: seq<set<Id>>, m: Message, ids: set<Id>)
    requires |calls| == |ms|
    ensures ledger.ReceiveAll(ms + [m], calls + [ids]) == ledger.ReceiveAll(ms, calls).Receive(m).Issue(ids)
    decreases |ms|
  {
    hide Ledger.Receive; hide Ledger.Issue;
    if ms == [] {
      assert ms + [m] == [m] && calls + [ids] == [ids];
      assert [m][1..] == [] && [ids][1..] == [];
    } else {
      assert (ms + [m])[1..] == ms[1..] + [m] && (calls + [ids])[1..] == calls[1..] + [ids];
      ReceiveAppend(ledger.Receive(ms[0]).Issue(calls[0]), ms[1..], calls[1..], m, ids);
    }
  }
}
