/** The browser-failure circuit breaker: a three-entry list standing for the failures of the last ten minutes. */
module FailureGuard {
  import opened Wrappers

  const WINDOW_MS := 600_000
  const LIMIT := 3

  datatype Category = ExecutionUncertain | ElementResolution | BrowserUnresponsive

  datatype Failure = Failure(at: int, id: Option<string>)

  datatype Verdict = Verdict(category: Category, failuresInWindow: nat, executionUncertain: bool, tripped: bool)

  ghost predicate Sorted(h: seq<Failure>) {
    forall i, j | 0 <= i <= j < |h| :: h[i].at <= h[j].at
  }

  predicate Recent(f: Failure, now: int) {
    now - f.at <= WINDOW_MS
  }

  /** The failures of `h` still inside the window at `now`, in order. */
  function Window(h: seq<Failure>, now: int): (r: seq<Failure>)
    ensures |r| <= |h|
  {
    if h == [] then []
    else if Recent(h[0], now) then [h[0]] + Window(h[1..], now)
    else Window(h[1..], now)
  }

  function LastThree(h: seq<Failure>): (r: seq<Failure>) {
    if |h| <= LIMIT then h else h[|h| - LIMIT..]
  }

  predicate HasId(h: seq<Failure>, id: string) {
    exists k | 0 <= k < |h| :: h[k].id == Some(id)
  }

  lemma LastThreeIsFull(h: seq<Failure>)
    ensures |LastThree(h)| >= LIMIT <==> |h| >= LIMIT
    ensures |LastThree(h)| <= LIMIT
  {
  }

  /** How many entries at the front have expired. */
  ghost function Expired(h: seq<Failure>, now: int): (k: nat)
    ensures k <= |h|
  {
    if h == [] || Recent(h[0], now) then 0 else 1 + Expired(h[1..], now)
  }

  lemma {:induction false} WindowOfSuffix(h: seq<Failure>, m: nat, now: int)
    requires Sorted(h) && m <= |h|
    ensures Window(h[m..], now) == h[if m < Expired(h, now) then Expired(h, now) else m..]
    decreases |h|
  {
    if h != [] {
      if m == 0 {
        WindowOfSuffix(h[1..], 0, now);
        assert h[1..][0..] == h[1..] && h[0..] == h;
        if Recent(h[0], now) {
          assert h[1..] != [] ==> Recent(h[1..][0], now);
          assert [h[0]] + h[1..] == h;
        } else {
          assert h[1..][Expired(h[1..], now)..] == h[Expired(h, now)..];
        }
      } else {
        WindowOfSuffix(h[1..], m - 1, now);
        assert h[1..][m - 1..] == h[m..];
        if Recent(h[0], now) {
          assert h[1..] != [] ==> Recent(h[1..][0], now);
        } else {
          assert Expired(h, now) == 1 + Expired(h[1..], now);
          assert h[1..][Expired(h[1..], now)..] == h[Expired(h, now)..];
        }
      }
    }
  }

  lemma {:induction false} ExpiredGrows(h: seq<Failure>, now: int, later: int)
    requires now <= later
    ensures Expired(h, now) <= Expired(h, later)
  {
    if h != [] && !Recent(h[0], now) {
      ExpiredGrows(h[1..], now, later);
    }
  }

  /** The window at `now` is the end of the history that is at most ten minutes old. */
  lemma WindowIs(h: seq<Failure>, now: int) returns (k: nat)
    requires Sorted(h)
    ensures k <= |h| && Window(h, now) == h[k..]
    ensures forall i | 0 <= i < |h| :: now - h[i].at <= 600_000 <==> i >= k
  {
    k := Expired(h, now);
    WindowOfSuffix(h, 0, now);
    assert h[0..] == h;
    ExpiredIs(h, now);
  }

  lemma {:induction false} ExpiredIs(h: seq<Failure>, now: int)
    requires Sorted(h)
    ensures forall i | 0 <= i < |h| :: now - h[i].at <= 600_000 <==> i >= Expired(h, now)
  {
    if h != [] {
      assert forall i, j | 0 <= i <= j < |h[1..]| :: h[1..][i] == h[i + 1] && h[1..][j] == h[j + 1];
      ExpiredIs(h[1..], now);
      forall i | 0 <= i < |h|
        ensures now - h[i].at <= 600_000 <==> i >= Expired(h, now)
      {
        assert h[0].at <= h[i].at;
        if i > 0 {
          assert h[i] == h[1..][i - 1];
        }
      }
    }
  }

  /** Truncating to three entries at each failure and pruning later loses nothing that the last three would show. */
  lemma TruncationIsHarmless(h: seq<Failure>, now: int, later: int)
    requires Sorted(h) && now <= later
    ensures Window(LastThree(Window(h, now)), later) == LastThree(Window(h, later))
  {
    hide Window; hide Expired;
    var a, b := Expired(h, now), Expired(h, later);
    ExpiredGrows(h, now, later);
    WindowOfSuffix(h, 0, now);
    WindowOfSuffix(h, 0, later);
    assert h[0..] == h;
    assert Window(h, now) == h[a..] && Window(h, later) == h[b..];
    var m := if |h| - a <= LIMIT then a else |h| - LIMIT;
    assert LastThree(h[a..]) == h[m..];
    WindowOfSuffix(h, m, later);
  }

  lemma {:induction false} WindowAppend(h: seq<Failure>, f: Failure, now: int)
    requires Recent(f, now)
    ensures Window(h + [f], now) == Window(h, now) + [f]
  {
    if h == [] {
      assert h + [f] == [f];
    } else {
      WindowAppend(h[1..], f, now);
      assert (h + [f])[1..] == h[1..] + [f];
    }
  }

  lemma {:induction false} WindowShrinks(h: seq<Failure>, now: int, later: int)
    requires now <= later
    ensures |Window(h, later)| <= |Window(h, now)|
  {
    if h != [] {
      WindowShrinks(h[1..], now, later);
    }
  }

  /** The short list stands for the full history, now and at every later time. */
  ghost predicate Represents(failures: seq<Failure>, history: seq<Failure>, clock: int) {
    forall t | t >= clock :: Window(failures, t) == LastThree(Window(history, t))
  }

  lemma RepresentsAt(failures: seq<Failure>, history: seq<Failure>, clock: int, now: int)
    requires Represents(failures, history, clock) && clock <= now
    ensures Window(failures, now) == LastThree(Window(history, now))
  {
  }

  lemma PruneRepresents(h: seq<Failure>, now: int)
    requires Sorted(h)
    ensures Represents(LastThree(Window(h, now)), h, now)
  {
    forall t | t >= now
      ensures Window(LastThree(Window(h, now)), t) == LastThree(Window(h, t))
    {
      TruncationIsHarmless(h, now, t);
    }
  }

  lemma PushRepresents(h: seq<Failure>, f: Failure)
    requires Sorted(h) && forall k | 0 <= k < |h| :: h[k].at <= f.at
    ensures Sorted(h + [f])
    ensures Window(h + [f], f.at) == Window(h, f.at) + [f]
    ensures var kept := LastThree(Window(h, f.at)) + [f];
            var cut := if |kept| > LIMIT then kept[|kept| - LIMIT..] else kept;
            cut == LastThree(Window(h + [f], f.at)) && Represents(cut, h + [f], f.at)
  {
    hide Window; hide Represents;
    WindowAppend(h, f, f.at);
    PruneRepresents(h + [f], f.at);
  }

  /** How many failures came after the last one with the id. */
  function Since(h: seq<Failure>, id: string): nat {
    if h == [] || h[|h| - 1].id == Some(id) then 0 else 1 + Since(h[..|h| - 1], id)
  }

  lemma HasIdSnoc(h: seq<Failure>, f: Failure, id: string)
    ensures HasId(h + [f], id) <==> HasId(h, id) || f.id == Some(id)
  {
    assert (h + [f])[|h|] == f;
    if HasId(h, id) {
      var k :| 0 <= k < |h| && h[k].id == Some(id);
      assert (h + [f])[k].id == Some(id);
    }
  }

  lemma {:induction false} SinceIsLast(h: seq<Failure>, id: string, n: nat)
    requires n <= |h|
    ensures HasId(h[|h| - n..], id) <==> HasId(h, id) && Since(h, id) < n
    decreases |h|
  {
    if h != [] && n > 0 {
      var init, last := h[..|h| - 1], h[|h| - 1];
      assert h == init + [last];
      HasIdSnoc(init, last, id);
      assert h[|h| - n..] == init[|init| - (n - 1)..] + [last];
      HasIdSnoc(init[|init| - (n - 1)..], last, id);
      if last.id != Some(id) {
        SinceIsLast(init, id, n - 1);
      }
    } else if n == 0 {
      assert h[|h| - n..] == [];
    }
  }

  lemma {:induction false} SinceWithin(h: seq<Failure>, id: string)
    requires HasId(h, id)
    ensures Since(h, id) < |h|
  {
    if h[|h| - 1].id != Some(id) {
      assert h == h[..|h| - 1] + [h[|h| - 1]];
      HasIdSnoc(h[..|h| - 1], h[|h| - 1], id);
      SinceWithin(h[..|h| - 1], id);
    }
  }

  /**
   * The duplicate test of the short list sees an id of the window exactly while fewer than three counted failures
   * came after its last occurrence.
   */
  lemma DuplicateIsSeenIffRecent(h: seq<Failure>, now: int, id: string)
    ensures var w := Window(h, now); HasId(LastThree(w), id) <==> HasId(w, id) && Since(w, id) < LIMIT
    ensures |Window(h, now)| <= LIMIT ==> (HasId(LastThree(Window(h, now)), id) <==> HasId(Window(h, now), id))
  {
    var w := Window(h, now);
    if HasId(w, id) {
      SinceWithin(w, id);
    }
    if |w| <= LIMIT {
      assert w[|w| - |w|..] == w;
    } else {
      SinceIsLast(w, id, LIMIT);
    }
  }

  class BrowserFailureGuard {
    var failures: seq<Failure>
    // Every failure ever counted, when the guard was last asked to count, and whether it ever tripped.
    ghost var history: seq<Failure>
    ghost var clock: int
    ghost var everTripped: bool

    ghost predicate Valid()
      reads this
    {
      && Sorted(history)
      && (forall k | 0 <= k < |history| :: history[k].at <= clock)
      && Represents(failures, history, clock)
      && (!everTripped ==> |Window(history, clock)| < LIMIT)
    }

    constructor ()
      ensures Valid() && history == [] && !everTripped && failures == [] && clock == 0
    {
      failures, history, clock, everTripped := [], [], 0, false;
    }

    method Prune(now: int) returns (kept: seq<Failure>)
      ensures kept == Window(failures, now)
    {
      kept := [];
      var k := 0;
      while k < |failures|
        invariant 0 <= k <= |failures|
        invariant kept + Window(failures[k..], now) == Window(failures, now)
      {
        assert failures[k..][1..] == failures[k + 1..];
        if Recent(failures[k], now) {
          assert kept + ([failures[k]] + Window(failures[k + 1..], now)) == kept + [failures[k]] + Window(failures[k + 1..], now);
          kept := kept + [failures[k]];
        }
        k := k + 1;
      }
      assert failures[k..] == [];
    }

    /** A counted failure: the list keeps the last three of the window. */
    method Push(f: Failure)
      requires Sorted(history) && (forall k | 0 <= k < |history| :: history[k].at <= f.at) && failures == LastThree(Window(history, f.at))
      modifies this`failures, this`history
      ensures history == old(history) + [f] && Sorted(history)
      ensures failures == LastThree(Window(history, f.at)) && Represents(failures, history, f.at)
      ensures |failures| >= LIMIT <==> |Window(history, f.at)| >= LIMIT
    {
      hide Window; hide Represents; hide Sorted; hide LastThree;
      PushRepresents(history, f);
      history := history + [f];
      failures := failures + [f];
      if |failures| > LIMIT {
        failures := failures[|failures| - LIMIT..];
      }
      LastThreeIsFull(Window(history, f.at));
    }

    /**
     * `observed` is the classification of the event, `id` its tool call. The list seen by the caller is always the
     * last three of the full window; the breaker trips exactly on uncertainty or on a full window.
     */
    method Observe(observed: Option<Category>, id: Option<string>, now: int, saveUncertain: bool) returns (verdict: Option<Verdict>)
      requires Valid() && now >= clock
      modifies this
      ensures Valid() && clock <= now
      ensures var category := if saveUncertain then Some(ExecutionUncertain) else observed;
              var counts := category.Some? && category != Some(ElementResolution);
              var duplicate := !saveUncertain && id.Some? && id.value != "" && HasId(LastThree(Window(old(history), now)), id.value);
              && verdict.Some? == (counts && !duplicate)
              && history == old(history) + (if verdict.Some? then [Failure(now, id)] else [])
              && (verdict.Some? ==>
                    && failures == LastThree(Window(history, now))
                    && verdict.value.category == category.value
                    && verdict.value.failuresInWindow == |failures|
                    && verdict.value.executionUncertain == (category == Some(ExecutionUncertain))
                    && (verdict.value.tripped <==> category == Some(ExecutionUncertain) || |Window(history, now)| >= LIMIT))
              && (counts && duplicate ==> failures == LastThree(Window(history, now)))
              && (!counts ==> failures == old(failures))
      ensures !old(everTripped) && id.Some? ==>
                (HasId(LastThree(Window(old(history), now)), id.value) <==> HasId(Window(old(history), now), id.value))
      // An unresponsive browser's failure is counted again exactly when three or more others came in between.
      ensures !saveUncertain && observed.Some? && observed != Some(ElementResolution) && id.Some? && id.value != "" ==>
                var w := Window(old(history), now);
                verdict.Some? <==> !HasId(w, id.value) || Since(w, id.value) >= LIMIT
      ensures everTripped == (old(everTripped) || (verdict.Some? && verdict.value.tripped))
    {
      hide Window; hide HasId; hide Represents; hide LastThree; hide Sorted; hide Since;
      if id.Some? {
        DuplicateIsSeenIffRecent(history, now, id.value);
      }
      WindowShrinks(history, clock, now);
      var category := if saveUncertain then Some(ExecutionUncertain) else observed;
      if category.None? || category == Some(ElementResolution) {
        return None;
      }
      var kept := Prune(now);
      RepresentsAt(failures, history, clock, now);
      PruneRepresents(history, now);
      failures, clock := kept, now;
      if !saveUncertain && id.Some? && id.value != "" && HasId(failures, id.value) {
        return None;
      }
      Push(Failure(now, id));
      var uncertain := category == Some(ExecutionUncertain);
      var tripped := uncertain || |failures| >= LIMIT;
      everTripped := everTripped || tripped;
      return Some(Verdict(category.value, |failures|, uncertain, tripped));
    }
  }

  lemma {:induction false} AllRecent(h: seq<Failure>, now: int)
    requires forall k | 0 <= k < |h| :: Recent(h[k], now)
    ensures Window(h, now) == h
  {
    if h != [] {
      AllRecent(h[1..], now);
    }
  }

  /** An unresponsive browser, reported by a tool call that the guard does not take for a duplicate. */
  method Unresponsive(guard: BrowserFailureGuard, id: string, now: int) returns (verdict: Option<Verdict>)
    requires guard.Valid() && now >= guard.clock && id != ""
    requires forall k | 0 <= k < |guard.history| :: Recent(guard.history[k], now)
    requires !HasId(guard.history, id) || Since(guard.history, id) >= LIMIT
    modifies guard
    ensures guard.Valid() && guard.clock <= now && verdict.Some?
    ensures guard.history == old(guard.history) + [Failure(now, Some(id))]
    ensures guard.everTripped == (old(guard.everTripped) || verdict.value.tripped)
    ensures verdict.value.tripped <==> |guard.history| >= LIMIT
  {
    hide LastThree; hide Since; hide HasId; hide Window; hide BrowserFailureGuard.Valid;
    AllRecent(guard.history, now);
    verdict := guard.Observe(Some(BrowserUnresponsive), Some(id), now, false);
    AllRecent(guard.history, now);
  }

  const FOUR := [Failure(0, Some("a")), Failure(1, Some("b")), Failure(2, Some("c")), Failure(3, Some("d"))]

  /** Each of the first four is new, the guard trips at the third, and all are recent. */
  lemma FourFacts(k: nat)
    requires k < 4
    ensures !HasId(FOUR[..k], FOUR[k].id.value)
    ensures FOUR[..k] + [FOUR[k]] == FOUR[..k + 1]
    ensures forall i, now | 0 <= i < |FOUR[..k]| && 0 <= now < 5 :: Recent(FOUR[..k][i], now)
  {
    forall i | 0 <= i < k
      ensures FOUR[..k][i].id != FOUR[k].id
    {
      assert FOUR[..k][i] == FOUR[i];
    }
  }

  /** The first four, one after another. */
  method Four() returns (guard: BrowserFailureGuard)
    ensures fresh(guard) && guard.Valid() && guard.clock <= 3 && guard.everTripped && guard.history == FOUR
  {
    hide HasId; hide Recent; hide BrowserFailureGuard.Valid;
    guard := new BrowserFailureGuard();
    var ids := ["a", "b", "c", "d"];
    for k := 0 to 4
      invariant fresh(guard) && guard.Valid() && guard.clock < 4 && (k == 0 ==> guard.clock == 0) && (k > 0 ==> guard.clock <= k - 1)
      invariant guard.history == FOUR[..k] && (guard.everTripped <==> k >= 3)
    {
      FourFacts(k);
      assert FOUR[k] == Failure(k, Some(ids[k]));
      var v := Unresponsive(guard, ids[k], k);
    }
  }

  /**
   * Four failures within the window, then the first one's tool call again: every one is counted, and the window
   * holds the same id twice. The guard had tripped at the third.
   */
  method CountedTwice() returns (guard: BrowserFailureGuard, again: Option<Verdict>)
    ensures again.Some? && guard.everTripped
    ensures guard.history == [Failure(0, Some("a")), Failure(1, Some("b")), Failure(2, Some("c")), Failure(3, Some("d")), Failure(4, Some("a"))]
    ensures Window(guard.history, 4) == guard.history
  {
    hide LastThree; hide Window; hide HasId; hide Since; hide BrowserFailureGuard.Valid;
    guard := Four();
    SinceFour(guard.history);
    again := Unresponsive(guard, "a", 4);
    AllRecent(guard.history, 4);
  }

  lemma SinceFour(h: seq<Failure>)
    requires h == [Failure(0, Some("a")), Failure(1, Some("b")), Failure(2, Some("c")), Failure(3, Some("d"))]
    ensures Since(h, "a") == 3
  {
    var h3, h2, h1 := h[..3], h[..2], h[..1];
    assert h3[..2] == h2 && h2[..1] == h1;
    assert Since(h1, "a") == 0;
    assert Since(h2, "a") == 1;
    assert Since(h3, "a") == 2;
  }
}
