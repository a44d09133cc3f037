/**
 * The serialised, paced transport as a state machine over its await points. Callers are numbered in call
 * order; each waits for the promise of the one before it. The clock, the mutation guard and the server are
 * free to take any time and give any answer.
 */
module Transport {
  datatype Stage =
    | Queued
    | Pausing(until: int)     // waiting out the interval
    | Guarding                // stamped; awaiting the mutation guard
    | Fetching                // request sent
    | Released(ok: bool)

  datatype Caller = Caller(mutating: bool, stage: Stage)

  datatype Action = Stamp(who: nat, at: int) | GuardPassed(who: nat, at: int) | Fetch(who: nat, at: int)

  datatype State = State(interval: nat, callers: seq<Caller>, lastRequest: int, clock: int, log: seq<Action>)

  datatype Event =
    | Call(mutating: bool)
    | Enter(who: nat, now: int, stamp: int)
    | Wake(who: nat, now: int)
    | GuardReturns(who: nat, now: int, ok: bool)
    | FetchReturns(who: nat, now: int, ok: bool)

  function Initial(interval: nat): State {
    State(interval, [], 0, 0, [])
  }

  predicate Enabled(s: State, e: Event) {
    match e
    case Call(_) => true
    case Enter(i, now, stamp) =>
      i < |s.callers| && s.callers[i].stage.Queued? && (i > 0 ==> s.callers[i - 1].stage.Released?) && s.clock <= now <= stamp
    case Wake(i, now) => i < |s.callers| && s.callers[i].stage.Pausing? && s.clock <= now && s.callers[i].stage.until <= now
    case GuardReturns(i, now, _) => i < |s.callers| && s.callers[i].stage.Guarding? && s.clock <= now
    case FetchReturns(i, now, _) => i < |s.callers| && s.callers[i].stage.Fetching? && s.clock <= now
  }

  function SetStage(s: State, i: nat, stage: Stage): State
    requires i < |s.callers|
  {
    s.(callers := s.callers[i := s.callers[i].(stage := stage)])
  }

  /** Stamp the request, then either await the guard or fetch at once. */
  function Proceed(s: State, i: nat, now: int): State
    requires i < |s.callers|
  {
    var t := s.(lastRequest := now, clock := now, log := s.log + [Stamp(i, now)]);
    if s.callers[i].mutating then SetStage(t, i, Guarding)
    else SetStage(t.(log := t.log + [Fetch(i, now)]), i, Fetching)
  }

  function Step(s: State, e: Event): State
    requires Enabled(s, e)
  {
    match e
    case Call(mutating) => s.(callers := s.callers + [Caller(mutating, Queued)])
    case Enter(i, now, stamp) =>
      var wait := s.interval - (now - s.lastRequest);
      if wait > 0 then SetStage(s.(clock := now), i, Pausing(now + wait)) else Proceed(s, i, stamp)
    case Wake(i, now) => Proceed(s, i, now)
    case GuardReturns(i, now, ok) =>
      if ok then SetStage(s.(clock := now, log := s.log + [GuardPassed(i, now), Fetch(i, now)]), i, Fetching)
      else SetStage(s.(clock := now), i, Released(false))
    case FetchReturns(i, now, ok) => SetStage(s.(clock := now), i, Released(ok))
  }

  ghost predicate Runs(s: State, es: seq<Event>)
    decreases |es|
  {
    es == [] || (Enabled(s, es[0]) && Runs(Step(s, es[0]), es[1..]))
  }

  function Run(s: State, es: seq<Event>): State
    requires Runs(s, es)
    decreases |es|
  {
    if es == [] then s else Run(Step(s, es[0]), es[1..])
  }

  /** Nobody has left the queue before everybody ahead has been released. */
  ghost predicate OneAtATime(s: State) {
    forall i, j | 0 <= i < j < |s.callers| && !s.callers[j].stage.Queued? :: s.callers[i].stage.Released?
  }

  /** Requests act in call order. */
  ghost predicate InCallOrder(s: State) {
    && (forall a, b | 0 <= a < b < |s.log| :: s.log[a].who <= s.log[b].who)
    && (forall a | 0 <= a < |s.log| ::
          s.log[a].who < |s.callers| && !s.callers[s.log[a].who].stage.Queued? && !s.callers[s.log[a].who].stage.Pausing?)
  }

  /** Pacing stamps are at least the interval apart, whatever the requests did. */
  ghost predicate Paced(s: State) {
    && (forall a, b | 0 <= a < b < |s.log| && s.log[a].Stamp? && s.log[b].Stamp? :: s.log[a].at + s.interval <= s.log[b].at)
    && (forall a | 0 <= a < |s.log| && s.log[a].Stamp? :: s.log[a].at <= s.lastRequest)
    && (forall i | 0 <= i < |s.callers| && s.callers[i].stage.Pausing? :: s.lastRequest + s.interval <= s.callers[i].stage.until)
  }

  /** A mutating request is fetched straight after its own guard passed, and nothing comes between. */
  ghost predicate Guarded(s: State) {
    forall a | 0 <= a < |s.log| :: GuardedAt(s, a)
  }

  ghost predicate GuardedAt(s: State, a: nat)
    requires a < |s.log|
  {
    s.log[a].Fetch? ==>
      s.log[a].who < |s.callers| &&
      (s.callers[s.log[a].who].mutating ==> a > 0 && s.log[a - 1] == GuardPassed(s.log[a].who, s.log[a].at))
  }

  ghost predicate Inv(s: State) {
    OneAtATime(s) && InCallOrder(s) && Paced(s) && Guarded(s)
  }

  lemma StepOneAtATime(s: State, e: Event)
    requires OneAtATime(s) && Enabled(s, e)
    ensures OneAtATime(Step(s, e))
  {
  }

  lemma ActorIsLast(s: State, i: nat, a: nat)
    requires OneAtATime(s) && InCallOrder(s) && i < |s.callers| && a < |s.log|
    requires s.callers[i].stage.Queued? ==> i == 0 || s.callers[i - 1].stage.Released?
    requires !s.callers[i].stage.Released?
    ensures s.log[a].who <= i
  {
    assert !s.callers[s.log[a].who].stage.Queued?;
  }

  /** Entries of the acting caller may follow those of the callers up to it. */
  lemma OrderedExtend(log: seq<Action>, extra: seq<Action>, i: nat)
    requires forall a, b | 0 <= a < b < |log| :: log[a].who <= log[b].who
    requires forall a | 0 <= a < |log| :: log[a].who <= i
    requires forall a | 0 <= a < |extra| :: extra[a].who == i
    ensures forall a, b | 0 <= a < b < |log + extra| :: (log + extra)[a].who <= (log + extra)[b].who
  {
  }

  lemma ExtendsByActor(s: State, e: Event)
    requires Enabled(s, e) && !e.Call?
    ensures var t := Step(s, e); |t.log| >= |s.log| && t.log == s.log + t.log[|s.log|..]
    ensures var t := Step(s, e); forall a | |s.log| <= a < |t.log| :: t.log[a].who == e.who
    ensures var t := Step(s, e); e.who < |t.callers| == |s.callers|
    ensures var t := Step(s, e); |t.log| > |s.log| ==> !t.callers[e.who].stage.Queued? && !t.callers[e.who].stage.Pausing?
    ensures var t := Step(s, e); forall i | 0 <= i < |s.callers| && i != e.who :: t.callers[i] == s.callers[i]
    ensures var t := Step(s, e); !s.callers[e.who].stage.Queued? && !s.callers[e.who].stage.Pausing?
                                 ==> !t.callers[e.who].stage.Queued? && !t.callers[e.who].stage.Pausing?
  {
  }

  lemma StepInCallOrder(s: State, e: Event)
    requires OneAtATime(s) && InCallOrder(s) && Enabled(s, e)
    ensures InCallOrder(Step(s, e))
  {
    if !e.Call? {
      forall a | 0 <= a < |s.log|
        ensures s.log[a].who <= e.who
      {
        ActorIsLast(s, e.who, a);
      }
      ExtendsByActor(s, e);
      var t := Step(s, e);
      hide Step; hide OneAtATime; hide Enabled;
      OrderedExtend(s.log, t.log[|s.log|..], e.who);
      forall a | 0 <= a < |t.log|
        ensures t.log[a].who < |t.callers| && !t.callers[t.log[a].who].stage.Queued? && !t.callers[t.log[a].who].stage.Pausing?
      {
        assert a < |s.log| ==> t.log[a] == s.log[a];
      }
    }
  }

  lemma StepPaced(s: State, e: Event)
    requires Paced(s) && OneAtATime(s) && Enabled(s, e)
    ensures Paced(Step(s, e))
  {
    if e.Enter? || e.Wake? {
      forall i | 0 <= i < |s.callers| && i != e.who
        ensures !s.callers[i].stage.Pausing?
      {
        if i < e.who && e.Enter? {
          assert e.who - 1 == i || s.callers[i].stage.Released?;
        }
      }
    }
  }

  lemma StepGuarded(s: State, e: Event)
    requires Guarded(s) && Enabled(s, e)
    ensures Guarded(Step(s, e))
  {
    var t := Step(s, e);
    assert forall i | 0 <= i < |s.callers| :: t.callers[i].mutating == s.callers[i].mutating;
    forall a | 0 <= a < |t.log|
      ensures GuardedAt(t, a)
    {
      if a < |s.log| {
        assert GuardedAt(s, a);
        assert t.log[a] == s.log[a];
        assert a > 0 ==> t.log[a - 1] == s.log[a - 1];
      } else if e.GuardReturns? {
        assert t.log == s.log + [GuardPassed(e.who, e.now), Fetch(e.who, e.now)];
      }
    }
  }

  /** Every run of any number of callers keeps order, spacing and guarding. */
  lemma {:induction false} EveryRunIsSerialisedAndPaced(s: State, es: seq<Event>)
    requires Inv(s) && Runs(s, es)
    ensures Inv(Run(s, es))
    decreases |es|
  {
    if es != [] {
      hide OneAtATime; hide InCallOrder; hide Paced; hide Guarded; hide Step;
      StepOneAtATime(s, es[0]);
      StepInCallOrder(s, es[0]);
      StepPaced(s, es[0]);
      StepGuarded(s, es[0]);
      EveryRunIsSerialisedAndPaced(Step(s, es[0]), es[1..]);
    }
  }

  lemma InitialInv(interval: nat)
    ensures Inv(Initial(interval))
  {
  }

  /** No request can block its successors for ever: while anyone is unreleased, the first of them can move. */
  lemma NoDeadlock(s: State, i: nat) returns (e: Event)
    requires i < |s.callers| && !s.callers[i].stage.Released?
    ensures Enabled(s, e) && !e.Call? && e.who <= i
    ensures Step(s, e).callers[e.who].stage != s.callers[e.who].stage
    decreases i
  {
    if i > 0 && !s.callers[i - 1].stage.Released? {
      e := NoDeadlock(s, i - 1);
    } else {
      match s.callers[i].stage
      case Queued => e := Enter(i, s.clock, s.clock);
      case Pausing(until) => e := Wake(i, if s.clock < until then until else s.clock);
      case Guarding => e := GuardReturns(i, s.clock, false);
      case Fetching => e := FetchReturns(i, s.clock, false);
    }
  }

  /** When a step happens: never before an earlier one. */
  lemma TimePasses(s: State, e: Event)
    requires Enabled(s, e)
    ensures var t := Step(s, e);
            && s.clock <= t.clock && (!e.Call? ==> s.clock <= e.now <= t.clock)
            && t.clock == (if e.Call? then s.clock else if e.Enter? && e.now >= s.lastRequest + s.interval then e.stamp else e.now)
  {
  }

  /**
   * What a step does to its request: it pauses until an interval after the last stamp, is stamped, passes its guard if
   * it has one, is fetched, and is released with its own outcome. A failed guard is never followed by a fetch.
   */
  lemma StepMoves(s: State, e: Event)
    requires Enabled(s, e) && !e.Call?
    ensures var t, early := Step(s, e), e.Enter? && e.now < s.lastRequest + s.interval;
            var stamped := if e.Enter? then e.stamp else e.now;
            && t.callers == s.callers[e.who := Caller(s.callers[e.who].mutating, t.callers[e.who].stage)]
            && (e.Enter? && early ==> t.callers[e.who].stage == Pausing(s.lastRequest + s.interval) && t.log == s.log)
            && ((e.Enter? || e.Wake?) && !early ==>
                  && t.lastRequest == stamped
                  && t.callers[e.who].stage == (if s.callers[e.who].mutating then Guarding else Fetching)
                  && t.log == s.log + [Stamp(e.who, stamped)] + if s.callers[e.who].mutating then [] else [Fetch(e.who, stamped)])
            && (e.GuardReturns? && e.ok ==>
                  t.callers[e.who].stage == Fetching && t.log == s.log + [GuardPassed(e.who, e.now), Fetch(e.who, e.now)])
            && ((e.GuardReturns? && !e.ok) || e.FetchReturns? ==> t.callers[e.who].stage == Released(e.ok) && t.log == s.log)
            && (e.GuardReturns? || e.FetchReturns? || early ==> t.lastRequest == s.lastRequest)
  {
    if e.Enter? || e.Wake? {
      var stamped := if e.Enter? then e.stamp else e.now;
      assert s.log + [Stamp(e.who, stamped)] + [] == s.log + [Stamp(e.who, stamped)];
    }
  }

  /** A failing request releases its successor just as a succeeding one does. */
  lemma FailureReleasesSuccessor(s: State, e: Event)
    requires Enabled(s, e) && (e.FetchReturns? || e.GuardReturns?) && !e.ok
    requires e.who + 1 < |s.callers| && s.callers[e.who + 1].stage.Queued?
    ensures var t := Step(s, e); Enabled(t, Enter(e.who + 1, t.clock, t.clock))
  {
  }

  // ---- How far apart fetches are ----------------------------------------------------------------------------------

  /** A fetch follows a stamp of its own request, and without a guard there is no time between them. */
  ghost predicate StampedAt(s: State, a: nat)
    requires a < |s.log|
  {
    s.log[a].Fetch? ==>
      s.log[a].who < |s.callers| &&
      exists c :: 0 <= c < a && s.log[c] == Stamp(s.log[a].who, s.log[c].at) && s.log[c].at <= s.log[a].at
                  && (!s.callers[s.log[a].who].mutating ==> s.log[c].at == s.log[a].at)
  }

  ghost predicate HasStamp(s: State, i: nat) {
    exists c :: 0 <= c < |s.log| && s.log[c] == Stamp(i, s.log[c].at)
  }

  ghost predicate Stamped(s: State) {
    && s.lastRequest <= s.clock
    && (forall a | 0 <= a < |s.log| :: StampedAt(s, a))
    && (forall i | 0 <= i < |s.callers| && s.callers[i].stage.Guarding? :: HasStamp(s, i) && s.callers[i].mutating)
  }

  lemma StampedStill(s: State, t: State, a: nat)
    requires a < |s.log| && StampedAt(s, a) && s.log <= t.log && |s.callers| <= |t.callers|
    requires forall i | 0 <= i < |s.callers| :: t.callers[i].mutating == s.callers[i].mutating
    ensures StampedAt(t, a)
  {
    assert t.log[a] == s.log[a];
    if s.log[a].Fetch? {
      var c :| 0 <= c < a && s.log[c] == Stamp(s.log[a].who, s.log[c].at) && s.log[c].at <= s.log[a].at
               && (!s.callers[s.log[a].who].mutating ==> s.log[c].at == s.log[a].at);
      assert t.log[c] == s.log[c];
    }
  }

  lemma HasStampStill(s: State, t: State, i: nat)
    requires HasStamp(s, i) && s.log <= t.log
    ensures HasStamp(t, i)
  {
    var c :| 0 <= c < |s.log| && s.log[c] == Stamp(i, s.log[c].at);
    assert t.log[c] == s.log[c];
  }

  /** What a step adds, and to whom. */
  lemma StepGrows(s: State, e: Event)
    requires Enabled(s, e)
    ensures var t := Step(s, e);
            && s.log <= t.log && |s.callers| <= |t.callers| && t.interval == s.interval
            && (forall i | 0 <= i < |s.callers| :: t.callers[i].mutating == s.callers[i].mutating)
            && (s.lastRequest <= s.clock ==> t.lastRequest <= t.clock)
            && (forall i | 0 <= i < |t.callers| && t.callers[i].stage.Guarding? ::
                  (i < |s.callers| && s.callers[i].stage.Guarding?) || (HasStamp(t, i) && t.callers[i].mutating))
  {
    var t := Step(s, e);
    if !e.Call? {
      forall i | 0 <= i < |t.callers| && t.callers[i].stage.Guarding?
        ensures s.callers[i].stage.Guarding? || (HasStamp(t, i) && t.callers[i].mutating)
      {
        if i == e.who && !s.callers[i].stage.Guarding? {
          assert t.log[|s.log|] == Stamp(i, t.log[|s.log|].at);
        }
      }
    }
  }

  lemma NewFetchStamped(s: State, e: Event, a: nat)
    requires Stamped(s) && Paced(s) && Enabled(s, e) && |s.log| <= a < |Step(s, e).log|
    ensures StampedAt(Step(s, e), a)
  {
    var t := Step(s, e);
    if e.GuardReturns? {
      assert HasStamp(s, e.who);
      var c :| 0 <= c < |s.log| && s.log[c] == Stamp(e.who, s.log[c].at);
      assert t.log[c] == s.log[c];
    } else if t.log[a].Fetch? {
      assert t.log[|s.log|] == Stamp(e.who, t.log[a].at) && a == |s.log| + 1;
    }
  }

  lemma StepStamped(s: State, e: Event)
    requires Stamped(s) && Paced(s) && Enabled(s, e)
    ensures Stamped(Step(s, e))
  {
    var t := Step(s, e);
    StepGrows(s, e);
    forall a | 0 <= a < |t.log|
      ensures StampedAt(t, a)
    {
      if a < |s.log| {
        StampedStill(s, t, a);
      } else {
        NewFetchStamped(s, e, a);
      }
    }
    hide Step; hide StampedAt;
    forall i | 0 <= i < |t.callers| && t.callers[i].stage.Guarding?
      ensures HasStamp(t, i) && t.callers[i].mutating
    {
      if i < |s.callers| && s.callers[i].stage.Guarding? {
        HasStampStill(s, t, i);
      }
    }
  }

  lemma {:induction false} RunStamped(s: State, es: seq<Event>)
    requires Inv(s) && Stamped(s) && Runs(s, es)
    ensures Inv(Run(s, es)) && Stamped(Run(s, es)) && Run(s, es).interval == s.interval
    ensures |s.callers| <= |Run(s, es).callers|
    ensures forall i | 0 <= i < |s.callers| :: Run(s, es).callers[i].mutating == s.callers[i].mutating
    decreases |es|
  {
    if es != [] {
      hide OneAtATime; hide InCallOrder; hide Paced; hide Guarded; hide Stamped; hide Step; hide Enabled;
      var t := Step(s, es[0]);
      StepOneAtATime(s, es[0]);
      StepInCallOrder(s, es[0]);
      StepPaced(s, es[0]);
      StepGuarded(s, es[0]);
      StepStamped(s, es[0]);
      StepGrows(s, es[0]);
      RunStamped(t, es[1..]);
    }
  }

  /**
   * In every run, a fetch starts no earlier than the interval after the stamp of any earlier request: the interval
   * less the time that request's guard took.
   */
  lemma FetchesFollowStamps(s: State, a: nat, b: nat) returns (c: nat)
    requires Inv(s) && Stamped(s) && a < b < |s.log| && s.log[a].Fetch? && s.log[b].Fetch? && s.log[a].who != s.log[b].who
    ensures c < a && s.log[c] == Stamp(s.log[a].who, s.log[c].at) && s.log[c].at <= s.log[a].at
    ensures s.log[a].at + s.interval - (s.log[a].at - s.log[c].at) <= s.log[b].at
    ensures s.log[a].who < |s.callers| && (!s.callers[s.log[a].who].mutating ==> s.log[c].at == s.log[a].at)
  {
    assert StampedAt(s, a) && StampedAt(s, b);
    c :| 0 <= c < a && s.log[c] == Stamp(s.log[a].who, s.log[c].at) && s.log[c].at <= s.log[a].at
         && (!s.callers[s.log[a].who].mutating ==> s.log[c].at == s.log[a].at);
    var d :| 0 <= d < b && s.log[d] == Stamp(s.log[b].who, s.log[d].at) && s.log[d].at <= s.log[b].at;
    assert s.log[a].who <= s.log[b].who;
    assert c < d;
  }

  /** Every other request's fetch after one of request `i` starts at least an interval later. */
  ghost predicate SpacedAfter(s: State, i: nat) {
    forall a, b | 0 <= a < b < |s.log| && s.log[a].Fetch? && s.log[b].Fetch? && s.log[a].who == i && s.log[b].who != i ::
      s.log[a].at + s.interval <= s.log[b].at
  }

  /** In every run, fetches are spaced after a request that passes no guard. */
  lemma UnguardedFetchesAreSpaced(interval: nat, es: seq<Event>, i: nat)
    requires Runs(Initial(interval), es)
    requires i < |Run(Initial(interval), es).callers| && !Run(Initial(interval), es).callers[i].mutating
    ensures SpacedAfter(Run(Initial(interval), es), i)
  {
    RunStamped(Initial(interval), es);
    var s := Run(Initial(interval), es);
    hide Run; hide Runs; hide Inv; hide Stamped;
    forall a, b | 0 <= a < b < |s.log| && s.log[a].Fetch? && s.log[b].Fetch? && s.log[a].who == i && s.log[b].who != i
      ensures s.log[a].at + s.interval <= s.log[b].at
    {
      var c := FetchesFollowStamps(s, a, b);
    }
  }

  /** A guard that takes an interval lets the next fetch start at the same moment. */
  lemma SlowGuard(interval: nat) returns (es: seq<Event>)
    requires interval > 0
    ensures es != [] && es[0] == Call(true) && Runs(Initial(interval), es) && !SpacedAfter(Run(Initial(interval), es), 0)
  {
    hide Run; hide Runs;
    var n := interval;
    var s0 := Initial(n);
    var e1, e2, e3, e4 := Call(true), Call(false), Enter(0, n, n), GuardReturns(0, 2 * n, true);
    var e5, e6 := FetchReturns(0, 2 * n, true), Enter(1, 2 * n, 2 * n);
    var s1 := Step(s0, e1);
    var s2 := Step(s1, e2);
    var s3 := Step(s2, e3);
    var s4 := Step(s3, e4);
    var s5 := Step(s4, e5);
    var s6 := Step(s5, e6);
    var r6 := [e6];
    RunLast(s5, e6);
    var r5 := [e5] + r6;
    RunOne(s4, e5, r6);
    var r4 := [e4] + r5;
    RunOne(s3, e4, r5);
    var r3 := [e3] + r4;
    RunOne(s2, e3, r4);
    var r2 := [e2] + r3;
    RunOne(s1, e2, r3);
    RunOne(s0, e1, r2);
    es := [e1] + r2;
    assert s6.log == [Stamp(0, n), GuardPassed(0, 2 * n), Fetch(0, 2 * n), Stamp(1, 2 * n), Fetch(1, 2 * n)];
    var log := Run(s0, es).log;
    assert log[2].Fetch? && log[4].Fetch? && log[4].at < log[2].at + n;
  }

  /** Fetches are spaced after a request in every run exactly when the request passes no guard. */
  lemma FetchesAreSpacedIffUnguarded(interval: nat, mutating: bool)
    requires interval > 0
    ensures (forall es | es != [] && es[0] == Call(mutating) && Runs(Initial(interval), es) :: SpacedAfter(Run(Initial(interval), es), 0))
            <==> !mutating
  {
    if mutating {
      var es := SlowGuard(interval);
    } else {
      forall es | es != [] && es[0] == Call(mutating) && Runs(Initial(interval), es)
        ensures SpacedAfter(Run(Initial(interval), es), 0)
      {
        var s := Step(Initial(interval), es[0]);
        assert Stamped(s) && Inv(s);
        RunStamped(s, es[1..]);
        UnguardedFetchesAreSpaced(interval, es, 0);
      }
    }
  }

  lemma RunLast(s: State, e: Event)
    requires Enabled(s, e)
    ensures Runs(s, [e]) && Run(s, [e]) == Step(s, e)
  {
  }

  lemma RunOne(s: State, e: Event, rest: seq<Event>)
    requires Enabled(s, e) && Runs(Step(s, e), rest)
    ensures Runs(s, [e] + rest) && Run(s, [e] + rest) == Run(Step(s, e), rest)
  {
    assert ([e] + rest)[1..] == rest;
  }
}
