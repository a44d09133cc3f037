/**
 * The click-once save protocol. The page, the safety hooks and the clock are an adversary: every answer is
 * arbitrary, and every call may take arbitrarily long. Its trace records what was asked and answered.
 */
module SaveObserver {
  import opened Wrappers

  datatype Observation = Observation(ready: bool, pending: bool, completion: bool, rejection: bool, validation: seq<string>)

  /** A transient error is one of the lifecycle errors that may be retried; a return may be malformed. */
  datatype Read = Transient | Fatal | Returned(observation: Option<Observation>)

  datatype Phase =
    | ValidateOptions | SaveDispatch | ControlBeforeRead | ObserveDom | ControlAfterRead | ValidateObservation | Deadline

  datatype Event = Control(ok: bool) | Evaluated(read: Read) | Located(ok: bool) | Clicked(ok: bool) | Reported(phase: Phase)

  predicate ValidObservation(o: Observation) {
    && |o.validation| <= 8 && (forall k | 0 <= k < |o.validation| :: |o.validation[k]| <= 500)
    && (!o.ready ==> o.pending && !o.completion && !o.rejection && o.validation == [])
    && !(o.completion && o.rejection)
  }

  predicate Valid(r: Read) {
    r.Returned? && r.observation.Some? && ValidObservation(r.observation.value)
  }

  /** A read that settles the visible outcome. */
  predicate Deciding(r: Read) {
    Valid(r) && r.observation.value.ready && !r.observation.value.pending && (r.observation.value.completion || r.observation.value.rejection)
  }

  /** A read the observer may continue past. */
  predicate Inconclusive(r: Read) {
    r.Transient? || (Valid(r) && !Deciding(r))
  }

  /** What an observation shows, apart from any test of the code. */
  datatype Showing = Malformed | Loading | Saving | Quiet | Completion | Rejection

  function Shows(o: Observation): Showing {
    if |o.validation| > 8 || (exists k | 0 <= k < |o.validation| :: |o.validation[k]| > 500) then Malformed
    else if o.completion && o.rejection then Malformed
    else if o.ready then
      if o.pending then Saving else if o.completion then Completion else if o.rejection then Rejection else Quiet
    else if o.pending && !o.completion && !o.rejection && o.validation == [] then Loading
    else Malformed
  }

  function Seen(r: Read): Showing {
    if r.Returned? && r.observation.Some? then Shows(r.observation.value) else Malformed
  }

  /** The code's tests, each in terms of what is shown. */
  lemma TestsAreExact(r: Read)
    ensures Valid(r) <==> Seen(r) != Malformed
    ensures Deciding(r) <==> Seen(r) == Completion || Seen(r) == Rejection
    ensures Inconclusive(r) <==> r.Transient? || Seen(r) in {Loading, Saving, Quiet}
    ensures Idle(r) <==> Seen(r) == Quiet
  {
    if r.Returned? && r.observation.Some? {
      var o := r.observation.value;
      assert (exists k | 0 <= k < |o.validation| :: |o.validation[k]| > 500) <==> !(forall k | 0 <= k < |o.validation| :: |o.validation[k]| <= 500);
    }
  }

  datatype Counters = Counters(polls: nat, attempts: nat, notReady: nat, pending: nat, noOutcome: nat, transient: nat)

  const ZERO := Counters(0, 0, 0, 0, 0, 0)

  function Count(c: Counters, r: Read): Counters {
    if r.Transient? then c.(attempts := c.attempts + 1, transient := c.transient + 1)
    else
      var d := c.(attempts := c.attempts + 1, polls := c.polls + 1);
      if !Valid(r) then d
      else if !r.observation.value.ready then d.(notReady := d.notReady + 1)
      else if r.observation.value.pending then d.(pending := d.pending + 1)
      else if !r.observation.value.completion && !r.observation.value.rejection then d.(noOutcome := d.noOutcome + 1)
      else d
  }

  function Tally(rs: seq<Read>): Counters {
    if rs == [] then ZERO else Count(Tally(rs[..|rs| - 1]), rs[|rs| - 1])
  }

  /** Every read bracketed by passing control checks. */
  function Rounds(rs: seq<Read>): seq<Event> {
    if rs == [] then [] else Rounds(rs[..|rs| - 1]) + [Control(true), Evaluated(rs[|rs| - 1]), Control(true)]
  }

  ghost predicate AllInconclusive(rs: seq<Read>) {
    forall k | 0 <= k < |rs| :: Inconclusive(rs[k])
  }

  /** The counters partition the attempts and the polls. */
  lemma {:induction false} CountersPartition(rs: seq<Read>)
    requires AllInconclusive(rs)
    ensures var c := Tally(rs);
            c.attempts == |rs| == c.polls + c.transient && c.polls == c.notReady + c.pending + c.noOutcome
  {
    if rs != [] {
      CountersPartition(rs[..|rs| - 1]);
    }
  }

  /** A returned outcome is the one extra poll: neither not ready, nor pending, nor without an outcome. */
  lemma DecidingPollIsExtra(rs: seq<Read>, last: Read)
    requires AllInconclusive(rs) && Deciding(last)
    ensures var c := Tally(rs + [last]);
            c.attempts == |rs| + 1 == c.polls + c.transient && c.polls == c.notReady + c.pending + c.noOutcome + 1
  {
    CountersPartition(rs);
    assert (rs + [last])[..|rs|] == rs;
  }

  function Clicks(t: seq<Event>): nat {
    if t == [] then 0 else (if t[0].Clicked? then 1 else 0) + Clicks(t[1..])
  }

  lemma {:induction false} ClicksSplit(a: seq<Event>, b: seq<Event>)
    ensures Clicks(a + b) == Clicks(a) + Clicks(b)
  {
    if a == [] {
      assert a + b == b;
    } else {
      assert (a + b)[1..] == a[1..] + b;
      ClicksSplit(a[1..], b);
    }
  }

  lemma {:induction false} NoClicksIn(t: seq<Event>)
    requires forall k | 0 <= k < |t| :: !t[k].Clicked?
    ensures Clicks(t) == 0
  {
    if t != [] {
      NoClicksIn(t[1..]);
    }
  }

  lemma {:induction false} RoundsNeverClick(rs: seq<Read>)
    ensures Clicks(Rounds(rs)) == 0
    ensures |Rounds(rs)| == 3 * |rs|
  {
    if rs != [] {
      RoundsNeverClick(rs[..|rs| - 1]);
      var round := [Control(true), Evaluated(rs[|rs| - 1]), Control(true)];
      NoClicksIn(round);
      ClicksSplit(Rounds(rs[..|rs| - 1]), round);
    }
  }

  /** The events after the last complete round of an observation that ended uncertain. */
  ghost predicate Tail(t: seq<Event>, phase: Phase) {
    match phase
    case ValidateOptions => t == [Reported(phase)]
    case ControlBeforeRead => t == [Control(false), Reported(phase)]
    case ObserveDom => t == [Control(true), Evaluated(Fatal), Reported(phase)]
    case ControlAfterRead =>
      && |t| == 4 && t[0] == Control(true) && t[1].Evaluated? && !t[1].read.Fatal?
      && t[2] == Control(false) && t[3] == Reported(phase)
    case ValidateObservation =>
      && |t| == 4 && t[0] == Control(true) && t[1].Evaluated? && t[1].read.Returned? && Seen(t[1].read) == Malformed
      && t[2] == Control(true) && t[3] == Reported(phase)
    case Deadline =>
      || t == [Reported(phase)]
      || t == [Control(true), Reported(phase)]
      || (|t| == 4 && t[0] == Control(true) && t[1].Evaluated? && !t[1].read.Fatal? && t[2] == Control(true) && t[3] == Reported(phase))
    case SaveDispatch => false
  }

  lemma TailNeverClicks(t: seq<Event>, phase: Phase)
    requires Tail(t, phase)
    ensures Clicks(t) == 0 && |t| > 0 && t[|t| - 1] == Reported(phase)
  {
    NoClicksIn(t);
  }

  datatype Outcome = Refused | Visible(rejected: bool, counters: Counters) | Uncertain(phase: Phase)

  class Page {
    ghost var trace: seq<Event>
    ghost var nap: int // the argument of the last sleep
    var clock: int

    constructor ()
      ensures trace == []
    {
      trace, nap, clock := [], 0, 0;
    }

    method Now() returns (t: int)
      modifies this`clock
      ensures clock >= old(clock) && t == clock
    {
      var passed: int := *;
      clock := clock + (if passed > 0 then passed else 0);
      t := clock;
    }

    method CheckControl() returns (ok: bool)
      modifies this
      ensures clock >= old(clock) && trace == old(trace) + [Control(ok)]
    {
      var t := Now();
      ok := *;
      trace := trace + [Control(ok)];
    }

    method Evaluate() returns (read: Read)
      modifies this
      ensures clock >= old(clock) && trace == old(trace) + [Evaluated(read)]
    {
      var t := Now();
      read := *;
      trace := trace + [Evaluated(read)];
    }

    method Locate() returns (ok: bool)
      modifies this
      ensures clock >= old(clock) && trace == old(trace) + [Located(ok)]
    {
      var t := Now();
      ok := *;
      trace := trace + [Located(ok)];
    }

    method Click() returns (ok: bool)
      modifies this
      ensures clock >= old(clock) && trace == old(trace) + [Clicked(ok)]
    {
      var t := Now();
      ok := *;
      trace := trace + [Clicked(ok)];
    }

    method Report(phase: Phase)
      modifies this
      ensures clock >= old(clock) && trace == old(trace) + [Reported(phase)]
    {
      var t := Now();
      trace := trace + [Reported(phase)];
    }

    /** A sleep lasts at least its argument. */
    method Sleep(ms: int)
      modifies this`clock, this`nap
      ensures clock >= old(clock) && clock >= old(clock) + ms && nap == ms
    {
      nap := ms;
      var passed: int := *;
      clock := clock + (if ms > 0 then ms else 0) + (if passed > 0 then passed else 0);
    }
  }

  function AttemptLimit(timeoutMs: int): int {
    (timeoutMs + 999) / 1000
  }

  /** How one turn of the polling loop ended. */
  datatype Turn = Continue(read: Read) | Decided(read: Read) | Failed(phase: Phase)

  /**
   * From the control check before a read to the decision or the sleep after it. `attempts` counts the
   * earlier turns.
   */
  method PollOnce(page: Page, timeoutMs: int, started: int, attempts: nat) returns (turn: Turn, counted: Read, ghost seen: seq<Event>)
    requires timeoutMs >= 1000
    requires attempts == 0 || page.clock - started >= 1000 * attempts || page.clock - started >= timeoutMs
    requires page.clock >= started
    modifies page
    ensures page.clock >= old(page.clock) && page.trace == old(page.trace) + seen
    ensures turn.Continue? ==> (turn.read.Transient? || Seen(turn.read) in {Loading, Saving, Quiet}) && seen == [Control(true), Evaluated(turn.read), Control(true)]
    ensures turn.Decided? ==> Seen(turn.read) in {Completion, Rejection} && seen == [Control(true), Evaluated(turn.read), Control(true)]
    ensures turn.Failed? ==> Tail(seen + [Reported(turn.phase)], turn.phase) && turn.phase != ValidateOptions
    ensures |seen| >= 2 ==> attempts + 1 <= AttemptLimit(timeoutMs)
    ensures turn.Continue? ==> page.clock - started >= 1000 * (attempts + 1) || page.clock - started >= timeoutMs
    // The deadline is reported only when it has passed, and never before a first read; a decision only within it.
    ensures turn.Failed? && turn.phase == Deadline ==> page.clock - started >= timeoutMs && (attempts > 0 || |seen| == 3)
    ensures turn.Decided? ==> page.clock - started <= timeoutMs
    ensures turn.Continue? ==> page.nap <= 1000
  {
    counted := Transient;
    var ok := page.CheckControl();
    if !ok {
      return Failed(ControlBeforeRead), counted, [Control(false)];
    }
    if attempts > 0 {
      var t := page.Now();
      if t - started >= timeoutMs {
        return Failed(Deadline), counted, [Control(true)];
      }
    }
    counted := page.Evaluate();
    TestsAreExact(counted);
    if counted.Fatal? {
      return Failed(ObserveDom), counted, [Control(true), Evaluated(Fatal)];
    }
    ok := page.CheckControl();
    seen := [Control(true), Evaluated(counted), Control(ok)];
    if !ok {
      return Failed(ControlAfterRead), counted, seen;
    }
    var t := page.Now();
    if t - started > timeoutMs {
      return Failed(Deadline), counted, seen;
    }
    if !counted.Transient? {
      if !Valid(counted) {
        return Failed(ValidateObservation), counted, seen;
      }
      if Deciding(counted) {
        return Decided(counted), counted, seen;
      }
    }
    t := page.Now();
    if t - started >= timeoutMs {
      return Failed(Deadline), counted, seen;
    }
    t := page.Now();
    page.Sleep(if timeoutMs - (t - started) < 1000 then timeoutMs - (t - started) else 1000);
    return Continue(counted), counted, seen;
  }

  /**
   * Bounded observation. `rs` are the completed inconclusive reads, each bracketed by passing checks; the
   * observation ends at the first deciding read, or is reported as uncertain.
   */
  method ObserveSave(page: Page, options: Option<int>) returns (outcome: Outcome, ghost rs: seq<Read>, ghost last: seq<Event>)
    requires options.Some? ==> 1000 <= options.value <= 120000
    modifies page
    ensures page.clock >= old(page.clock) && page.trace == old(page.trace) + Rounds(rs) + last
    ensures AllInconclusive(rs) && !outcome.Refused? && (options.None? <==> outcome == Uncertain(ValidateOptions))
    ensures outcome.Visible? ==>
              exists r :: last == [Control(true), Evaluated(r), Control(true)]
                          && Seen(r) == (if outcome.rejected then Rejection else Completion) && outcome.counters == Tally(rs + [r])
    ensures outcome.Uncertain? && outcome.phase == Deadline ==> rs != [] || |last| == 4
    ensures outcome.Uncertain? ==> Tail(last, outcome.phase)
    ensures options.Some? ==> |rs| <= AttemptLimit(options.value) && (|last| >= 3 ==> |rs| + 1 <= AttemptLimit(options.value))
  {
    var started := page.Now();
    rs := [];
    assert old(page.trace) + Rounds([]) == old(page.trace);
    if options.None? {
      page.Report(ValidateOptions);
      return Uncertain(ValidateOptions), rs, [Reported(ValidateOptions)];
    }
    var counters := ZERO;
    while true
      invariant page.clock >= started >= old(page.clock) && page.trace == old(page.trace) + Rounds(rs)
      invariant AllInconclusive(rs) && counters == Tally(rs) && counters.attempts == |rs| <= AttemptLimit(options.value)
      invariant |rs| == 0 || page.clock - started >= 1000 * |rs| || page.clock - started >= options.value
      decreases AttemptLimit(options.value) - |rs|
    {
      var turn, read, seen := PollOnce(page, options.value, started, counters.attempts);
      match turn {
        case Failed(phase) =>
          page.Report(phase);
          last := seen + [Reported(phase)];
          return Uncertain(phase), rs, last;
        case Decided(r) =>
          assert (rs + [r])[..|rs|] == rs;
          TestsAreExact(r);
          return Visible(r.observation.value.rejection, Count(counters, r)), rs, seen;
        case Continue(r) =>
          TestsAreExact(r);
          assert (rs + [r])[..|rs|] == rs;
          counters := Count(counters, r);
          rs := rs + [r];
          CountersPartition(rs);
      }
    }
  }

  /** The idle edit state a save may start from. */
  predicate Idle(r: Read) {
    Valid(r) && !r.observation.value.pending && !r.observation.value.completion && !r.observation.value.rejection
  }

  /** What was asked before the click: control, the button, a page that shows nothing of a save, control again. */
  ghost predicate Preflight(t: seq<Event>) {
    exists r :: Seen(r) == Quiet && t == [Control(true), Located(true), Evaluated(r), Control(true)]
  }

  /** Where a preflight stops: at its first answer that does not pass. */
  ghost predicate Balked(t: seq<Event>) {
    || t == [Control(false)]
    || t == [Control(true), Located(false)]
    || (exists r :: Seen(r) != Quiet && t == [Control(true), Located(true), Evaluated(r)])
    || (exists r :: Seen(r) == Quiet && t == [Control(true), Located(true), Evaluated(r), Control(false)])
  }

  method CheckPreflight(page: Page) returns (ready: bool, ghost seen: seq<Event>)
    modifies page
    ensures page.trace == old(page.trace) + seen && Clicks(seen) == 0
    ensures if ready then Preflight(seen) else Balked(seen)
  {
    hide Idle; hide Seen;
    var ok := page.CheckControl();
    seen := [Control(ok)];
    if ok {
      ok := page.Locate();
      seen := seen + [Located(ok)];
      if ok {
        var before := page.Evaluate();
        TestsAreExact(before);
        seen := seen + [Evaluated(before)];
        ok := Idle(before);
        if ok {
          ok := page.CheckControl();
          seen := seen + [Control(ok)];
        }
      }
    }
    ready := ok;
    NoClicksIn(seen);
  }

  /** A read that the observation went on after. */
  ghost predicate AllUnsettled(rs: seq<Read>) {
    forall k | 0 <= k < |rs| :: rs[k].Transient? || Seen(rs[k]) in {Loading, Saving, Quiet}
  }

  lemma InconclusiveIsUnsettled(rs: seq<Read>)
    requires AllInconclusive(rs)
    ensures AllUnsettled(rs)
  {
    hide Seen; hide Inconclusive;
    forall k | 0 <= k < |rs|
      ensures rs[k].Transient? || Seen(rs[k]) in {Loading, Saving, Quiet}
    {
      TestsAreExact(rs[k]);
    }
  }

  /**
   * One save. It is refused, and nothing was clicked, exactly when the request is bad or the preflight balks. Otherwise
   * there is exactly one click, sent straight after the preflight passed. A visible outcome is what the last read shows,
   * after a click that succeeded and reads `rs` that settled nothing; anything else is a reported uncertainty.
   */
  method SaveOnce(page: Page, options: Option<int>, locatorOk: bool, hooksOk: bool)
    returns (outcome: Outcome, ghost before: seq<Event>, ghost after: seq<Event>, ghost rs: seq<Read>)
    requires options.Some? ==> 1000 <= options.value <= 120000
    modifies page
    ensures page.trace == old(page.trace) + before + after && Clicks(before) == 0
    ensures outcome.Refused? <==> after == []
    ensures options.None? || !locatorOk || !hooksOk ==> outcome.Refused? && before == []
    ensures options.Some? && locatorOk && hooksOk ==> if outcome.Refused? then Balked(before) else Preflight(before)
    ensures !outcome.Refused? ==> Clicks(after) == 1 && AllUnsettled(rs)
    ensures outcome.Visible? ==>
              exists r :: after == [Clicked(true)] + Rounds(rs) + [Control(true), Evaluated(r), Control(true)]
                          && Seen(r) == (if outcome.rejected then Rejection else Completion) && outcome.counters == Tally(rs + [r])
    ensures outcome.Uncertain? ==>
              if outcome.phase == SaveDispatch then after == [Clicked(false), Reported(SaveDispatch)]
              else exists last :: after == [Clicked(true)] + Rounds(rs) + last && Tail(last, outcome.phase) && outcome.phase != ValidateOptions
  {
    hide Clicks; hide Preflight; hide Balked; hide Tail; hide Rounds; hide Seen; hide AllInconclusive; hide AllUnsettled;
    before, after, rs := [], [], [];
    NoClicksIn([]);
    if options.None? || !locatorOk || !hooksOk {
      return Refused, before, after, rs;
    }
    var ready;
    ready, before := CheckPreflight(page);
    if !ready {
      return Refused, before, after, rs;
    }
    var sent := page.Click();
    ghost var last;
    if sent {
      outcome, rs, last := ObserveSave(page, options);
      InconclusiveIsUnsettled(rs);
      if outcome.Uncertain? {
        TailNeverClicks(last, outcome.phase);
        NotDispatch(last, outcome.phase);
      } else {
        NoClicksIn(last);
      }
    } else {
      page.Report(SaveDispatch);
      outcome, last := Uncertain(SaveDispatch), [Reported(SaveDispatch)];
      NoRounds();
      NoClicksIn(last);
    }
    RoundsNeverClick(rs);
    after := [Clicked(sent)] + Rounds(rs) + last;
    SingleClick(sent, Rounds(rs), last);
    assert page.trace == old(page.trace) + before + after;
  }

  lemma NotDispatch(t: seq<Event>, phase: Phase)
    requires Tail(t, phase)
    ensures phase != SaveDispatch
  {
  }

  lemma NoRounds()
    ensures Rounds([]) == [] && AllUnsettled([])
  {
  }

  lemma SingleClick(ok: bool, rounds: seq<Event>, last: seq<Event>)
    requires Clicks(rounds) == 0 && Clicks(last) == 0
    ensures Clicks([Clicked(ok)] + rounds + last) == 1
  {
    assert Clicks([Clicked(ok)]) == 1;
    hide Clicks;
    ClicksSplit([Clicked(ok)] + rounds, last);
    ClicksSplit([Clicked(ok)], rounds);
  }
}
