/**
 * The job boundary taken apart at its awaits. Any number of callbacks may be in flight; an event runs one of them
 * from one await to the next, with the answer it was waiting for, or lets another process touch the marker.
 */
module GateInterleaving {
  import opened Wrappers
  import opened LinkKeys
  import opened DiscountBody
  import opened WriteEvidence
  import opened WriteGate

  /**
   * Where a write's callback waits: for the control check, for the saved receipt, for the saved marker; and, once the
   * marker is saved, for its own turn to go on.
   */
  datatype Stage = Checking | SavingReceipt | SavingMarker | Saved

  /** What kind of write it is was found when it was tested, and is kept across the awaits. */
  datatype Call = Writing(p: Prepared, link: bool, finalize: bool, at: Stage) | Noting(e: Evidence)

  datatype Fact = Tested(call: nat, p: Prepared) | Booked(call: nat, p: Prepared) | Marked(call: nat, p: Prepared) | Allowed(call: nat, p: Prepared) | Learned(e: Evidence)

  datatype Gate = Gate(vars: State, disk: Option<string>, calls: map<nat, Call>, next: nat, log: seq<Fact>)

  datatype Event = Begin(p: Prepared, references: bool) | BeginEvidence(e: Evidence) | Continue(call: nat, ok: bool) | Others(disk: Option<string>)

  datatype Job = Job(data: Data, receipt: string)

  const START := Gate(INITIAL, None, map[], 0, [])

  function Route(p: Prepared): (Verb, Path) {
    (p.verb, p.path)
  }

  /** The marker a passing control check finds. */
  function Expected(g: Gate, job: Job): Option<string> {
    if g.vars.dispatched then Some(job.receipt) else None
  }

  /** Up to the control check. */
  function Test(g: Gate, job: Job, p: Prepared, references: bool): Gate {
    if Admits(g.vars, job.data, p) && references then
      var call := Writing(p, LinksNew(g.vars, job.data, p), Finalizes(g.vars, job.data, p), Checking);
      g.(calls := g.calls[g.next := call], next := g.next + 1, log := g.log + [Tested(g.next, p)])
    else g
  }

  /**
   * A callback goes on; without the answer it wants it throws. The marker is on disk before the callback runs again,
   * and whatever happens in between, the write is accepted when it does.
   */
  function Resume(g: Gate, job: Job, c: nat, ok: bool): Gate
    requires c in g.calls
  {
    var call := g.calls[c];
    if call.Writing? && call.at.Saved? then
      g.(calls := g.calls - {c}, vars := g.vars.(dispatched := true), log := g.log + [Allowed(c, call.p)])
    else if !ok || (call.Writing? && call.at.Checking? && g.disk != Expected(g, job)) then g.(calls := g.calls - {c})
    else if call.Noting? then g.(calls := g.calls - {c}, vars := Learn(g.vars, job.data, call.e), log := g.log + [Learned(call.e)])
    else match call.at
      case Checking =>
        g.(calls := g.calls[c := call.(at := SavingReceipt)], vars := BookAs(g.vars, call.p, call.link, call.finalize), log := g.log + [Booked(c, call.p)])
      case SavingReceipt => g.(calls := g.calls[c := call.(at := SavingMarker)])
      case SavingMarker =>
        g.(calls := g.calls[c := call.(at := Saved)], disk := Some(job.receipt), log := g.log + [Marked(c, call.p)])
  }

  function Step(g: Gate, job: Job, e: Event): Gate {
    match e
    case Begin(p, references) => Test(g, job, p, references)
    case BeginEvidence(evidence) => if g.vars.dispatched then g.(calls := g.calls[g.next := Noting(evidence)], next := g.next + 1) else g
    case Continue(c, ok) => if c in g.calls then Resume(g, job, c, ok) else g
    case Others(disk) => g.(disk := disk)
  }

  function From(g: Gate, job: Job, es: seq<Event>): Gate {
    if es == [] then g else Step(From(g, job, es[..|es| - 1]), job, es[|es| - 1])
  }

  function Run(job: Job, es: seq<Event>): Gate {
    From(START, job, es)
  }

  // ---- What every interleaving keeps -----------------------------------------------------------------

  predicate Finalising(p: Prepared) {
    p.phase.FinalizeNew? && p.verb.Put?
  }

  predicate Linking(p: Prepared) {
    p.phase.LinkNewItem? && p.verb.Put?
  }

  ghost predicate BookedRoute(log: seq<Fact>, n: nat, k: (Verb, Path)) {
    exists i :: 0 <= i < n && i < |log| && log[i].Booked? && Route(log[i].p) == k
  }

  ghost predicate BookedFinal(log: seq<Fact>, n: nat) {
    exists i :: 0 <= i < n && i < |log| && log[i].Booked? && Finalising(log[i].p)
  }

  ghost predicate AllowedBefore(log: seq<Fact>, n: nat) {
    exists i :: 0 <= i < n && i < |log| && log[i].Allowed?
  }

  ghost predicate Known(log: seq<Fact>, n: nat, id: Option<string>) {
    exists i :: 0 <= i < n && i < |log| && log[i].Learned? && ReadsBack(Noted(log[i].e), id)
  }

  ghost predicate Shown(log: seq<Fact>, n: nat, id: Option<string>, key: Key) {
    exists i :: 0 <= i < n && i < |log| && log[i].Learned? && ShowsLink(Noted(log[i].e), id, key)
  }

  /** What the log before a test holds if the write passes it. */
  ghost predicate Lawful(d: Data, log: seq<Fact>, n: nat, p: Prepared) {
    && Proper(d, p) && !BookedRoute(log, n, Route(p)) && (p.verb.Post? ==> !AllowedBefore(log, n))
    && (Linking(p) || Finalising(p) ==> Known(log, n, p.discountId) && !BookedFinal(log, n))
    && (Finalising(p) ==> d.items.Some? && forall k | 0 <= k < |d.items.value| :: Shown(log, n, p.discountId, KeyOf(d.items.value[k])))
  }

  ghost predicate LawfulAt(d: Data, log: seq<Fact>, n: nat)
    requires n < |log|
  {
    log[n].Tested? ==> Lawful(d, log, n, log[n].p)
  }

  /** A call is tested, then booked, then its marker is saved, then it is allowed. */
  ghost predicate OrderedAt(log: seq<Fact>, n: nat)
    requires n < |log|
  {
    && (log[n].Booked? ==> WasTested(log, n, log[n].call, log[n].p))
    && (log[n].Marked? ==> WasBooked(log, n, log[n].call, log[n].p))
    && (log[n].Allowed? ==> WasMarked(log, n, log[n].call, log[n].p))
  }

  ghost predicate WasTested(log: seq<Fact>, n: nat, c: nat, p: Prepared) {
    exists i :: 0 <= i < n && i < |log| && log[i] == Tested(c, p)
  }

  ghost predicate WasBooked(log: seq<Fact>, n: nat, c: nat, p: Prepared) {
    exists i :: 0 <= i < n && i < |log| && log[i] == Booked(c, p)
  }

  ghost predicate WasMarked(log: seq<Fact>, n: nat, c: nat, p: Prepared) {
    exists i :: 0 <= i < n && i < |log| && log[i] == Marked(c, p)
  }

  /** Each once. */
  ghost predicate Singly(log: seq<Fact>, i: nat, j: nat)
    requires i < |log| && j < |log|
  {
    i != j ==> && !(log[i].Booked? && log[j].Booked? && log[i].call == log[j].call)
               && !(log[i].Marked? && log[j].Marked? && log[i].call == log[j].call)
               && !(log[i].Allowed? && log[j].Allowed? && log[i].call == log[j].call)
  }

  ghost predicate LogKeeps(d: Data, log: seq<Fact>) {
    && (forall n | 0 <= n < |log| :: LawfulAt(d, log, n))
    && (forall n | 0 <= n < |log| :: OrderedAt(log, n))
    && (forall i, j | 0 <= i < |log| && 0 <= j < |log| :: Singly(log, i, j))
  }

  /** The closure variables stand for the log. */
  ghost predicate Stands(s: State, log: seq<Fact>) {
    && (s.created.Some? ==> Known(log, |log|, s.created))
    && (forall k | k in s.verified :: Shown(log, |log|, s.created, k))
    && (forall k :: k in s.sentPaths <==> BookedRoute(log, |log|, k))
    && (BookedFinal(log, |log|) ==> s.finalized)
    && (AllowedBefore(log, |log|) ==> s.dispatched)
  }

  ghost predicate CallStands(g: Gate, c: nat)
    requires c in g.calls
  {
    c < g.next && (g.calls[c].Writing? ==>
      && WasTested(g.log, |g.log|, c, g.calls[c].p)
      && (Finalising(g.calls[c].p) ==> g.calls[c].finalize)
      && (forall i | 0 <= i < |g.log| && !g.log[i].Learned? && g.log[i].call == c ::
            && !g.log[i].Allowed? && (g.log[i].Booked? ==> !g.calls[c].at.Checking?)
            && (g.log[i].Marked? ==> g.calls[c].at.Saved?))
      && (!g.calls[c].at.Checking? ==> WasBooked(g.log, |g.log|, c, g.calls[c].p))
      && (g.calls[c].at.Saved? ==> WasMarked(g.log, |g.log|, c, g.calls[c].p)))
  }

  ghost predicate CallsStand(g: Gate) {
    && (forall c | c in g.calls :: CallStands(g, c))
    && (forall i | 0 <= i < |g.log| && !g.log[i].Learned? :: g.log[i].call < g.next)
  }

  ghost predicate Inv(g: Gate, job: Job) {
    LogKeeps(job.data, g.log) && Stands(g.vars, g.log) && CallsStand(g)
  }

  // Facts about earlier positions do not depend on later entries.

  lemma Prefix(log: seq<Fact>, x: Fact, n: nat)
    requires n <= |log|
    ensures forall k :: BookedRoute(log + [x], n, k) <==> BookedRoute(log, n, k)
    ensures BookedFinal(log + [x], n) <==> BookedFinal(log, n)
    ensures AllowedBefore(log + [x], n) <==> AllowedBefore(log, n)
    ensures forall id :: Known(log, n, id) ==> Known(log + [x], n, id)
    ensures forall id, k :: Shown(log, n, id, k) ==> Shown(log + [x], n, id, k)
    ensures forall c, p :: WasTested(log, n, c, p) ==> WasTested(log + [x], n, c, p)
    ensures forall c, p :: WasBooked(log, n, c, p) ==> WasBooked(log + [x], n, c, p)
    ensures forall c, p :: WasMarked(log, n, c, p) ==> WasMarked(log + [x], n, c, p)
  {
    hide ReadsBack; hide ShowsLink; hide Finalising;
    assert forall i | 0 <= i < |log| :: (log + [x])[i] == log[i];
  }

  lemma Grown(log: seq<Fact>, x: Fact)
    ensures var now := log + [x];
      && (forall k :: BookedRoute(now, |now|, k) <==> BookedRoute(log, |log|, k) || (x.Booked? && Route(x.p) == k))
      && (BookedFinal(now, |now|) <==> BookedFinal(log, |log|) || (x.Booked? && Finalising(x.p)))
      && (AllowedBefore(now, |now|) <==> AllowedBefore(log, |log|) || x.Allowed?)
      && (forall id :: Known(log, |log|, id) ==> Known(now, |now|, id))
      && (forall id, k :: Shown(log, |log|, id, k) ==> Shown(now, |now|, id, k))
      && (forall c, p :: WasTested(log, |log|, c, p) || x == Tested(c, p) ==> WasTested(now, |now|, c, p))
      && (forall c, p :: WasBooked(log, |log|, c, p) || x == Booked(c, p) ==> WasBooked(now, |now|, c, p))
      && (forall c, p :: WasMarked(log, |log|, c, p) || x == Marked(c, p) ==> WasMarked(now, |now|, c, p))
  {
    hide ReadsBack; hide ShowsLink; hide Finalising;
    assert forall i | 0 <= i < |log| :: (log + [x])[i] == log[i];
    assert (log + [x])[|log|] == x;
  }

  lemma LawfulStays(d: Data, log: seq<Fact>, x: Fact, n: nat)
    requires n < |log| && LawfulAt(d, log, n)
    ensures LawfulAt(d, log + [x], n)
  {
    hide Known; hide Shown; hide BookedRoute; hide BookedFinal; hide AllowedBefore; hide Proper; hide KeyOf;
    Prefix(log, x, n);
    assert (log + [x])[n] == log[n];
  }

  lemma LogGrows(d: Data, log: seq<Fact>, x: Fact)
    requires LogKeeps(d, log)
    requires x.Tested? ==> Lawful(d, log, |log|, x.p)
    requires x.Booked? ==> WasTested(log, |log|, x.call, x.p) && forall i | 0 <= i < |log| && log[i].Booked? :: log[i].call != x.call
    requires x.Marked? ==> WasBooked(log, |log|, x.call, x.p) && forall i | 0 <= i < |log| && log[i].Marked? :: log[i].call != x.call
    requires x.Allowed? ==> WasMarked(log, |log|, x.call, x.p) && forall i | 0 <= i < |log| && log[i].Allowed? :: log[i].call != x.call
    ensures LogKeeps(d, log + [x])
  {
    hide Lawful; hide WasTested; hide WasBooked; hide WasMarked;
    var now := log + [x];
    forall n | 0 <= n < |now|
      ensures LawfulAt(d, now, n) && OrderedAt(now, n)
    {
      if n < |log| {
        LawfulStays(d, log, x, n);
        Prefix(log, x, n);
        assert now[n] == log[n] && OrderedAt(log, n);
      } else {
        LawfulNow(d, log, x);
        Prefix(log, x, n);
      }
    }
    forall i, j | 0 <= i < |now| && 0 <= j < |now|
      ensures Singly(now, i, j)
    {
      if i < |log| && j < |log| {
        assert Singly(log, i, j);
      }
    }
  }

  lemma LawfulNow(d: Data, log: seq<Fact>, x: Fact)
    requires x.Tested? ==> Lawful(d, log, |log|, x.p)
    ensures LawfulAt(d, log + [x], |log|)
  {
    hide Known; hide Shown; hide BookedRoute; hide BookedFinal; hide AllowedBefore; hide Proper; hide KeyOf;
    Prefix(log, x, |log|);
  }

  lemma TestedIsLawful(s: State, d: Data, log: seq<Fact>, p: Prepared)
    requires Stands(s, log) && Admits(s, d, p)
    ensures Lawful(d, log, |log|, p) && (Finalising(p) ==> Finalizes(s, d, p))
  {
    hide Known; hide Shown; hide BookedRoute; hide BookedFinal; hide AllowedBefore; hide Proper; hide KeyOf;
    hide Creates; hide ChangesExisting; hide FinalBody; hide Has;
    AdmittedShape(s, d, p);
    AdmittedIsProper(s, d, p);
    hide Unlinks; hide ListsItem;
  }

  lemma LearnedStands(s: State, d: Data, log: seq<Fact>, e: Evidence)
    requires Stands(s, log)
    ensures Stands(Learn(s, d, e), log + [Learned(e)])
  {
    hide Known; hide Shown; hide BookedRoute; hide BookedFinal; hide Confirms;
    var t, now := Learn(s, d, e), log + [Learned(e)];
    Grown(log, Learned(e));
    LearnedIdentity(s, d, log, e);
    forall k | k in t.verified
      ensures Shown(now, |now|, t.created, k)
    {
      if k in s.verified {
        ShownFor(now, s.created, t.created, k);
      } else {
        ShownNow(log, e, t.created, k);
      }
    }
  }

  lemma ShownNow(log: seq<Fact>, e: Evidence, id: Option<string>, k: Key)
    requires e.kind.LinkReadback? && e.matched && e.discountId == id && k in e.links
    ensures Shown(log + [Learned(e)], |log| + 1, id, k)
  {
    assert (log + [Learned(e)])[|log|] == Learned(e) && ShowsLink(Noted(e), id, k);
  }

  lemma ShownFor(log: seq<Fact>, before: Option<string>, after: Option<string>, k: Key)
    requires Shown(log, |log|, before, k) && (before.Some? ==> after == before)
    ensures Shown(log, |log|, after, k)
  {
    var i :| 0 <= i < |log| && log[i].Learned? && ShowsLink(Noted(log[i].e), before, k);
    assert ShowsLink(Noted(log[i].e), after, k);
  }

  /** The identity is learned once, from a readback of the row. */
  lemma LearnedIdentity(s: State, d: Data, log: seq<Fact>, e: Evidence)
    ensures var t := Learn(s, d, e);
      && (s.created.Some? ==> t.created == s.created)
      && (t.created != s.created ==> Known(log + [Learned(e)], |log| + 1, t.created))
      && t.sentPaths == s.sentPaths && t.finalized == s.finalized
  {
    assert (log + [Learned(e)])[|log|] == Learned(e);
    if Confirms(s, d, e) {
      assert ReadsBack(Noted(e), e.discountId);
    }
  }

  lemma BookedStands(s: State, log: seq<Fact>, p: Prepared, c: nat, link: bool, finalize: bool)
    requires Stands(s, log) && (Finalising(p) ==> finalize)
    ensures Stands(BookAs(s, p, link, finalize), log + [Booked(c, p)])
  {
    hide Known; hide Shown; hide BookedRoute; hide BookedFinal; hide AllowedBefore; hide Finalising;
    Grown(log, Booked(c, p));
  }

  lemma OtherStands(s: State, log: seq<Fact>, x: Fact)
    requires Stands(s, log) && (x.Tested? || x.Marked? || x.Allowed?)
    ensures (!x.Allowed? ==> Stands(s, log + [x])) && Stands(s.(dispatched := true), log + [x])
  {
    hide Known; hide Shown; hide BookedRoute; hide BookedFinal; hide AllowedBefore; hide Finalising;
    Grown(log, x);
  }

  /** A call that the step leaves alone still stands. */
  lemma CallStays(g: Gate, h: Gate, c: nat)
    requires c in g.calls && CallStands(g, c) && c in h.calls && h.calls[c] == g.calls[c] && g.next <= h.next
    requires h.log == g.log || (|h.log| == |g.log| + 1 && h.log == g.log + [h.log[|g.log|]])
    requires h.log != g.log && !h.log[|g.log|].Learned? ==> h.log[|g.log|].call != c
    ensures CallStands(h, c)
  {
    hide WasTested; hide WasBooked; hide WasMarked; hide Finalising;
    if h.log != g.log {
      Grown(g.log, h.log[|g.log|]);
    }
  }

  lemma NextKeeps(g: Gate, job: Job, e: Event)
    requires Inv(g, job)
    ensures Inv(Step(g, job, e), job)
  {
    hide LogKeeps; hide Stands; hide CallStands; hide Admits; hide LinksNew; hide Finalizes;
    match e
    case Begin(p, references) => TestKeeps(g, job, p, references);
    case BeginEvidence(evidence) =>
      if g.vars.dispatched {
        var h := Step(g, job, e);
        forall c | c in h.calls
          ensures CallStands(h, c)
        {
          if c in g.calls {
            assert CallStands(g, c) && c < g.next by { CallIsOld(g, c); }
            CallStays(g, h, c);
          } else {
            NotingStands(h, c);
          }
        }
      }
    case Continue(c, ok) =>
      if c in g.calls {
        ResumeKeeps(g, job, c, ok);
      }
    case Others(disk) =>
      forall c | c in g.calls
        ensures CallStands(Step(g, job, e), c)
      {
        CallStays(g, Step(g, job, e), c);
      }
  }

  lemma CallIsOld(g: Gate, c: nat)
    requires c in g.calls && CallStands(g, c)
    ensures c < g.next
  {
  }

  lemma NotingStands(g: Gate, c: nat)
    requires c in g.calls && c < g.next && g.calls[c].Noting?
    ensures CallStands(g, c)
  {
  }

  lemma TestKeeps(g: Gate, job: Job, p: Prepared, references: bool)
    requires Inv(g, job)
    ensures Inv(Test(g, job, p, references), job)
  {
    hide LogKeeps; hide Stands; hide CallStands; hide Admits; hide LinksNew; hide Finalizes; hide Lawful; hide Finalising;
    var h := Test(g, job, p, references);
    if h != g {
      var x := Tested(g.next, p);
      TestedIsLawful(g.vars, job.data, g.log, p);
      LogGrows(job.data, g.log, x);
      OtherStands(g.vars, g.log, x);
      forall c | c in h.calls
        ensures CallStands(h, c)
      {
        if c != g.next {
          CallStays(g, h, c);
        } else {
          NewCallStands(g, h, p);
        }
      }
    }
  }

  lemma NewCallStands(g: Gate, h: Gate, p: Prepared)
    requires g.next in h.calls && h.next == g.next + 1 && h.log == g.log + [Tested(g.next, p)]
    requires forall i | 0 <= i < |g.log| && !g.log[i].Learned? :: g.log[i].call < g.next
    requires h.calls[g.next].Writing? && h.calls[g.next].at.Checking? && h.calls[g.next].p == p && (Finalising(p) ==> h.calls[g.next].finalize)
    ensures CallStands(h, g.next)
  {
    hide Finalising;
    Grown(g.log, Tested(g.next, p));
  }

  lemma ResumeKeeps(g: Gate, job: Job, c: nat, ok: bool)
    requires Inv(g, job) && c in g.calls
    ensures Inv(Resume(g, job, c, ok), job)
  {
    hide LogKeeps; hide Stands; hide CallStands; hide Learn; hide BookAs;
    var h := Resume(g, job, c, ok);
    assert CallStands(g, c);
    if h.log != g.log {
      ResumeLogs(g, job, c, ok);
    }
    forall b | b in h.calls
      ensures CallStands(h, b)
    {
      if b != c {
        CallStays(g, h, b);
      } else {
        ResumedStands(g, job, c, ok);
      }
    }
    forall i | 0 <= i < |h.log| && !h.log[i].Learned?
      ensures h.log[i].call < h.next
    {
      if i >= |g.log| {
        CallIsOld(g, c);
      }
    }
  }

  lemma ResumedStands(g: Gate, job: Job, c: nat, ok: bool)
    requires c in g.calls && CallStands(g, c) && c in Resume(g, job, c, ok).calls
    ensures CallStands(Resume(g, job, c, ok), c)
  {
    hide WasTested; hide WasBooked; hide WasMarked; hide Finalising; hide BookAs; hide Learn;
    var h := Resume(g, job, c, ok);
    if h.log != g.log {
      Grown(g.log, if g.calls[c].at.Checking? then Booked(c, g.calls[c].p) else Marked(c, g.calls[c].p));
    }
  }

  lemma ResumeLogs(g: Gate, job: Job, c: nat, ok: bool)
    requires LogKeeps(job.data, g.log) && Stands(g.vars, g.log) && c in g.calls && CallStands(g, c) && Resume(g, job, c, ok).log != g.log
    ensures var h := Resume(g, job, c, ok); LogKeeps(job.data, h.log) && Stands(h.vars, h.log)
  {
    hide LogKeeps; hide Stands; hide WasTested; hide WasBooked; hide WasMarked; hide Finalising; hide BookAs; hide Learn;
    var call := g.calls[c];
    if call.Noting? {
      LogGrows(job.data, g.log, Learned(call.e));
      LearnedStands(g.vars, job.data, g.log, call.e);
    } else if call.at.Checking? {
      LogGrows(job.data, g.log, Booked(c, call.p));
      BookedStands(g.vars, g.log, call.p, c, call.link, call.finalize);
    } else if call.at.SavingMarker? {
      LogGrows(job.data, g.log, Marked(c, call.p));
      OtherStands(g.vars, g.log, Marked(c, call.p));
    } else {
      LogGrows(job.data, g.log, Allowed(c, call.p));
      OtherStands(g.vars, g.log, Allowed(c, call.p));
    }
  }

  lemma {:induction false} RunKeeps(job: Job, es: seq<Event>)
    ensures Inv(Run(job, es), job)
  {
    hide Inv; hide Step;
    if es == [] {
      StartKeeps(job);
    } else {
      RunKeeps(job, es[..|es| - 1]);
      NextKeeps(Run(job, es[..|es| - 1]), job, es[|es| - 1]);
    }
  }

  lemma StartKeeps(job: Job)
    ensures Inv(START, job)
  {
  }

  // ---- Any interleaving ------------------------------------------------------------------------------

  /**
   * Whatever overlaps, an accepted write had its marker saved, before that was booked by a passing control check, and
   * before that passed its test; and what the test read off was already so: a link or a finalisation is of a discount
   * read back, nothing was finalised, and a finalisation has every wanted link read back.
   */
  lemma AllowedWasLawful(job: Job, es: seq<Event>, j: nat) returns (t: nat, b: nat, m: nat)
    requires j < |Run(job, es).log| && Run(job, es).log[j].Allowed?
    ensures var log := Run(job, es).log;
      && t < b < m < j && log[t] == Tested(log[j].call, log[j].p) && log[b] == Booked(log[j].call, log[j].p)
      && log[m] == Marked(log[j].call, log[j].p) && Lawful(job.data, log, t, log[j].p)
  {
    hide Run; hide Lawful; hide Stands; hide CallsStand;
    RunKeeps(job, es);
    var log := Run(job, es).log;
    assert OrderedAt(log, j);
    m :| 0 <= m < j && log[m] == Marked(log[j].call, log[j].p);
    assert OrderedAt(log, m);
    b :| 0 <= b < m && log[b] == Booked(log[j].call, log[j].p);
    assert OrderedAt(log, b);
    t :| 0 <= t < b && log[t] == Tested(log[j].call, log[j].p);
    assert LawfulAt(job.data, log, t);
  }

  /** While writes are out, or about to be, the marker on disk is this run's. */
  ghost predicate MarkerStands(g: Gate, job: Job) {
    (g.vars.dispatched || exists c :: c in g.calls && g.calls[c].Writing? && g.calls[c].at.Saved?) ==> g.disk == Some(job.receipt)
  }

  /** Only somebody else can take the marker away, and the next write that is marked puts it back. */
  lemma MarkerStays(g: Gate, job: Job, e: Event)
    ensures MarkerStands(g, job) && !e.Others? ==> MarkerStands(Step(g, job, e), job)
    ensures forall c, p :: Step(g, job, e).log == g.log + [Marked(c, p)] ==> MarkerStands(Step(g, job, e), job)
  {
    hide Admits; hide LinksNew; hide Finalizes; hide BookAs;
    var h := Step(g, job, e);
    LearnKeepsDispatched(g, job);
    BookKeepsDispatched(g);
    forall c, p | h.log == g.log + [Marked(c, p)]
      ensures MarkerStands(h, job)
    {
      assert h.log[|g.log|] == Marked(c, p);
    }
    if MarkerStands(g, job) && !e.Others? && h.disk != Some(job.receipt) {
      assert forall c | c in h.calls && h.calls[c].Writing? && h.calls[c].at.Saved? :: c in g.calls && g.calls[c] == h.calls[c];
    }
  }

  lemma LearnKeepsDispatched(g: Gate, job: Job)
    ensures forall e :: Learn(g.vars, job.data, e).dispatched == g.vars.dispatched
  {
  }

  lemma BookKeepsDispatched(g: Gate)
    ensures forall p, link, finalize :: BookAs(g.vars, p, link, finalize).dispatched == g.vars.dispatched
  {
  }

  /** In every run: while nobody else touches the disk, or from the last marked write on, the marker stands. */
  lemma {:induction false} DispatchedHasMarker(job: Job, es: seq<Event>, more: seq<Event>)
    requires forall i | 0 <= i < |more| :: !more[i].Others?
    requires es == [] || MarkerStands(Run(job, es), job)
    ensures MarkerStands(Run(job, es + more), job)
  {
    hide Step;
    if more == [] {
      assert es + more == es;
    } else {
      var most := more[..|more| - 1];
      DispatchedHasMarker(job, es, most);
      assert (es + more)[..|es + more| - 1] == es + most;
      MarkerStays(Run(job, es + most), job, more[|more| - 1]);
    }
  }

  /** The same method and path is booked again only by a call tested before the earlier booking. */
  lemma RebookedWasInFlight(job: Job, es: seq<Event>, i: nat, j: nat) returns (t: nat)
    requires var log := Run(job, es).log;
      i < j < |log| && log[i].Booked? && log[j].Booked? && Route(log[i].p) == Route(log[j].p)
    ensures var log := Run(job, es).log; log[i].call != log[j].call && t < i && log[t] == Tested(log[j].call, log[j].p)
  {
    hide Run; hide Stands; hide CallsStand;
    RunKeeps(job, es);
    var log := Run(job, es).log;
    assert Singly(log, i, j) && OrderedAt(log, j);
    t :| 0 <= t < j && log[t] == Tested(log[j].call, log[j].p);
    assert LawfulAt(job.data, log, t);
    NotBookedBefore(log, t, i, log[j].p);
  }

  lemma NotBookedBefore(log: seq<Fact>, t: nat, i: nat, p: Prepared)
    requires t < |log| && i < |log| && log[i].Booked? && log[t].Tested? && !BookedRoute(log, t, Route(p)) && Route(log[i].p) == Route(p)
    ensures t < i
  {
  }

  /** So is a link or a second finalisation booked after a finalisation. */
  lemma LateLinkWasInFlight(job: Job, es: seq<Event>, i: nat, j: nat) returns (t: nat)
    requires var log := Run(job, es).log;
      i < j < |log| && log[i].Booked? && log[j].Booked? && Finalising(log[i].p) && (Finalising(log[j].p) || Linking(log[j].p))
    ensures t < i && Run(job, es).log[t] == Tested(Run(job, es).log[j].call, Run(job, es).log[j].p)
  {
    hide Run; hide Stands; hide CallsStand;
    RunKeeps(job, es);
    var log := Run(job, es).log;
    assert OrderedAt(log, j);
    t :| 0 <= t < j && log[t] == Tested(log[j].call, log[j].p);
    assert LawfulAt(job.data, log, t);
    NotFinalBefore(log, t, i);
  }

  lemma NotFinalBefore(log: seq<Fact>, t: nat, i: nat)
    requires t < |log| && i < |log| && log[i].Booked? && log[t].Tested? && !BookedFinal(log, t) && Finalising(log[i].p)
    ensures t < i
  {
  }

  // ---- When one method and path can be accepted twice -------------------------------------------------

  ghost predicate Accepted(g: Gate, k: (Verb, Path), c: nat) {
    exists i :: 0 <= i < |g.log| && g.log[i].Allowed? && g.log[i].call == c && Route(g.log[i].p) == k
  }

  ghost predicate InFlight(g: Gate, k: (Verb, Path), c: nat) {
    c in g.calls && g.calls[c].Writing? && Route(g.calls[c].p) == k
  }

  ghost predicate Live(g: Gate, k: (Verb, Path), c: nat) {
    InFlight(g, k, c) || Accepted(g, k, c)
  }

  ghost predicate TwoLive(g: Gate, k: (Verb, Path)) {
    exists a, b :: a != b && Live(g, k, a) && Live(g, k, b)
  }

  /** A replay: the adapter was told twice to send the same method and path. */
  ghost predicate Replayed(g: Gate, k: (Verb, Path)) {
    exists i, j :: 0 <= i < j < |g.log| && g.log[i].Allowed? && g.log[j].Allowed? && Route(g.log[i].p) == k && Route(g.log[j].p) == k
  }

  /** No further callback begins. */
  predicate Settling(es: seq<Event>) {
    forall i | 0 <= i < |es| :: es[i].Continue? || es[i].Others?
  }

  ghost predicate MayReplay(g: Gate, job: Job, k: (Verb, Path)) {
    exists es :: Settling(es) && Replayed(From(g, job, es), k)
  }

  /** A write begins, and passes its tests, while a write of the same method and path is waiting for its control check. */
  ghost predicate Overlaps(g: Gate, job: Job, e: Event, k: (Verb, Path)) {
    e.Begin? && e.references && Admits(g.vars, job.data, e.p) && Route(e.p) == k
    && exists c :: InFlight(g, k, c) && g.calls[c].at.Checking?
  }

  lemma LogOnlyGrows(g: Gate, job: Job, e: Event)
    ensures |g.log| <= |Step(g, job, e).log| <= |g.log| + 1 && g.log == Step(g, job, e).log[..|g.log|]
  {
    hide Admits; hide LinksNew; hide Finalizes; hide Learn; hide BookAs;
  }

  lemma AcceptedStays(g: Gate, job: Job, e: Event, k: (Verb, Path), c: nat)
    requires Accepted(g, k, c)
    ensures Accepted(Step(g, job, e), k, c)
  {
    hide Step;
    LogOnlyGrows(g, job, e);
    var i :| 0 <= i < |g.log| && g.log[i].Allowed? && g.log[i].call == c && Route(g.log[i].p) == k;
    assert Step(g, job, e).log[i] == g.log[..|g.log|][i];
  }

  /** Only beginning brings a call to life. */
  lemma LiveShrinks(g: Gate, job: Job, e: Event, k: (Verb, Path), c: nat)
    requires Live(Step(g, job, e), k, c) && (e.Continue? || e.Others?)
    ensures Live(g, k, c)
  {
    hide Learn; hide BookAs; hide Expected;
    var h := Step(g, job, e);
    if Accepted(h, k, c) && !InFlight(h, k, c) {
      var i :| 0 <= i < |h.log| && h.log[i].Allowed? && h.log[i].call == c && Route(h.log[i].p) == k;
      LogOnlyGrows(g, job, e);
      if i < |g.log| {
        assert h.log[..|g.log|][i] == g.log[i];
      }
    }
  }

  lemma {:induction false} LiveShrinksOver(g: Gate, job: Job, es: seq<Event>, k: (Verb, Path), c: nat)
    requires Settling(es) && Live(From(g, job, es), k, c)
    ensures Live(g, k, c)
  {
    hide Live; hide Step;
    if es != [] {
      LiveShrinks(From(g, job, es[..|es| - 1]), job, es[|es| - 1], k, c);
      LiveShrinksOver(g, job, es[..|es| - 1], k, c);
    }
  }

  lemma ReplayIsTwoLive(g: Gate, job: Job, k: (Verb, Path))
    requires Inv(g, job) && Replayed(g, k)
    ensures TwoLive(g, k)
  {
    hide Stands; hide CallsStand; hide LawfulAt; hide OrderedAt;
    var i, j :| 0 <= i < j < |g.log| && g.log[i].Allowed? && g.log[j].Allowed? && Route(g.log[i].p) == k && Route(g.log[j].p) == k;
    assert Singly(g.log, i, j);
    assert Accepted(g, k, g.log[i].call) && Accepted(g, k, g.log[j].call);
    assert Live(g, k, g.log[i].call) && Live(g, k, g.log[j].call);
  }

  lemma TwoAcceptedIsReplay(g: Gate, k: (Verb, Path), a: nat, b: nat)
    requires a != b && Accepted(g, k, a) && Accepted(g, k, b)
    ensures Replayed(g, k)
  {
    var i :| 0 <= i < |g.log| && g.log[i].Allowed? && g.log[i].call == a && Route(g.log[i].p) == k;
    var j :| 0 <= j < |g.log| && g.log[j].Allowed? && g.log[j].call == b && Route(g.log[j].p) == k;
    if i > j {
      assert g.log[j].Allowed? && g.log[i].Allowed?;
    }
  }

  lemma {:induction false} FromKeeps(g: Gate, job: Job, es: seq<Event>)
    requires Inv(g, job)
    ensures Inv(From(g, job, es), job)
  {
    hide Inv; hide Step;
    if es != [] {
      FromKeeps(g, job, es[..|es| - 1]);
      NextKeeps(From(g, job, es[..|es| - 1]), job, es[|es| - 1]);
    }
  }

  lemma {:induction false} FromFrom(g: Gate, job: Job, es: seq<Event>, more: seq<Event>)
    ensures From(g, job, es + more) == From(From(g, job, es), job, more)
  {
    hide Step;
    if more == [] {
      assert es + more == es;
    } else {
      assert (es + more)[..|es + more| - 1] == es + more[..|more| - 1];
      FromFrom(g, job, es, more[..|more| - 1]);
    }
  }

  /** What remains for a call in flight, if every answer is the wanted one and the marker is let be. */
  function Through(g: Gate, job: Job, c: nat): seq<Event>
    requires c in g.calls && g.calls[c].Writing?
  {
    (match g.calls[c].at
     case Checking => [Others(Expected(g, job))] + [Continue(c, true)] + [Continue(c, true)] + [Continue(c, true)]
     case SavingReceipt => [Continue(c, true)] + [Continue(c, true)]
     case SavingMarker => [Continue(c, true)]
     case Saved => []) + [Continue(c, true)]
  }

  lemma SavedIsAccepted(g: Gate, job: Job, c: nat, k: (Verb, Path))
    requires InFlight(g, k, c) && g.calls[c].at.Saved?
    ensures var h := Step(g, job, Continue(c, true)); Accepted(h, k, c) && h.calls == g.calls - {c} && h.log == g.log + [Allowed(c, g.calls[c].p)]
  {
    var h := Step(g, job, Continue(c, true));
    assert h.log[|g.log|] == Allowed(c, g.calls[c].p);
  }

  lemma OtherStaysLive(g: Gate, h: Gate, k: (Verb, Path), b: nat)
    requires Live(g, k, b) && (b in g.calls ==> b in h.calls && h.calls[b] == g.calls[b])
    requires g.log <= h.log
    ensures Live(h, k, b)
  {
    if !InFlight(g, k, b) {
      var i :| 0 <= i < |g.log| && g.log[i].Allowed? && g.log[i].call == b && Route(g.log[i].p) == k;
      assert h.log[i] == g.log[i];
    }
  }

  lemma Ends(g: Gate, job: Job, c: nat, k: (Verb, Path), b: nat)
    requires InFlight(g, k, c) && b != c && Live(g, k, b)
    ensures Settling(Through(g, job, c))
    ensures var h := From(g, job, Through(g, job, c)); Accepted(h, k, c) && Live(h, k, b)
  {
    hide Accepted; hide Live; hide BookAs; hide Route;
    var es := Through(g, job, c);
    var last := From(g, job, es[..|es| - 1]);
    var h := From(g, job, es);
    BeforeEnd(g, job, c);
    assert InFlight(last, k, c);
    assert h == Step(last, job, Continue(c, true));
    SavedIsAccepted(last, job, c, k);
    assert g.log <= last.log <= h.log;
    OtherStaysLive(g, h, k, b);
  }

  function Next(at: Stage): Stage {
    match at
    case Checking => SavingReceipt
    case SavingReceipt => SavingMarker
    case _ => Saved
  }

  lemma One(g: Gate, job: Job, e: Event)
    ensures From(g, job, [e]) == Step(g, job, e)
  {
    assert [e][..0] == [];
  }

  /** One answer takes a call to its next stage, after more events. */
  lemma Advances(g: Gate, job: Job, c: nat, es: seq<Event>)
    requires c in From(g, job, es).calls && From(g, job, es).calls[c].Writing? && !From(g, job, es).calls[c].at.Saved?
    requires From(g, job, es).calls[c].at.Checking? ==> From(g, job, es).disk == Expected(From(g, job, es), job)
    ensures var h, n := From(g, job, es), From(g, job, es + [Continue(c, true)]);
            n.calls == h.calls[c := h.calls[c].(at := Next(h.calls[c].at))] && h.log <= n.log
  {
    hide BookAs; hide From;
    FromFrom(g, job, es, [Continue(c, true)]);
    One(From(g, job, es), job, Continue(c, true));
  }

  lemma BeforeEnd(g: Gate, job: Job, c: nat)
    requires c in g.calls && g.calls[c].Writing?
    ensures var es := Through(g, job, c); var last := From(g, job, es[..|es| - 1]);
      && es[|es| - 1] == Continue(c, true)
      && last.calls == g.calls[c := g.calls[c].(at := Saved)] && g.log <= last.log
  {
    hide From; hide Step;
    var es := Through(g, job, c);
    var begun := if g.calls[c].at.Checking? then [Others(Expected(g, job))] else [];
    Begins(g, job, Expected(g, job));
    Reaches(g, job, c, begun);
    assert es[..|es| - 1] == begun + Left(g.calls[c].at, c);
  }

  lemma Begins(g: Gate, job: Job, disk: Option<string>)
    ensures From(g, job, []) == g && From(g, job, [Others(disk)]) == g.(disk := disk)
  {
    One(g, job, Others(disk));
  }

  /** The answers a call wants before it is saved. */
  function Left(at: Stage, c: nat): seq<Event> {
    match at
    case Checking => [Continue(c, true)] + [Continue(c, true)] + [Continue(c, true)]
    case SavingReceipt => [Continue(c, true)] + [Continue(c, true)]
    case SavingMarker => [Continue(c, true)]
    case Saved => []
  }

  lemma Reaches(g: Gate, job: Job, c: nat, es: seq<Event>)
    requires c in From(g, job, es).calls && From(g, job, es).calls[c].Writing?
    requires From(g, job, es).calls[c].at.Checking? ==> From(g, job, es).disk == Expected(From(g, job, es), job)
    ensures var h := From(g, job, es);
            var n := From(g, job, es + Left(h.calls[c].at, c));
            n.calls == h.calls[c := h.calls[c].(at := Saved)] && h.log <= n.log
    decreases |Left(From(g, job, es).calls[c].at, c)|
  {
    hide From;
    var h := From(g, job, es);
    if h.calls[c].at.Saved? {
      assert es + Left(h.calls[c].at, c) == es;
    } else {
      Advances(g, job, c, es);
      var n := From(g, job, es + [Continue(c, true)]);
      Reaches(g, job, c, es + [Continue(c, true)]);
      assert es + [Continue(c, true)] + Left(Next(h.calls[c].at), c) == es + Left(h.calls[c].at, c);
    }
  }

  /** A call alive comes to be accepted, whatever else is alive. */
  lemma Completes(g: Gate, job: Job, k: (Verb, Path), c: nat, b: nat) returns (es: seq<Event>)
    requires Live(g, k, c) && Live(g, k, b) && b != c
    ensures Settling(es) && Accepted(From(g, job, es), k, c) && Live(From(g, job, es), k, b)
  {
    hide Accepted; hide Through;
    if Accepted(g, k, c) {
      es := [];
    } else {
      Ends(g, job, c, k, b);
      es := Through(g, job, c);
    }
  }

  lemma {:induction false} AcceptedStaysOver(g: Gate, job: Job, es: seq<Event>, k: (Verb, Path), c: nat)
    requires Accepted(g, k, c)
    ensures Accepted(From(g, job, es), k, c)
  {
    hide Accepted; hide Step;
    if es != [] {
      AcceptedStaysOver(g, job, es[..|es| - 1], k, c);
      AcceptedStays(From(g, job, es[..|es| - 1]), job, es[|es| - 1], k, c);
    }
  }

  lemma TwoLiveReplays(g: Gate, job: Job, k: (Verb, Path), a: nat, b: nat)
    requires a != b && Live(g, k, a) && Live(g, k, b)
    ensures MayReplay(g, job, k)
  {
    hide Live; hide Accepted; hide Replayed; hide From;
    var es := Completes(g, job, k, a, b);
    var g1 := From(g, job, es);
    AcceptedIsLive(g1, k, a);
    var more := Completes(g1, job, k, b, a);
    AcceptedStaysOver(g1, job, more, k, a);
    FromFrom(g, job, es, more);
    TwoAcceptedIsReplay(From(g1, job, more), k, a, b);
    assert Settling(es + more);
  }

  lemma AcceptedIsLive(g: Gate, k: (Verb, Path), c: nat)
    requires Accepted(g, k, c)
    ensures Live(g, k, c)
  {
  }

  /**
   * The exact condition, in any reachable state: with no further callback, one method and path can come to be
   * accepted twice if and only if two of its calls are in flight or accepted.
   */
  lemma MayReplayIffTwoLive(job: Job, es: seq<Event>, k: (Verb, Path))
    ensures MayReplay(Run(job, es), job, k) <==> TwoLive(Run(job, es), k)
  {
    hide Live; hide Replayed; hide From; hide Inv;
    var g := Run(job, es);
    RunKeeps(job, es);
    if TwoLive(g, k) {
      var a, b :| a != b && Live(g, k, a) && Live(g, k, b);
      TwoLiveReplays(g, job, k, a, b);
    }
    if MayReplay(g, job, k) {
      var more :| Settling(more) && Replayed(From(g, job, more), k);
      FromKeeps(g, job, more);
      ReplayIsTwoLive(From(g, job, more), job, k);
      var a, b :| a != b && Live(From(g, job, more), k, a) && Live(From(g, job, more), k, b);
      LiveShrinksOver(g, job, more, k, a);
      LiveShrinksOver(g, job, more, k, b);
    }
  }

  /** And two are alive, where there was at most one, exactly when a begun write overlaps one that is not booked yet. */
  lemma TwoLiveIffOverlap(job: Job, es: seq<Event>, e: Event, k: (Verb, Path))
    requires !TwoLive(Run(job, es), k)
    ensures TwoLive(Step(Run(job, es), job, e), k) <==> Overlaps(Run(job, es), job, e, k)
  {
    hide Live; hide Overlaps; hide Step;
    var g := Run(job, es);
    RunKeeps(job, es);
    if TwoLive(Step(g, job, e), k) {
      var a, b :| a != b && Live(Step(g, job, e), k, a) && Live(Step(g, job, e), k, b);
      SecondIsNew(g, job, e, k, a, b);
    }
    if Overlaps(g, job, e, k) {
      OverlapIsTwoLive(g, job, e, k);
    }
  }

  lemma NewCall(g: Gate, job: Job, e: Event, k: (Verb, Path), c: nat)
    requires Live(Step(g, job, e), k, c) && !Live(g, k, c)
    ensures e.Begin? && e.references && Admits(g.vars, job.data, e.p) && Route(e.p) == k && c == g.next
  {
    hide Admits; hide LinksNew; hide Finalizes; hide Accepted; hide Learn; hide BookAs;
    if e.Continue? || e.Others? {
      LiveShrinks(g, job, e, k, c);
    } else {
      if Accepted(Step(g, job, e), k, c) {
        SameAccepted(g, job, e, k, c);
      }
    }
  }

  lemma SameAccepted(g: Gate, job: Job, e: Event, k: (Verb, Path), c: nat)
    requires (e.Begin? || e.BeginEvidence?) && Accepted(Step(g, job, e), k, c)
    ensures Accepted(g, k, c)
  {
    hide Admits; hide LinksNew; hide Finalizes;
    var h := Step(g, job, e);
    var i :| 0 <= i < |h.log| && h.log[i].Allowed? && h.log[i].call == c && Route(h.log[i].p) == k;
    assert i < |g.log| && g.log[i] == h.log[i];
  }

  lemma AcceptedWasBooked(g: Gate, job: Job, k: (Verb, Path), c: nat)
    requires Inv(g, job) && Accepted(g, k, c)
    ensures BookedRoute(g.log, |g.log|, k)
  {
    hide LawfulAt; hide Singly; hide Stands; hide CallsStand;
    var i :| 0 <= i < |g.log| && g.log[i].Allowed? && g.log[i].call == c && Route(g.log[i].p) == k;
    assert OrderedAt(g.log, i);
    var m :| 0 <= m < i && g.log[m] == Marked(c, g.log[i].p);
    assert OrderedAt(g.log, m);
  }

  /** What is alive when a write of that path passes its tests is waiting for its control check. */
  lemma UnsentIsChecking(g: Gate, job: Job, p: Prepared, c: nat)
    requires Inv(g, job) && Admits(g.vars, job.data, p) && Live(g, Route(p), c)
    ensures InFlight(g, Route(p), c) && g.calls[c].at.Checking?
  {
    hide LawfulAt; hide Singly; hide Known; hide Shown; hide WasTested; hide Finalising;
    hide Creates; hide LinksNew; hide Finalizes; hide ChangesExisting; hide Unlinks;
    assert !BookedRoute(g.log, |g.log|, Route(p));
    if Accepted(g, Route(p), c) {
      AcceptedWasBooked(g, job, Route(p), c);
    } else {
      assert CallStands(g, c);
    }
  }

  lemma SecondIsNew(g: Gate, job: Job, e: Event, k: (Verb, Path), a: nat, b: nat)
    requires Inv(g, job) && !TwoLive(g, k) && a != b && Live(Step(g, job, e), k, a) && Live(Step(g, job, e), k, b)
    ensures Overlaps(g, job, e, k)
  {
    hide Inv; hide Live; hide Step; hide Admits; hide InFlight;
    if !Live(g, k, a) {
      NewCall(g, job, e, k, a);
      if !Live(g, k, b) {
        NewCall(g, job, e, k, b);
      } else {
        UnsentIsChecking(g, job, e.p, b);
      }
    } else {
      NewCall(g, job, e, k, b);
      UnsentIsChecking(g, job, e.p, a);
    }
  }

  lemma OverlapIsTwoLive(g: Gate, job: Job, e: Event, k: (Verb, Path))
    requires Inv(g, job) && Overlaps(g, job, e, k)
    ensures TwoLive(Step(g, job, e), k)
  {
    hide Admits; hide LinksNew; hide Finalizes; hide LogKeeps; hide Stands; hide Accepted;
    var c :| InFlight(g, k, c) && g.calls[c].at.Checking?;
    assert CallStands(g, c);
    var h := Step(g, job, e);
    assert InFlight(h, k, c) && InFlight(h, k, g.next);
    assert Live(h, k, c) && Live(h, k, g.next);
  }

  /** Over whole runs: no overlap, no replay. */
  lemma {:induction false} ReplayNeedsOverlap(job: Job, es: seq<Event>, k: (Verb, Path))
    requires forall n | 0 <= n < |es| :: !Overlaps(Run(job, es[..n]), job, es[n], k)
    ensures !TwoLive(Run(job, es), k) && !Replayed(Run(job, es), k)
  {
    hide Overlaps; hide TwoLive; hide Replayed; hide Step; hide Inv;
    if es == [] {
      NothingIsLive(k);
    } else {
      var most := es[..|es| - 1];
      forall n | 0 <= n < |most|
        ensures !Overlaps(Run(job, most[..n]), job, most[n], k)
      {
        assert most[..n] == es[..n] && most[n] == es[n];
      }
      ReplayNeedsOverlap(job, most, k);
      assert !Overlaps(Run(job, most), job, es[|es| - 1], k);
      TwoLiveIffOverlap(job, most, es[|es| - 1], k);
    }
    RunKeeps(job, es);
    if Replayed(Run(job, es), k) {
      ReplayIsTwoLive(Run(job, es), job, k);
    }
  }

  lemma NothingIsLive(k: (Verb, Path))
    ensures !TwoLive(START, k) && !Replayed(START, k)
  {
  }

  /** A caller that begins nothing while a callback is in flight never replays. */
  lemma SerialCallerNeverReplays(job: Job, es: seq<Event>, k: (Verb, Path))
    requires forall n | 0 <= n < |es| && es[n].Begin? :: Run(job, es[..n]).calls == map[]
    ensures !Replayed(Run(job, es), k)
  {
    hide Run; hide Admits; hide Replayed; hide TwoLive;
    ReplayNeedsOverlap(job, es, k);
  }

  // ---- What the gate does not prevent ----------------------------------------------------------------

  /** What a write's callback needs after its control check. */
  function Rest(c: nat): seq<Event> {
    [Continue(c, true)] + [Continue(c, true)] + [Continue(c, true)]
  }

  /** Two copies of one write, begun before either is booked. */
  function Twice(p: Prepared): seq<Event> {
    [Begin(p, true)] + [Begin(p, true)] + [Continue(0, true)] + [Continue(1, true)] + Rest(0) + Rest(1)
  }

  /** From the first state any creation can be accepted twice: nobody interferes, and every answer is the wanted one. */
  lemma CreationIsReplayed(job: Job, p: Prepared)
    requires Creates(INITIAL, job.data, p)
    ensures var log := Run(job, Twice(p)).log;
      && log == [Tested(0, p), Tested(1, p), Booked(0, p), Booked(1, p)] + [Marked(0, p), Allowed(0, p)] + [Marked(1, p), Allowed(1, p)]
      && Replayed(Run(job, Twice(p)), Route(p))
  {
    hide From;
    var begun := [Begin(p, true)] + [Begin(p, true)];
    var booked := begun + [Continue(0, true)] + [Continue(1, true)];
    BothBegin(job, p);
    FromFrom(START, job, begun, [Continue(0, true)]);
    FromFrom(START, job, begun + [Continue(0, true)], [Continue(1, true)]);
    One(Run(job, begun), job, Continue(0, true));
    One(Run(job, begun + [Continue(0, true)]), job, Continue(1, true));
    Books(Run(job, begun), job, 0, p);
    Books(Run(job, begun + [Continue(0, true)]), job, 1, p);
    FromFrom(START, job, booked, Rest(0));
    FromFrom(START, job, booked + Rest(0), Rest(1));
    Passes(Run(job, booked), job, 0, p);
    Passes(Run(job, booked + Rest(0)), job, 1, p);
    var g := Run(job, Twice(p));
    assert g.log == [Tested(0, p), Tested(1, p), Booked(0, p), Booked(1, p)] + [Marked(0, p), Allowed(0, p)] + [Marked(1, p), Allowed(1, p)];
    assert g.log[5] == Allowed(0, p) && g.log[7] == Allowed(1, p);
  }

  lemma BothBegin(job: Job, p: Prepared)
    requires Creates(INITIAL, job.data, p)
    ensures var call := Writing(p, false, false, Checking);
            Run(job, [Begin(p, true)] + [Begin(p, true)]) == Gate(INITIAL, None, map[0 := call, 1 := call], 2, [Tested(0, p), Tested(1, p)])
  {
    hide From; hide Creates;
    assert Creates(INITIAL, job.data, p);
    FromFrom(START, job, [Begin(p, true)], [Begin(p, true)]);
    One(START, job, Begin(p, true));
    One(From(START, job, [Begin(p, true)]), job, Begin(p, true));
  }

  /** The control check of an unmarked run passes. */
  lemma Books(g: Gate, job: Job, c: nat, p: Prepared)
    requires c in g.calls && g.calls[c] == Writing(p, false, false, Checking) && g.disk == Expected(g, job)
    ensures var h := Step(g, job, Continue(c, true));
      && h.calls == g.calls[c := Writing(p, false, false, SavingReceipt)] && h.log == g.log + [Booked(c, p)]
      && h.disk == g.disk && h.vars.dispatched == g.vars.dispatched
  {
  }

  lemma Passes(g: Gate, job: Job, c: nat, p: Prepared)
    requires c in g.calls && g.calls[c].Writing? && g.calls[c].p == p && g.calls[c].at.SavingReceipt?
    ensures var h := From(g, job, Rest(c));
      && h.log == g.log + [Marked(c, p), Allowed(c, p)] && h.calls == g.calls - {c} && h.next == g.next
      && h.vars == g.vars.(dispatched := true) && h.disk == Some(job.receipt)
  {
    hide From;
    var e := Continue(c, true);
    FromFrom(g, job, [e], [e]);
    FromFrom(g, job, [e] + [e], [e]);
    One(g, job, e);
    var g1 := Step(g, job, e);
    One(g1, job, e);
    var g2 := Step(g1, job, e);
    One(g2, job, e);
    assert g2.log == g.log + [Marked(c, p)];
  }

  /**
   * In every reachable state the PUT that switches off a discount of the named code passes the tests exactly when no
   * PUT to that discount was booked, whoever created the discount and whatever the command asked for.
   */
  lemma SwitchOffIsTestedIffUnbooked(job: Job, es: seq<Event>, existing: Row, id: string, body: Row)
    requires job.data.discountId.None? && Resembles(job.data, existing, id)
    ensures var g := Run(job, es);
            var off := SwitchOff(existing, id, body);
            Step(g, job, Begin(off, true)).log == g.log + [Tested(g.next, off)]
            <==> forall i | 0 <= i < |g.log| && g.log[i].Booked? :: Route(g.log[i].p) != (Put, Discount(id))
  {
    hide Run; hide Resembles; hide Admits; hide LogKeeps; hide CallsStand; hide Known; hide Shown; hide LinksNew; hide Finalizes;
    RunKeeps(job, es);
    var g := Run(job, es);
    SwitchOffIsAdmittedIffUnsent(g.vars, job.data, existing, id, body);
    assert (Put, Discount(id)) in g.vars.sentPaths <==> BookedRoute(g.log, |g.log|, (Put, Discount(id)));
  }
}
