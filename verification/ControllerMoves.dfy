// The elementary state changes the controller's segments are made of, each with the lemma that it keeps `Inv`.
module ControllerMoves {
  import opened Wrappers
  import opened ControllerState

  function WithJob(s: State, j: Id, job: Job): State {
    s.(jobs := s.jobs[j := job])
  }

  function WithThread(s: State, t: Id, th: Thread): State {
    s.(threads := s.threads[t := th])
  }

  function Note(s: State, e: Entry): State {
    s.(log := s.log + [e])
  }

  /** The thread's `finally { busy = false; }`. */
  function End(s: State, t: Id): State {
    s.(threads := s.threads - {t}, busy := false)
  }

  /** A handler that held no flag returns. */
  function Drop(s: State, t: Id): State {
    s.(threads := s.threads - {t})
  }

  /** Clear's `finally { resetting = false; }`. */
  function EndClear(s: State, t: Id): State {
    s.(threads := s.threads - {t}, resetting := false)
  }

  function RaiseEpoch(s: State): State {
    Note(s.(epoch := s.epoch + 1), Bump)
  }

  function Close(s: State): State {
    Note(s.(closing := true), Closed)
  }

  /** The thread under the number `t` suspends for the first time. */
  function Install(s: State, t: Id, th: Thread): State {
    s.(threads := s.threads[t := th], busy := s.busy || th.Holder(), resetting := s.resetting || th.Clear?)
  }

  /** A new thread under a fresh number. */
  function Spawn(s: State, th: Thread): State {
    Install(s.(next := s.next + 1), s.next, th)
  }

  function Reserve(s: State): State {
    Note(s.(next := s.next + 1), Begun(s.next))
  }

  /** A new thread that has captured the epoch. */
  function SpawnTimed(s: State, th: Thread): State {
    Install(Reserve(s), s.next, th)
  }

  lemma StillExclusive(threads: map<Id, Thread>, t: Id, th: Thread, busy: bool, resetting: bool, wedged: bool)
    requires Exclusive(threads, busy, resetting, wedged) && t in threads
    requires th.Holder() == threads[t].Holder() && th.Clear? == threads[t].Clear?
    ensures Exclusive(threads[t := th], busy, resetting, wedged)
  {
    if busy && !wedged {
      var u :| u in threads && threads[u].Holder();
      assert u in threads[t := th] && threads[t := th][u].Holder();
    }
    if resetting {
      var u :| u in threads && threads[u].Clear?;
      assert u in threads[t := th] && threads[t := th][u].Clear?;
    }
  }

  lemma ThreadKeeps(s: State, t: Id, th: Thread)
    requires Inv(s) && t in s.threads
    requires th.Holder() == s.threads[t].Holder() && th.Clear? == s.threads[t].Clear?
    requires JobKnown(WithThread(s, t, th), t) && ThreadOk(WithThread(s, t, th), t)
    ensures Inv(WithThread(s, t, th))
  {
    hide Bumps; hide Lawful; hide EpochOk; hide Exclusive;
    var r := WithThread(s, t, th);
    StillExclusive(s.threads, t, th, s.busy, s.resetting, Wedged in s.log);
    forall u | u in r.threads
      ensures JobKnown(r, u) && ThreadOk(r, u)
    {
      if u != t {
        assert JobKnown(s, u) && ThreadOk(s, u);
      }
    }
    forall j | j in r.jobs
      ensures JobOk(r, j)
    {
      assert JobOk(s, j);
    }
  }

  lemma JobKeeps(s: State, j: Id, job: Job)
    requires Inv(s) && j in s.jobs && JobOk(WithJob(s, j, job), j)
    requires job.Stops() == s.jobs[j].Stops() && job.rpc == s.jobs[j].rpc
    requires job.status == Uploaded ==> s.jobs[j].status == Uploaded
    requires job.owner == Agent ==> s.jobs[j].owner == Agent
    requires Given(s, j) ==> Given(WithJob(s, j, job), j)
    ensures Inv(WithJob(s, j, job))
  {
    hide Bumps; hide Lawful; hide EpochOk; hide Exclusive; hide ThreadOk; hide JobOk; hide Given;
    var r := WithJob(s, j, job);
    forall u | u in r.threads
      ensures JobKnown(r, u) && ThreadOk(r, u)
    {
      ThreadBesideJob(s, j, job, u);
    }
    forall k | k in r.jobs
      ensures JobOk(r, k)
    {
      if k != j {
        JobBesideJob(s, j, job, k);
      }
    }
  }

  lemma ThreadBesideJob(s: State, j: Id, job: Job, u: Id)
    requires u in s.threads && JobKnown(s, u) && ThreadOk(s, u) && j in s.jobs
    requires job.Stops() == s.jobs[j].Stops() && job.rpc == s.jobs[j].rpc
    requires job.status == Uploaded ==> s.jobs[j].status == Uploaded
    requires job.owner == Agent ==> s.jobs[j].owner == Agent
    requires Given(s, j) ==> Given(WithJob(s, j, job), j)
    ensures JobKnown(WithJob(s, j, job), u) && ThreadOk(WithJob(s, j, job), u)
  {
    hide Bumps; hide EpochOk;
  }

  lemma JobBesideJob(s: State, j: Id, job: Job, k: Id)
    requires k in s.jobs && k != j && JobOk(s, k)
    ensures JobOk(WithJob(s, j, job), k)
  {
  }

  /** A change of a job's record that the invariant does not mind. */
  predicate MayEdit(s: State, j: Id, job: Job) {
    && j in s.jobs && job.Stops() == s.jobs[j].Stops() && job.rpc == s.jobs[j].rpc && job.context == s.jobs[j].context
    && (job.stopper == Complete ==> s.jobs[j].stopper == Complete)
    && (job.owner == Agent ==> s.jobs[j].owner == Agent) && (job.status == Uploaded ==> s.jobs[j].status == Uploaded)
    && (job.waiting != Nobody ==> s.jobs[j].waiting != Nobody || (job.owner != Agent && !Holds(s.current, j)))
  }

  lemma EditKeeps(s: State, j: Id, job: Job)
    requires Inv(s) && MayEdit(s, j, job)
    ensures Inv(WithJob(s, j, job))
  {
    assert JobOk(s, j);
    hide Inv; hide ThreadOk;
    JobKeeps(s, j, job);
  }

  /** The shared file changes owner, without coming into the agent's hands. */
  lemma CurrentKeeps(s: State, file: Runtime)
    requires Inv(s) && file.browser == s.current.browser && (file.owner == Agent ==> s.current.owner == Agent)
    ensures Inv(s.(current := file))
  {
    hide Bumps; hide Lawful; hide EpochOk; hide Exclusive;
    var r := s.(current := file);
    forall u | u in r.threads
      ensures JobKnown(r, u) && ThreadOk(r, u)
    {
      assert JobKnown(s, u) && ThreadOk(s, u);
    }
    forall k | k in r.jobs
      ensures JobOk(r, k)
    {
      assert JobOk(s, k);
    }
  }

  /** Entries no invariant but `Lawful` speaks of. */
  predicate Plain(e: Entry) {
    e.Granted? || e.Steered? || e.Prompted? || e.Saved? || e.Committed? || e.ClearCommitted?
  }

  lemma ThreadNote(s: State, u: Id, e: Entry)
    requires u in s.threads && JobKnown(s, u) && ThreadOk(s, u)
    requires e != Begun(u) && !e.FirstPrompt? && e != Bump
    ensures JobKnown(Note(s, e), u) && ThreadOk(Note(s, e), u)
  {
    hide EpochOk; hide Bumps;
    if s.threads[u].Handoff? || s.threads[u].Upload? || s.threads[u].Save? {
      EpochAppend(s.log, u, s.threads[u].epoch, e);
    }
  }

  lemma ThreadsNote(s: State, e: Entry)
    requires Inv(s) && !e.Begun? && !e.FirstPrompt? && e != Bump
    ensures forall u <- s.threads :: JobKnown(Note(s, e), u) && ThreadOk(Note(s, e), u)
  {
    forall u | u in s.threads
      ensures JobKnown(Note(s, e), u) && ThreadOk(Note(s, e), u)
    {
      assert JobKnown(s, u) && ThreadOk(s, u);
      hide *;
      ThreadNote(s, u, e);
    }
  }

  lemma NoteKeeps(s: State, e: Entry)
    requires Inv(s) && Plain(e) && Allowed(s.log, e)
    ensures Inv(Note(s, e))
  {
    hide Bumps; hide Lawful; hide Exclusive; hide ThreadOk; hide Allowed;
    LawfulAppend(s.log, e);
    ThreadsNote(s, e);
    BumpsAppend(s.log, e);
    var r := Note(s, e);
    forall k | k in r.jobs
      ensures JobOk(r, k)
    {
      assert JobOk(s, k);
    }
  }

  /** A stop has revoked one of the two runtime files. */
  lemma SecuredKeeps(s: State, j: Id, shared: bool)
    requires Inv(s) && j in s.jobs && s.jobs[j].Stops() && (if shared then !Holds(s.current, j) else s.jobs[j].owner != Agent)
    ensures Inv(Note(s, Secured(j, shared)))
  {
    hide Bumps; hide Lawful; hide Exclusive; hide ThreadOk;
    LawfulAppend(s.log, Secured(j, shared));
    ThreadsNote(s, Secured(j, shared));
    BumpsAppend(s.log, Secured(j, shared));
    var r := Note(s, Secured(j, shared));
    forall k | k in r.jobs
      ensures JobOk(r, k)
    {
      assert JobOk(s, k);
    }
  }

  function MarkStopping(s: State, j: Id, stopper: Stopper): State
    requires j in s.jobs
  {
    Note(WithJob(s, j, s.jobs[j].(stopper := stopper)), StopBegan(j))
  }

  lemma MarkedJobOk(s: State, j: Id, stopper: Stopper, k: Id)
    requires Inv(s) && j in s.jobs && k in s.jobs && !s.jobs[j].Stops() && s.jobs[j].status != Uploaded
    requires stopper != NotStopping && stopper != Complete
    ensures JobOk(MarkStopping(s, j, stopper), k)
  {
    hide Lawful; hide Exclusive; hide ThreadOk; hide Referenced; hide Consistent;
    assert JobOk(s, k);
  }

  lemma MarkedThreadOk(s: State, j: Id, stopper: Stopper, u: Id)
    requires Inv(s) && j in s.jobs && !s.jobs[j].Stops() && stopper != NotStopping && u in s.threads
    ensures JobKnown(MarkStopping(s, j, stopper), u) && ThreadOk(MarkStopping(s, j, stopper), u)
  {
    hide Lawful; hide Exclusive; hide JobOk; hide EpochOk;
    var n := Note(s, StopBegan(j));
    ThreadsNote(s, StopBegan(j));
    assert JobKnown(n, u) && ThreadOk(n, u);
  }

  lemma MarkStoppingKeeps(s: State, j: Id, stopper: Stopper)
    requires Inv(s) && j in s.jobs && !s.jobs[j].Stops() && s.jobs[j].status != Uploaded
    requires stopper != NotStopping && stopper != Complete
    ensures Inv(MarkStopping(s, j, stopper))
  {
    hide Lawful; hide Exclusive; hide ThreadOk; hide JobOk;
    LawfulAppend(s.log, StopBegan(j));
    BumpsAppend(s.log, StopBegan(j));
    var r := MarkStopping(s, j, stopper);
    forall u | u in r.threads
      ensures JobKnown(r, u) && ThreadOk(r, u)
    {
      MarkedThreadOk(s, j, stopper, u);
    }
    forall k | k in r.jobs
      ensures JobOk(r, k)
    {
      MarkedJobOk(s, j, stopper, k);
    }
  }

  /** After a bump, every captured epoch is an old one. */
  lemma RaiseEpochKeeps(s: State)
    requires Inv(s)
    ensures Inv(RaiseEpoch(s))
    ensures forall u <- s.threads :: s.threads[u].Upload? || s.threads[u].Save? ==> s.threads[u].epoch < s.epoch + 1
  {
    hide Bumps; hide Lawful; hide Exclusive;
    LawfulAppend(s.log, Bump);
    BumpsAppend(s.log, Bump);
    var r := RaiseEpoch(s);
    forall u | u in r.threads
      ensures JobKnown(r, u) && ThreadOk(r, u)
      ensures s.threads[u].Upload? || s.threads[u].Save? ==> s.threads[u].epoch < s.epoch + 1
    {
      assert JobKnown(s, u) && ThreadOk(s, u);
      if s.threads[u].Handoff? || s.threads[u].Upload? || s.threads[u].Save? {
        EpochAppend(s.log, u, s.threads[u].epoch, Bump);
      }
    }
    forall k | k in r.jobs
      ensures JobOk(r, k)
    {
      assert JobOk(s, k);
    }
  }

  lemma CloseKeeps(s: State)
    requires Inv(s)
    ensures Inv(Close(s))
  {
    hide Bumps; hide Lawful; hide Exclusive; hide EpochOk;
    LawfulAppend(s.log, Closed);
    ThreadsNote(s, Closed);
    BumpsAppend(s.log, Closed);
    var r := Close(s);
    forall u | u in r.threads
      ensures JobKnown(r, u) && ThreadOk(r, u)
    {
      assert JobKnown(Note(s, Closed), u) && ThreadOk(Note(s, Closed), u);
    }
    forall k | k in r.jobs
      ensures JobOk(r, k)
    {
      assert JobOk(s, k);
    }
  }

  lemma SpawnExclusive(threads: map<Id, Thread>, t: Id, th: Thread, busy: bool, resetting: bool, wedged: bool)
    requires Exclusive(threads, busy, resetting, wedged) && t !in threads
    requires th.Holder() ==> !busy
    requires th.Clear? ==> !resetting
    ensures Exclusive(threads[t := th], busy || th.Holder(), resetting || th.Clear?, wedged)
  {
    var r := threads[t := th];
    assert r[t] == th;
    if busy && !wedged {
      var u :| u in threads && threads[u].Holder();
      assert u in r && r[u].Holder();
    }
    if resetting {
      var u :| u in threads && threads[u].Clear?;
      assert u in r && r[u].Clear?;
    }
  }

  lemma InstallKeeps(s: State, t: Id, th: Thread)
    requires Inv(s) && t !in s.threads && t < s.next && (th.Holder() ==> !s.busy) && (th.Clear? ==> !s.resetting)
    requires th.Clear? ==> forall u <- s.threads :: s.threads[u].Upload? || s.threads[u].Save? ==> s.threads[u].epoch < s.epoch
    requires JobKnown(Install(s, t, th), t) && ThreadOk(Install(s, t, th), t)
    ensures Inv(Install(s, t, th))
  {
    hide Bumps; hide Lawful; hide EpochOk; hide Exclusive;
    var r := Install(s, t, th);
    SpawnExclusive(s.threads, t, th, s.busy, s.resetting, Wedged in s.log);
    forall u | u in r.threads
      ensures JobKnown(r, u) && ThreadOk(r, u)
    {
      if u != t {
        assert JobKnown(s, u) && ThreadOk(s, u);
      }
    }
    forall k | k in r.jobs
      ensures JobOk(r, k)
    {
      assert JobOk(s, k);
    }
  }

  lemma AdvanceKeeps(s: State)
    requires Inv(s)
    ensures Inv(s.(next := s.next + 1))
  {
    hide Lawful; hide EpochOk; hide Exclusive;
    var r := s.(next := s.next + 1);
    forall u | u in r.threads
      ensures JobKnown(r, u) && ThreadOk(r, u)
    {
      assert JobKnown(s, u) && ThreadOk(s, u);
    }
    forall k | k in r.jobs
      ensures JobOk(r, k)
    {
      assert JobOk(s, k);
    }
  }

  lemma SpawnKeeps(s: State, th: Thread)
    requires Inv(s) && (th.Holder() ==> !s.busy) && (th.Clear? ==> !s.resetting)
    requires th.Clear? ==> forall u <- s.threads :: s.threads[u].Upload? || s.threads[u].Save? ==> s.threads[u].epoch < s.epoch
    requires JobKnown(Spawn(s, th), s.next) && ThreadOk(Spawn(s, th), s.next)
    ensures Inv(Spawn(s, th))
  {
    hide Lawful; hide EpochOk; hide Exclusive; hide ThreadOk; hide JobOk;
    assert s.next !in s.threads;
    AdvanceKeeps(s);
    InstallKeeps(s.(next := s.next + 1), s.next, th);
  }

  /** What a thread that captures the epoch needs when it begins, besides the epoch itself. */
  predicate MayBegin(s: State, th: Thread) {
    match th
    case Handoff(j, epoch, again, at, seen, _) =>
      j in s.jobs && epoch == s.epoch && Only(s, j) && s.jobs[j].status != Uploaded && HandoffOk(s, j, again, at, seen)
    case Upload(epoch) => epoch == s.epoch && s.active.None? && !s.resetting
    case Save(epoch, _, _) => epoch == s.epoch && s.active.None? && !s.resetting
    case _ => false
  }

  lemma BegunNow(log: seq<Entry>, t: Id)
    requires Begun(t) !in log
    ensures EpochOk(log + [Begun(t)], t, Bumps(log))
  {
    var longer := log + [Begun(t)];
    BumpsAppend(log, Begun(t));
    assert longer[|log|] == Begun(t);
    forall i | 0 <= i < |longer| && longer[i] == Begun(t)
      ensures Bumps(longer[..i]) == Bumps(log)
    {
      assert longer[..i] == log;
    }
  }

  lemma ReserveKeeps(s: State)
    requires Inv(s)
    ensures Inv(Reserve(s)) && EpochOk(Reserve(s).log, s.next, s.epoch)
  {
    hide Lawful; hide EpochOk; hide Exclusive; hide ThreadOk; hide JobOk; hide JobKnown; hide Consistent;
    var n := s.(next := s.next + 1);
    AdvanceKeeps(s);
    ReservedConsistent(s);
    var r := Reserve(s);
    forall u | u in r.threads
      ensures JobKnown(r, u) && ThreadOk(r, u)
    {
      ThreadNote(n, u, Begun(s.next));
    }
    forall k | k in r.jobs
      ensures JobOk(r, k)
    {
      ReservedJobOk(n, k, Begun(s.next));
    }
  }

  lemma ReservedConsistent(s: State)
    requires Consistent(s) && Lawful(s.log)
    ensures Consistent(Reserve(s)) && Lawful(Reserve(s).log) && (Wedged in Reserve(s).log <==> Wedged in s.log)
    ensures EpochOk(Reserve(s).log, s.next, s.epoch) && forall u <- s.threads :: u != s.next
  {
    hide Lawful; hide EpochOk; hide Bumps; hide Allowed; hide Older;
    var e := Begun(s.next);
    LawfulAppend(s.log, e) by {
      BegunAllowed(s.log, s.next);
    }
    BumpsAppend(s.log, e);
    BegunNow(s.log, s.next) by {
      NotBegun(s);
    }
    forall f | f in Reserve(s).log
      ensures Older(f, s.next + 1)
    {
      BegunAllowed(s.log, s.next);
      OlderStill(f, s.next, if f == e then s.next + 1 else s.next);
    }
  }

  lemma BegunAllowed(past: seq<Entry>, t: Id)
    ensures Allowed(past, Begun(t)) && Older(Begun(t), t + 1)
  {
  }

  lemma OlderStill(e: Entry, next: Id, before: Id)
    requires Older(e, before) && before <= next + 1
    ensures Older(e, next + 1)
  {
  }

  lemma NotBegun(s: State)
    requires Consistent(s)
    ensures Begun(s.next) !in s.log
  {
    hide Bumps;
  }

  lemma ReservedJobOk(s: State, k: Id, e: Entry)
    requires k in s.jobs && JobOk(s, k) && e.Begun?
    ensures JobOk(Note(s, e), k)
  {
  }

  lemma SpawnTimedKeeps(s: State, th: Thread)
    requires Inv(s) && MayBegin(s, th) && !s.busy
    ensures Inv(SpawnTimed(s, th))
  {
    hide Bumps; hide Lawful; hide EpochOk; hide Exclusive; hide JobOk;
    var n := Reserve(s);
    ReserveKeeps(s);
    assert s.next !in s.threads;
    assert JobKnown(Install(n, s.next, th), s.next) && ThreadOk(Install(n, s.next, th), s.next) by {
      BeginsOk(s, n, th);
    }
    InstallKeeps(n, s.next, th);
  }

  lemma BeginsOk(s: State, n: State, th: Thread)
    requires MayBegin(s, th) && n == Reserve(s) && EpochOk(n.log, s.next, s.epoch)
    ensures JobKnown(Install(n, s.next, th), s.next) && ThreadOk(Install(n, s.next, th), s.next)
    ensures th.Holder() && !th.Clear?
  {
    hide EpochOk;
  }

  lemma EndExclusive(threads: map<Id, Thread>, t: Id, busy: bool, resetting: bool, wedged: bool)
    requires Exclusive(threads, busy, resetting, wedged) && t in threads
    ensures threads[t].Holder() ==> Exclusive(threads - {t}, false, resetting, wedged)
    ensures threads[t].Clear? ==> Exclusive(threads - {t}, busy, false, wedged)
    ensures !threads[t].Holder() && !threads[t].Clear? ==> Exclusive(threads - {t}, busy, resetting, wedged)
  {
    var r := threads - {t};
    if busy && !wedged && !threads[t].Holder() {
      var u :| u in threads && threads[u].Holder();
      assert u in r && r[u].Holder();
    }
    if resetting && !threads[t].Clear? {
      var u :| u in threads && threads[u].Clear?;
      assert u in r && r[u].Clear?;
    }
  }

  lemma EndKeeps(s: State, t: Id)
    requires Inv(s) && t in s.threads && s.threads[t].Holder()
    requires s.active.Some? ==> HandsOff(s, s.active.value)
    ensures Inv(End(s, t))
  {
    hide Bumps; hide Lawful; hide EpochOk; hide Exclusive; hide ThreadOk; hide JobOk;
    var r := End(s, t);
    EndExclusive(s.threads, t, s.busy, s.resetting, Wedged in s.log);
    forall u | u in r.threads
      ensures JobKnown(r, u) && ThreadOk(r, u)
    {
      ThreadBesideEnd(s, t, u);
    }
    forall k | k in r.jobs
      ensures JobOk(r, k)
    {
      JobBesideEnd(s, t, k);
    }
  }

  lemma ThreadBesideEnd(s: State, t: Id, u: Id)
    requires u in s.threads && u != t && JobKnown(s, u) && ThreadOk(s, u)
    ensures JobKnown(End(s, t), u) && ThreadOk(End(s, t), u)
  {
    hide Bumps; hide EpochOk;
  }

  lemma JobBesideEnd(s: State, t: Id, k: Id)
    requires Referenced(s) && k in s.jobs && JobOk(s, k) && (s.active.Some? ==> HandsOff(s, s.active.value))
    ensures JobOk(End(s, t), k)
  {
    hide Bumps;
  }

  lemma DropKeeps(s: State, t: Id)
    requires Inv(s) && t in s.threads && !s.threads[t].Holder() && !s.threads[t].Clear?
    ensures Inv(Drop(s, t))
  {
    hide Bumps; hide Lawful; hide EpochOk; hide Exclusive;
    var r := Drop(s, t);
    EndExclusive(s.threads, t, s.busy, s.resetting, Wedged in s.log);
    forall u | u in r.threads
      ensures JobKnown(r, u) && ThreadOk(r, u)
    {
      assert JobKnown(s, u) && ThreadOk(s, u);
    }
    forall k | k in r.jobs
      ensures JobOk(r, k)
    {
      assert JobOk(s, k);
    }
  }

  lemma EndClearKeeps(s: State, t: Id)
    requires Inv(s) && t in s.threads && s.threads[t].Clear?
    ensures Inv(EndClear(s, t))
  {
    hide Bumps; hide Lawful; hide EpochOk; hide Exclusive;
    var r := EndClear(s, t);
    EndExclusive(s.threads, t, s.busy, s.resetting, Wedged in s.log);
    forall u | u in r.threads
      ensures JobKnown(r, u) && ThreadOk(r, u)
    {
      assert JobKnown(s, u) && ThreadOk(s, u);
    }
    forall k | k in r.jobs
      ensures JobOk(r, k)
    {
      assert JobOk(s, k);
    }
  }

  function Wedge(s: State): State {
    Note(s.(busy := true), Wedged)
  }

  lemma WedgeKeeps(s: State)
    requires Inv(s) && !s.busy
    ensures Inv(Wedge(s))
  {
    hide Bumps; hide Lawful; hide EpochOk;
    LawfulAppend(s.log, Wedged);
    ThreadsNote(s, Wedged);
    BumpsAppend(s.log, Wedged);
    var r := Wedge(s);
    forall u | u in r.threads
      ensures JobKnown(r, u) && ThreadOk(r, u)
    {
      assert JobKnown(Note(s, Wedged), u) && ThreadOk(Note(s, Wedged), u);
    }
    forall k | k in r.jobs
      ensures JobOk(r, k)
    {
      assert JobOk(s, k);
    }
  }

  /** POST /api/jobs: a new record and workspace, bound to the current generation. */
  function CreateJob(s: State, workbook: Option<Id>): State {
    var job := Job(Uploaded, Unstarted, Nobody, None, s.context.generation, false, false, false, NotStopping, User);
    var context := Context(s.context.generation, if workbook.Some? then workbook else s.context.workbook, Some(s.next));
    s.(jobs := s.jobs[s.next := job], next := s.next + 1, context := context)
  }

  lemma CreateJobKeeps(s: State, workbook: Option<Id>)
    requires Inv(s)
    ensures Inv(CreateJob(s, workbook))
  {
    hide Bumps; hide Lawful; hide EpochOk; hide Exclusive; hide ThreadOk; hide JobOk;
    var r := CreateJob(s, workbook);
    NewJobOk(s, workbook);
    forall u | u in r.threads
      ensures JobKnown(r, u) && ThreadOk(r, u)
    {
      ThreadBesideNew(s, workbook, u);
    }
    forall k | k in r.jobs
      ensures JobOk(r, k)
    {
      if k != s.next {
        JobBesideNew(s, workbook, k);
      }
    }
  }

  lemma NewJobOk(s: State, workbook: Option<Id>)
    requires Referenced(s) && Consistent(s)
    ensures s.next in CreateJob(s, workbook).jobs && JobOk(CreateJob(s, workbook), s.next)
  {
    hide Bumps;
    assert StopBegan(s.next) !in s.log && Secured(s.next, false) !in s.log && Secured(s.next, true) !in s.log && FirstPrompt(s.next) !in s.log;
  }

  lemma ThreadBesideNew(s: State, workbook: Option<Id>, u: Id)
    requires Consistent(s) && u in s.threads && JobKnown(s, u) && ThreadOk(s, u)
    ensures JobKnown(CreateJob(s, workbook), u) && ThreadOk(CreateJob(s, workbook), u)
  {
    hide Bumps; hide EpochOk;
  }

  lemma JobBesideNew(s: State, workbook: Option<Id>, k: Id)
    requires k in s.jobs && k != s.next && JobOk(s, k)
    ensures k in CreateJob(s, workbook).jobs && JobOk(CreateJob(s, workbook), k)
  {
  }

  /** A fresh generation replaces the saved context. */
  function Commit(s: State, workbook: Option<Id>, e: Entry): State {
    Note(s.(context := Context(Some(s.next), workbook, None), next := s.next + 1), e)
  }

  lemma GenerationKeeps(s: State, workbook: Option<Id>)
    requires Inv(s) && s.active.None?
    ensures Inv(s.(context := Context(Some(s.next), workbook, None), next := s.next + 1))
  {
    hide Bumps; hide Lawful; hide EpochOk; hide Exclusive;
    var r := s.(context := Context(Some(s.next), workbook, None), next := s.next + 1);
    forall u | u in r.threads
      ensures JobKnown(r, u) && ThreadOk(r, u)
    {
      assert JobKnown(s, u) && ThreadOk(s, u);
    }
    forall k | k in r.jobs
      ensures JobOk(r, k)
    {
      assert JobOk(s, k);
    }
  }

  lemma CommitKeeps(s: State, workbook: Option<Id>, e: Entry)
    requires Inv(s) && s.active.None? && Plain(e) && Allowed(s.log, e)
    ensures Inv(Commit(s, workbook, e))
  {
    hide Inv; hide Allowed; hide Plain;
    GenerationKeeps(s, workbook);
    NoteKeeps(s.(context := Context(Some(s.next), workbook, None), next := s.next + 1), e);
  }

  /** The job becomes the connection's live job. */
  function Activate(s: State, j: Id, job: Job): State {
    WithJob(s, j, job).(active := Some(j))
  }

  lemma SelectJobKeeps(s: State, j: Id)
    requires Inv(s)
    ensures Inv(s.(context := s.context.(job := Some(j))))
  {
    hide Bumps; hide Lawful; hide EpochOk; hide Exclusive;
    var r := s.(context := s.context.(job := Some(j)));
    forall u | u in r.threads
      ensures JobKnown(r, u) && ThreadOk(r, u)
    {
      assert JobKnown(s, u) && ThreadOk(s, u);
    }
    forall k | k in r.jobs
      ensures JobOk(r, k)
    {
      assert JobOk(s, k);
    }
  }

  lemma ActivateKeeps(s: State, j: Id, job: Job)
    requires Inv(s) && s.active.None? && !s.busy && !s.resetting && j in s.jobs && s.jobs[j].status == Uploaded
    requires s.jobs[j].context == s.context.generation
    requires job.status != Uploaded && job.waiting == Nobody && job.context == s.jobs[j].context
    requires !job.Stops() && !job.rpc && job.owner == s.jobs[j].owner
    ensures Inv(Activate(s, j, job))
  {
    hide Bumps; hide Lawful; hide EpochOk;
    var r := Activate(s, j, job);
    forall u | u in r.threads
      ensures JobKnown(r, u) && ThreadOk(r, u)
    {
      assert JobKnown(s, u) && ThreadOk(s, u);
    }
    forall k | k in r.jobs
      ensures JobOk(r, k)
    {
      assert JobOk(s, k) && JobOk(s, j);
    }
  }

  /** The end of the stopping promise. */
  function Finish(s: State, j: Id, job: Job): State {
    WithJob(s, j, job).(active := if s.active == Some(j) then None else s.active)
  }

  lemma FinishThreadOk(s: State, j: Id, job: Job, u: Id)
    requires j in s.jobs && s.jobs[j].Stops() && job.Stops() && u in s.threads && JobKnown(s, u) && ThreadOk(s, u)
    requires job.status != Uploaded && job.rpc == s.jobs[j].rpc && job.owner == s.jobs[j].owner && job.context == s.jobs[j].context
    ensures JobKnown(Finish(s, j, job), u) && ThreadOk(Finish(s, j, job), u)
  {
    hide EpochOk;
  }

  lemma FinishJobOk(s: State, j: Id, job: Job, k: Id)
    requires j in s.jobs && s.jobs[j].Stops() && job.Stops() && k in s.jobs && JobOk(s, k)
    requires job.status != Uploaded && job.rpc == s.jobs[j].rpc && job.owner == s.jobs[j].owner && job.context == s.jobs[j].context
    ensures JobOk(Finish(s, j, job), k)
  {
  }

  lemma FinishKeeps(s: State, j: Id, job: Job)
    requires Inv(s) && j in s.jobs && s.jobs[j].Stops() && job.Stops()
    requires job.status != Uploaded && job.rpc == s.jobs[j].rpc && job.owner == s.jobs[j].owner && job.context == s.jobs[j].context
    ensures Inv(Finish(s, j, job))
  {
    hide Bumps; hide Lawful; hide ThreadOk; hide JobOk; hide JobKnown; hide Exclusive;
    var r := Finish(s, j, job);
    forall u | u in r.threads
      ensures JobKnown(r, u) && ThreadOk(r, u)
    {
      FinishThreadOk(s, j, job, u);
    }
    forall k | k in r.jobs
      ensures JobOk(r, k)
    {
      FinishJobOk(s, j, job, k);
    }
  }

  /** A fresh browser is written to the shared file while its own Start is the only holder. */
  lemma ProvisionKeeps(s: State, t: Id)
    requires Inv(s) && t in s.threads && s.threads[t].Start? && s.threads[t].job in s.jobs
    ensures Inv(s.(current := Runtime(Some(s.threads[t].job), Bootstrapping)))
  {
    hide Bumps; hide Lawful; hide EpochOk;
    var j := s.threads[t].job;
    assert JobKnown(s, t) && ThreadOk(s, t);
    var r := s.(current := Runtime(Some(j), Bootstrapping));
    forall u | u in r.threads
      ensures JobKnown(r, u) && ThreadOk(r, u)
    {
      assert JobKnown(s, u) && ThreadOk(s, u);
    }
    forall k | k in r.jobs
      ensures JobOk(r, k)
    {
      assert JobOk(s, k);
    }
  }

  /** The shared file comes into the agent's hands while the job's own handoff is the only holder. */
  lemma SharedGrantKeeps(s: State, t: Id)
    requires Inv(s) && t in s.threads && s.threads[t].Handoff? && s.threads[t].at == Login
    requires s.threads[t].job in s.jobs && !s.jobs[s.threads[t].job].Stops()
    ensures Inv(s.(current := Runtime(Some(s.threads[t].job), Agent)))
  {
    hide Bumps; hide Lawful; hide EpochOk;
    var j := s.threads[t].job;
    assert JobKnown(s, t) && ThreadOk(s, t);
    var r := s.(current := Runtime(Some(j), Agent));
    forall u | u in r.threads
      ensures JobKnown(r, u) && ThreadOk(r, u)
    {
      assert JobKnown(s, u) && ThreadOk(s, u);
    }
    forall k | k in r.jobs
      ensures JobOk(r, k)
    {
      assert JobOk(s, k);
    }
  }

  lemma JobGrantKeeps(s: State, t: Id, job: Job)
    requires Inv(s) && t in s.threads && s.threads[t].Handoff? && s.threads[t].at == Final
    requires s.threads[t].job in s.jobs && !s.jobs[s.threads[t].job].Stops()
    requires job == s.jobs[s.threads[t].job].(owner := Agent)
    ensures Inv(WithJob(s, s.threads[t].job, job))
  {
    hide Bumps; hide Lawful; hide EpochOk;
    var j := s.threads[t].job;
    assert JobKnown(s, t) && ThreadOk(s, t);
    var r := WithJob(s, j, job);
    forall u | u in r.threads
      ensures JobKnown(r, u) && ThreadOk(r, u)
    {
      assert JobKnown(s, u) && ThreadOk(s, u);
    }
    forall k | k in r.jobs
      ensures JobOk(r, k)
    {
      assert JobOk(s, k);
    }
  }

  /** The execution prompt is recorded once the handoff has left its launched points. */
  lemma FirstPromptKeeps(s: State, t: Id)
    requires Inv(s) && t in s.threads && s.threads[t].Handoff? && s.threads[t].at == Prompting
    requires s.threads[t].job in s.jobs && s.jobs[s.threads[t].job].rpc && FirstPrompt(s.threads[t].job) !in s.log
    ensures Inv(Note(s, FirstPrompt(s.threads[t].job)))
  {
    hide Bumps; hide Lawful; hide EpochOk; hide ThreadOk; hide JobOk;
    var j := s.threads[t].job;
    var e := FirstPrompt(j);
    LawfulAppend(s.log, e);
    BumpsAppend(s.log, e);
    var r := Note(s, e);
    forall u | u in r.threads
      ensures JobKnown(r, u) && ThreadOk(r, u)
    {
      ThreadBesidePrompt(s, u, j);
    }
    forall k | k in r.jobs
      ensures JobOk(r, k)
    {
      JobBesidePrompt(s, k, j);
    }
  }

  lemma ThreadBesidePrompt(s: State, u: Id, j: Id)
    requires u in s.threads && JobKnown(s, u) && ThreadOk(s, u)
    requires s.threads[u].Handoff? ==> s.threads[u].at == Prompting
    ensures JobKnown(Note(s, FirstPrompt(j)), u) && ThreadOk(Note(s, FirstPrompt(j)), u)
  {
    hide Bumps; hide EpochOk;
    if s.threads[u].Handoff? || s.threads[u].Upload? || s.threads[u].Save? {
      EpochAppend(s.log, u, s.threads[u].epoch, FirstPrompt(j));
    }
  }

  lemma JobBesidePrompt(s: State, k: Id, j: Id)
    requires k in s.jobs && j in s.jobs && JobOk(s, k) && s.jobs[j].rpc
    ensures JobOk(Note(s, FirstPrompt(j)), k)
  {
    hide Bumps;
  }

  /** Pi's process exists from the launch on. */
  function LaunchPi(s: State, t: Id, job: Job): State
    requires t in s.threads && s.threads[t].Handoff?
  {
    WithThread(WithJob(s, s.threads[t].job, job), t, s.threads[t].(at := Session))
  }

  lemma LaunchedThreadOk(s: State, t: Id, job: Job, u: Id)
    requires t in s.threads && s.threads[t].Handoff? && s.threads[t].at == Prepare && u in s.threads
    requires JobKnown(s, t) && ThreadOk(s, t) && JobKnown(s, u) && ThreadOk(s, u)
    requires s.threads[u].Holder() ==> u == t
    requires job == s.jobs[s.threads[t].job].(rpc := true, owner := User, status := Preparing)
    requires FirstPrompt(s.threads[t].job) !in s.log
    ensures JobKnown(LaunchPi(s, t, job), u) && ThreadOk(LaunchPi(s, t, job), u)
  {
    hide EpochOk;
  }

  lemma LaunchPiKeeps(s: State, t: Id, job: Job)
    requires Inv(s) && t in s.threads && s.threads[t].Handoff? && s.threads[t].at == Prepare
    requires s.threads[t].job in s.jobs
    requires job == s.jobs[s.threads[t].job].(rpc := true, owner := User, status := Preparing)
    ensures Inv(LaunchPi(s, t, job))
  {
    hide Bumps; hide Lawful; hide Exclusive; hide ThreadOk; hide JobOk; hide JobKnown;
    var j := s.threads[t].job;
    var r := LaunchPi(s, t, job);
    LaunchesAlone(s, t);
    assert JobKnown(s, t) && ThreadOk(s, t) && JobOk(s, j);
    PreparedJob(s, t);
    StillExclusive(s.threads, t, s.threads[t].(at := Session), s.busy, s.resetting, Wedged in s.log);
    forall u | u in r.threads
      ensures JobKnown(r, u) && ThreadOk(r, u)
    {
      LaunchedThreadOk(s, t, job, u);
    }
    forall k | k in r.jobs
      ensures JobOk(r, k)
    {
      LaunchedJobOk(s, t, job, k);
    }
  }

  lemma PreparedJob(s: State, t: Id)
    requires t in s.threads && s.threads[t].Handoff? && s.threads[t].at == Prepare
    requires JobKnown(s, t) && ThreadOk(s, t) && JobOk(s, s.threads[t].job)
    ensures s.jobs[s.threads[t].job].status != Uploaded && FirstPrompt(s.threads[t].job) !in s.log
  {
    hide EpochOk;
  }

  lemma LaunchedJobOk(s: State, t: Id, job: Job, k: Id)
    requires t in s.threads && s.threads[t].Handoff? && s.threads[t].job in s.jobs && k in s.jobs && JobOk(s, k) && s.busy
    requires job == s.jobs[s.threads[t].job].(rpc := true, owner := User, status := Preparing)
    ensures JobOk(LaunchPi(s, t, job), k)
  {
  }

  lemma LaunchesAlone(s: State, t: Id)
    requires Exclusive(s.threads, s.busy, s.resetting, Wedged in s.log) && t in s.threads && s.threads[t].Holder()
    ensures s.busy && forall u <- s.threads :: s.threads[u].Holder() ==> u == t
  {
  }
}
