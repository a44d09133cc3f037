// The state of the job controller (app/rr-connection.mjs) between two awaits, with the two runtime files of
// app/browser-ownership.mjs. A thread is a request or a background handler suspended at an await.
module ControllerState {
  import opened Wrappers

  type Id = nat // jobs, context generations, pauses and threads; fresh numbers stand for fresh UUIDs

  datatype Owner = User | Agent | Returning | Locating | Bootstrapping

  /** A runtime file: the assigned browser, named by the job it was started for, and who owns it. */
  datatype Runtime = Runtime(browser: Option<Id>, owner: Owner)

  datatype Status = Uploaded | Preparing | PreparationFailed | Running | Stopping | Ended | Cleared

  datatype Phase = Unstarted | BrowserStarting | AwaitingInput | Executing | Pausing | GivingBack | Settled

  datatype Waiting = Nobody | Setup | Operator

  /** `job.stopping`: absent, pending at one of its awaits, resolved or rejected. */
  datatype Stopper = NotStopping | Cancelling | AwaitingBrowser | Cleaning | Complete | Rejected

  datatype Job = Job(status: Status, phase: Phase, waiting: Waiting, pauseId: Option<Id>, context: Option<Id>,
                     rpc: bool, provisioning: bool, settling: bool, stopper: Stopper, owner: Owner)
  {
    predicate Stops() {
      stopper != NotStopping
    }
  }

  datatype StartPoint = Provision | Writing | Observing | Reread | Provisioned | StartLeaving

  datatype HandoffPoint =
    | SameIdle | ReadTarget | TargetRead | SelectRead | SelectWrite | BeforeSafety | Safety | Assign | Take | Locate | Confirm
    | Login | Resolved | Bound | Prepare | Session | Relogin | Reverify | Recheck | Final | Prompting | Undone | Retain | Leaving

  datatype PausePoint = CancellingPi | CheckingIdle | PauseLeaving

  datatype ClearPoint = AwaitingStop(stopped: Id) | Draining

  datatype SettlePoint = Costing | Retaining | Reading

  datatype Thread =
    | Start(job: Id, startAt: StartPoint, seen: Runtime, good: bool)
    | Handoff(job: Id, epoch: nat, again: bool, at: HandoffPoint, seen: Runtime, canWait: bool)
    | Pause(job: Id, pauseAt: PausePoint)
    | Upload(epoch: nat)
    | Save(epoch: nat, generation: Option<Id>, workbook: Id)
    | Clear(generation: Option<Id>, prepare: bool, prior: Option<Id>, clearAt: ClearPoint)
    | Steer(job: Id)
    | Settle(job: Id, settleAt: SettlePoint)
  {
    /** The requests that set `busy`. */
    predicate Holder() {
      Start? || Handoff? || Pause? || Upload? || Save?
    }
  }

  /** What a step leaves behind for good. */
  datatype Entry =
    | Bump                          // controlEpoch was raised
    | Closed                        // shutdown began
    | Begun(thread: Id)             // a handoff, upload or save captured the epoch
    | StopBegan(job: Id)            // job.stopping was set
    | Secured(job: Id, shared: bool) // a stop revoked the shared or the job's runtime file
    | Granted(job: Id, shared: bool) // AGENT was written to the shared or to the job's runtime file
    | Prompted(thread: Id, job: Id) // a prompt was written to the job's Pi
    | FirstPrompt(job: Id)          // ... and it was the execution prompt
    | Steered(job: Id)              // a steer or follow_up was written to the job's Pi
    | ClearCommitted(thread: Id)          // Clear committed a generation
    | Committed(thread: Id)         // an upload committed a generation
    | Saved(thread: Id)             // a workbook save committed its manifest
    | Wedged                        // a pause or resume threw after setting busy and before its try block

  datatype Context = Context(generation: Option<Id>, workbook: Option<Id>, job: Option<Id>)

  datatype State = State(jobs: map<Id, Job>, active: Option<Id>, busy: bool, closing: bool, resetting: bool, epoch: nat,
                         context: Context, current: Runtime, threads: map<Id, Thread>, next: Id, log: seq<Entry>)

  const INITIAL := State(map[], None, false, false, false, 0, Context(None, None, None), Runtime(None, User), map[], 0, [])

  predicate Holds(r: Runtime, j: Id) {
    r == Runtime(Some(j), Agent)
  }

  function Bumps(log: seq<Entry>): nat {
    if log == [] then 0 else Bumps(log[..|log| - 1]) + if log[|log| - 1] == Bump then 1 else 0
  }

  /** The thread began in this log and nothing has raised the epoch since. */
  predicate Unbroken(past: seq<Entry>, t: Id) {
    Begun(t) in past && forall i :: 0 <= i < |past| && past[i] == Begun(t) ==> Bump !in past[i..]
  }

  /** What may follow a log. */
  predicate Allowed(past: seq<Entry>, e: Entry) {
    match e
    case Granted(j, _) => StopBegan(j) !in past && Closed !in past
    case Steered(j) => StopBegan(j) !in past && Closed !in past
    case Prompted(t, j) => StopBegan(j) !in past && Closed !in past && Unbroken(past, t)
    case FirstPrompt(j) => FirstPrompt(j) !in past
    case Committed(t) => Closed !in past && Unbroken(past, t)
    case Saved(t) => Closed !in past && Unbroken(past, t)
    case ClearCommitted(_) => Closed !in past
    case _ => true
  }

  predicate AllowedAt(log: seq<Entry>, k: int)
    requires 0 <= k < |log|
  {
    Allowed(log[..k], log[k])
  }

  predicate Lawful(log: seq<Entry>) {
    forall k :: 0 <= k < |log| ==> AllowedAt(log, k)
  }

  predicate Older(e: Entry, next: Id) {
    match e
    case Begun(t) => t < next
    case StopBegan(j) => j < next
    case Secured(j, _) => j < next
    case FirstPrompt(j) => j < next
    case _ => true
  }

  /** Every mention of a job in the state is a job of the state. */
  predicate Referenced(s: State) {
    && (s.active.Some? ==> s.active.value in s.jobs)
    && forall t <- s.threads :: JobKnown(s, t)
  }

  predicate JobKnown(s: State, t: Id)
    requires t in s.threads
  {
    match s.threads[t]
    case Upload(_) => true
    case Save(_, _, _) => true
    case Clear(_, _, prior, at) => (prior.Some? ==> prior.value in s.jobs) && (at.AwaitingStop? ==> at.stopped in s.jobs)
    case Start(j, _, _, _) => j in s.jobs
    case Handoff(j, _, _, _, _, _) => j in s.jobs
    case Pause(j, _) => j in s.jobs
    case Steer(j) => j in s.jobs
    case Settle(j, _) => j in s.jobs
  }

  /** The numbers, flags and files of the connection. */
  predicate Consistent(s: State) {
    && s.epoch == Bumps(s.log)
    && (s.closing <==> Closed in s.log)
    && (s.current.browser.Some? ==> s.current.browser.value in s.jobs)
    && (s.context.generation.Some? ==> s.context.generation.value < s.next)
    && (forall j <- s.jobs :: j < s.next)
    && (forall t <- s.threads :: t < s.next)
    && (forall e <- s.log :: Older(e, s.next))
  }

  /** At most one request holds `busy` and at most one Clear is in flight. */
  predicate Exclusive(threads: map<Id, Thread>, busy: bool, resetting: bool, wedged: bool) {
    && (forall t, u :: t in threads && u in threads && threads[t].Holder() && threads[u].Holder() ==> t == u)
    && (forall t, u :: t in threads && u in threads && threads[t].Clear? && threads[u].Clear? ==> t == u)
    && (forall t <- threads :: threads[t].Holder() ==> busy && !wedged)
    && (forall t <- threads :: threads[t].Clear? ==> resetting)
    && (wedged ==> busy)
    && (busy && !wedged ==> exists t <- threads :: threads[t].Holder())
    && (resetting ==> exists t <- threads :: threads[t].Clear?)
  }

  /** A job that waits for the operator is not in the agent's hands. */
  predicate Given(s: State, j: Id)
    requires j in s.jobs
  {
    s.jobs[j].waiting != Nobody && !s.jobs[j].Stops() ==> s.jobs[j].owner != Agent && !Holds(s.current, j)
  }

  predicate HandsOff(s: State, j: Id)
    requires j in s.jobs
  {
    s.active == Some(j) ==> Given(s, j)
  }

  predicate JobOk(s: State, j: Id)
    requires j in s.jobs
  {
    var job := s.jobs[j];
    && (job.Stops() <==> StopBegan(j) in s.log)
    && (Secured(j, false) in s.log ==> job.Stops() && job.owner != Agent)
    && (Secured(j, true) in s.log ==> job.Stops() && !Holds(s.current, j))
    && (job.status == Uploaded ==>
          s.current.browser != Some(j) && s.active != Some(j) && job.owner != Agent && !job.rpc && !job.Stops())
    && (FirstPrompt(j) in s.log ==> job.rpc)
    && (s.active == Some(j) ==> job.context == s.context.generation && job.stopper != Complete)
    && (job.context.Some? ==> job.context.value < s.next)
    && (!s.busy ==> HandsOff(s, j))
  }

  /** The captured epoch is the number of bumps before the thread began. */
  predicate EpochOk(log: seq<Entry>, t: Id, epoch: nat) {
    Begun(t) in log && epoch <= Bumps(log) && forall i :: 0 <= i < |log| && log[i] == Begun(t) ==> Bumps(log[..i]) == epoch
  }

  /** A holder's job is the active job, if there is one. */
  predicate Only(s: State, j: Id) {
    s.active.None? || s.active == Some(j)
  }

  predicate Ungranted(at: HandoffPoint) {
    at in {SameIdle, ReadTarget, TargetRead, SelectRead, SelectWrite, BeforeSafety, Safety, Assign, Take, Locate, Confirm}
  }

  predicate Assigned(at: HandoffPoint) {
    at in {SelectRead, SelectWrite, BeforeSafety, Safety, Assign, Take, Locate, Confirm}
  }

  predicate Prelaunch(at: HandoffPoint) {
    Ungranted(at) || at in {Login, Resolved, Bound, Prepare}
  }

  predicate Launched(at: HandoffPoint) {
    at in {Session, Relogin, Final}
  }

  predicate HandoffOk(s: State, j: Id, again: bool, at: HandoffPoint, seen: Runtime)
    requires j in s.jobs
  {
    && (Ungranted(at) ==> !Holds(s.current, j))
    && (at == TargetRead && seen.browser == Some(j) ==> s.current.browser == Some(j))
    && (Assigned(at) ==> s.current.browser == Some(j))
    && (at == SelectWrite ==> seen.browser == Some(j) && seen.owner != Agent)
    && (!again && Prelaunch(at) ==> !s.jobs[j].rpc)
    && (!again && Launched(at) ==> s.jobs[j].rpc && FirstPrompt(j) !in s.log)
    && (at == Reverify || at == Recheck || at == SameIdle || at == Retain ==> again)
    && (at == Prepare || at == Session || at == Relogin ==> !again)
    && (at == Prompting ==> Given(s, j))
  }

  predicate ThreadOk(s: State, t: Id)
    requires t in s.threads && JobKnown(s, t)
  {
    match s.threads[t]
    case Start(j, at, seen, _) =>
      && Only(s, j) && s.jobs[j].status != Uploaded && !s.jobs[j].rpc && s.jobs[j].owner != Agent && !Holds(s.current, j)
      && (at == Reread && seen.browser == Some(j) ==> s.current.browser == Some(j))
    case Handoff(j, epoch, again, at, seen, _) =>
      Only(s, j) && s.jobs[j].status != Uploaded && EpochOk(s.log, t, epoch) && HandoffOk(s, j, again, at, seen)
    case Pause(j, _) => Only(s, j) && s.jobs[j].status != Uploaded
    case Upload(epoch) => s.active.None? && EpochOk(s.log, t, epoch) && (s.resetting ==> epoch < s.epoch)
    case Save(epoch, _, _) => s.active.None? && EpochOk(s.log, t, epoch) && (s.resetting ==> epoch < s.epoch)
    case Clear(_, _, _, at) =>
      if at.Draining? then s.active.None? else Only(s, at.stopped) && s.jobs[at.stopped].Stops()
    case Steer(_) => true
    case Settle(j, _) => s.jobs[j].status != Uploaded
  }

  predicate Inv(s: State) {
    && Referenced(s) && Consistent(s) && Exclusive(s.threads, s.busy, s.resetting, Wedged in s.log) && Lawful(s.log)
    && (forall j <- s.jobs :: JobOk(s, j))
    && (forall t <- s.threads :: ThreadOk(s, t))
  }

  lemma InitialInv()
    ensures Inv(INITIAL)
  {
  }

  lemma NoBumpBetween(log: seq<Entry>, i: nat)
    requires i <= |log|
    ensures Bumps(log[..i]) <= Bumps(log)
    ensures Bumps(log[..i]) == Bumps(log) ==> Bump !in log[i..]
  {
    if i < |log| {
      var shorter := log[..|log| - 1];
      NoBumpBetween(shorter, i);
      assert shorter[..i] == log[..i];
      assert log[i..] == shorter[i..] + [log[|log| - 1]];
    } else {
      assert log[..i] == log;
    }
  }

  /** A thread whose captured epoch is still the current one has had no bump since it began. */
  lemma CurrentIsUnbroken(log: seq<Entry>, t: Id)
    requires EpochOk(log, t, Bumps(log))
    ensures Unbroken(log, t)
  {
    forall i | 0 <= i < |log| && log[i] == Begun(t)
      ensures Bump !in log[i..]
    {
      NoBumpBetween(log, i);
    }
  }

  lemma LawfulAppend(log: seq<Entry>, e: Entry)
    requires Lawful(log) && Allowed(log, e)
    ensures Lawful(log + [e])
  {
    var longer := log + [e];
    forall k | 0 <= k < |longer|
      ensures AllowedAt(longer, k)
    {
      if k < |log| {
        assert AllowedAt(log, k);
        assert longer[..k] == log[..k];
      } else {
        assert longer[..k] == log;
      }
    }
  }

  lemma EpochAppend(log: seq<Entry>, t: Id, epoch: nat, e: Entry)
    requires EpochOk(log, t, epoch) && e != Begun(t)
    ensures EpochOk(log + [e], t, epoch)
    ensures Bumps(log + [e]) == Bumps(log) + if e == Bump then 1 else 0
  {
    var longer := log + [e];
    assert longer[..|log|] == log;
    forall i | 0 <= i < |longer| && longer[i] == Begun(t)
      ensures Bumps(longer[..i]) == epoch
    {
      assert longer[..i] == log[..i];
    }
  }

  lemma BumpsAppend(log: seq<Entry>, e: Entry)
    ensures Bumps(log + [e]) == Bumps(log) + if e == Bump then 1 else 0
  {
    assert (log + [e])[..|log|] == log;
  }
}
