// What every segment of a handler does: which check lets it go on, where it goes on, and what it leaves behind if it fails.
module ControllerSteps {
  import opened Wrappers
  import opened ControllerState
  import opened ControllerMoves
  import opened JobController
  import opened ControllerSafety
  import opened ControllerHistory
  import opened ControllerTheorems
  import opened ControllerStops

  // ---- Handoffs ---------------------------------------------------------------------------------------------------

  /** The points of a handoff in the order of its awaits. */
  function After(at: HandoffPoint, again: bool, more: bool): HandoffPoint {
    match at
    case SameIdle => ReadTarget
    case ReadTarget => TargetRead
    case TargetRead => if more then SelectRead else BeforeSafety
    case SelectRead => SelectWrite
    case SelectWrite => if more then SelectRead else BeforeSafety
    case BeforeSafety => Safety
    case Safety => Assign
    case Assign => Take
    case Take => Locate
    case Locate => Confirm
    case Confirm => Login
    case Login => Resolved
    case Resolved => Bound
    case Bound => if again then Reverify else Prepare
    case Prepare => Session
    case Session => Relogin
    case Relogin => Final
    case Reverify => Recheck
    case Recheck => Final
    case Final => Prompting
    case _ => Leaving
  }

  /** The shared file still names the browser the handoff read, in the hands of one of these owners. */
  ghost predicate StillSeen(s: State, seen: Runtime, owners: set<Owner>) {
    s.current.browser.Some? && s.current.browser == seen.browser && s.current.owner in owners
  }

  /** The handoff gives the shared browser back before it fails. */
  ghost predicate GivenBack(s: State, th: Thread, a: Answer)
    requires th.Handoff? && th.job in s.jobs
  {
    match th.at
    case Assign => !a.ok
    case Take => !a.ok || !Intact(s, th) || !StillSeen(s, th.seen, {User, Agent})
    case Locate => !a.ok || (a.more && (!Intact(s, th) || !StillSeen(s, th.seen, {Returning})))
    case Confirm => !a.ok || !Intact(s, th) || !StillSeen(s, th.seen, {Returning, Locating})
    case Login => !a.ok || !Intact(s, th)
    case _ => false
  }

  /** What the shared file is after a point is passed. */
  function SharedAfter(s: State, th: Thread, more: bool): Runtime
    requires th.Handoff?
  {
    match th.at
    case SelectWrite => th.seen
    case Take => Runtime(s.current.browser, Returning)
    case Locate => if more then Runtime(s.current.browser, Locating) else s.current
    case Confirm => Runtime(s.current.browser, Agent)
    case _ => s.current
  }

  /** And the job's record. */
  function RecordAfter(job: Job, at: HandoffPoint, again: bool): Job {
    match at
    case Prepare => job.(rpc := true, owner := User, status := Preparing)
    case Final =>
      if again then job.(phase := Executing, waiting := Nobody, pauseId := None, settling := false, owner := Agent)
      else job.(status := Running, phase := Executing, waiting := Nobody, owner := Agent)
    case _ => job
  }

  /** The points at which a check may let the handoff go on. */
  ghost predicate OnItsWay(at: HandoffPoint) {
    at !in {Prompting, Undone, Retain, Leaving}
  }

  /** What a catch block leaves: the finished route, the operator's turn, a last look, or a stop in progress. */
  ghost predicate Caught(s: State, r: State, t: Id, th: Thread, a: Answer)
    requires th.Handoff? && th.job in s.jobs
  {
    var j := th.job;
    && j in r.jobs
    && (t in r.threads ==> r.threads[t].Handoff? && r.threads[t].job == j && r.threads[t].at in {Leaving, Retain})
    && (s.jobs[j].Stops() || (NotLeft(s, th, a) && !a.saved) ==> t !in r.threads && !r.busy)
    && (!s.jobs[j].Stops() && NotLeft(s, th, a) && a.saved ==> t in r.threads && r.threads[t].at == Leaving)
    && (!s.jobs[j].Stops() && !NotLeft(s, th, a) ==>
          && r.jobs[j].owner == User && r.current == Runtime(s.current.browser, if s.current.browser == Some(j) then User else s.current.owner)
          && if th.again then t in r.threads && r.threads[t].at == Retain
             else t !in r.threads && !r.busy && r.jobs[j].waiting == Setup && r.jobs[j].phase == AwaitingInput && r.jobs[j].status == Running)
  }

  ghost predicate Advanced(s: State, r: State, t: Id, th: Thread, a: Answer)
    requires th.Handoff? && th.job in s.jobs
  {
    && r.threads == s.threads[t := th.(at := After(th.at, th.again, a.more), canWait := th.canWait || th.at == SameIdle,
                                       seen := if th.at in {ReadTarget, SelectRead, Assign} then s.current else th.seen)]
    && r.current == SharedAfter(s, th, a.more)
    && r.jobs == s.jobs[th.job := RecordAfter(s.jobs[th.job], th.at, th.again)]
  }

  ghost predicate Returned(s: State, r: State, t: Id, th: Thread, a: Answer)
    requires th.Handoff?
  {
    && r.threads == s.threads[t := th.(at := Undone)] && r.jobs == s.jobs
    && r.current == (if th.at != Assign && a.sharedFile && StillSeen(s, th.seen, {User, Agent, Returning, Locating})
                     then Runtime(s.current.browser, User) else s.current)
  }

  /** A step of a handoff on its way: it goes on, gives the browser back, or ends in its catch block. */
  ghost predicate HandoffStepped(s: State, r: State, t: Id, th: Thread, a: Answer)
    requires th.Handoff? && th.job in s.jobs
  {
    if Thrown(s, th, a) then Caught(s, r, t, th, a)
    else if GivenBack(s, th, a) then Returned(s, r, t, th, a)
    else Advanced(s, r, t, th, a)
  }

  lemma LeaveCatches(s: State, t: Id, a: Answer)
    requires t in s.threads && s.threads[t].Handoff? && s.threads[t].job in s.jobs && !s.jobs[s.threads[t].job].Stops()
    ensures s.threads[t].job in StopAndLeave(s, t, a).jobs
    ensures var r := StopAndLeave(s, t, a);
            if a.saved then t in r.threads && r.threads[t] == s.threads[t].(at := Leaving) else t !in r.threads && !r.busy
  {
    var j := s.threads[t].job;
    hide BeginStop;
    if a.saved {
      StopRecord(s, j, a);
    } else {
      UnsavedRecord(s, j, a);
    }
  }

  lemma FailsCatches(s: State, t: Id, a: Answer)
    requires t in s.threads && s.threads[t].Handoff? && s.threads[t].job in s.jobs
    ensures Caught(s, Fails(s, t, a), t, s.threads[t], a)
  {
    hide StopAndLeave; hide Revoke; hide Waits;
    var j := s.threads[t].job;
    if !s.jobs[j].Stops() {
      var r := Revoke(s, j, a);
      RevokeFacts(s, j, a);
      WaitsFacts(r, j, Setup);
      LeaveCatches(r, t, a);
      LeaveCatches(s, t, a);
    }
  }

  lemma EditedCatches(s: State, m: State, t: Id, a: Answer)
    requires t in s.threads && s.threads[t].Handoff? && s.threads[t].job in s.jobs
    requires s.threads[t].job in m.jobs && m.jobs[s.threads[t].job].stopper == s.jobs[s.threads[t].job].stopper
    requires m.jobs[s.threads[t].job].rpc == s.jobs[s.threads[t].job].rpc
    requires m.threads == s.threads && m.active == s.active && m.closing == s.closing && m.epoch == s.epoch && m.current == s.current
    ensures Caught(s, Fails(m, t, a), t, s.threads[t], a)
  {
    hide Fails;
    FailsCatches(m, t, a);
  }

  lemma ToGrantBack(s: State, t: Id, a: Answer)
    requires t in s.threads && s.threads[t].Handoff? && s.threads[t].job in s.jobs && Ungranted(s.threads[t].at)
    requires !Thrown(s, s.threads[t], a) && GivenBack(s, s.threads[t], a)
    ensures Returned(s, StepToGrant(s, t, a), t, s.threads[t], a)
  {
    hide Fails; hide WriteShared; hide Thrown;
  }

  lemma SharedWritten(s: State, file: Runtime)
    ensures var r := WriteShared(s, file); r.current == file && r.jobs == s.jobs && r.threads == s.threads
  {
  }

  lemma ToGrantOn(s: State, t: Id, a: Answer)
    requires t in s.threads && s.threads[t].Handoff? && s.threads[t].job in s.jobs && Ungranted(s.threads[t].at)
    requires !Thrown(s, s.threads[t], a) && !GivenBack(s, s.threads[t], a)
    ensures Advanced(s, StepToGrant(s, t, a), t, s.threads[t], a)
  {
    hide Fails; hide Undo; hide WriteShared; hide StopAndLeave;
    var th := s.threads[t];
    assert s.jobs == s.jobs[th.job := s.jobs[th.job]];
    SharedWritten(s, SharedAfter(s, th, a.more));
    SharedWritten(Move(s, t, Login), SharedAfter(s, th, a.more));
    if th.at in {Take, Locate, Confirm} {
      assert WriteShared(s, SharedAfter(s, th, a.more)).threads == s.threads;
    }
  }

  lemma ToGrantSteps(s: State, t: Id, a: Answer)
    requires t in s.threads && s.threads[t].Handoff? && s.threads[t].job in s.jobs && Ungranted(s.threads[t].at)
    ensures HandoffStepped(s, StepToGrant(s, t, a), t, s.threads[t], a)
  {
    hide Fails; hide Caught; hide Thrown; hide StepToGrant; hide GivenBack; hide Returned; hide Advanced;
    var th := s.threads[t];
    if Thrown(s, th, a) {
      ToGrantThrown(s, t, a);
      FailsCatches(s, t, a);
    } else if GivenBack(s, th, a) {
      ToGrantBack(s, t, a);
    } else {
      ToGrantOn(s, t, a);
    }
  }

  lemma LaunchSteps(s: State, t: Id, a: Answer)
    requires t in s.threads && s.threads[t].Handoff? && s.threads[t].job in s.jobs && s.threads[t].at == Final
    requires s.threads[t].again ==> Holds(s.current, s.threads[t].job)
    ensures a.reach < 3 ==> Caught(s, Launch(s, t, a), t, s.threads[t], a)
    ensures a.reach >= 3 ==> Advanced(s, Launch(s, t, a), t, s.threads[t], a)
  {
    hide Launch; hide Caught; hide Advanced;
    if a.reach < 3 {
      LaunchThrows(s, t, a);
    } else {
      LaunchPrompts(s, t, a);
    }
  }

  lemma LaunchThrows(s: State, t: Id, a: Answer)
    requires t in s.threads && s.threads[t].Handoff? && s.threads[t].job in s.jobs && a.reach < 3
    requires s.threads[t].again ==> Holds(s.current, s.threads[t].job)
    ensures Caught(s, Launch(s, t, a), t, s.threads[t], a)
  {
    hide Fails; hide Caught;
    var th := s.threads[t];
    var k := th.job;
    var live := if th.again then s else WithJob(s, k, s.jobs[k].(status := Running, phase := Executing, waiting := Nobody));
    var granted := Note(WithJob(live, k, live.jobs[k].(owner := Agent)), Granted(k, false));
    EditedCatches(s, live, t, a);
    EditedCatches(s, granted, t, a);
    EditedCatches(s, if th.again then Resumed(granted, k) else granted, t, a);
  }

  lemma LaunchPrompts(s: State, t: Id, a: Answer)
    requires t in s.threads && s.threads[t].Handoff? && s.threads[t].job in s.jobs && s.threads[t].at == Final && a.reach >= 3
    requires s.threads[t].again ==> Holds(s.current, s.threads[t].job)
    ensures Advanced(s, Launch(s, t, a), t, s.threads[t], a)
  {
    hide Fails;
  }

  lemma PrepareSteps(s: State, t: Id, a: Answer)
    requires t in s.threads && s.threads[t].Handoff? && s.threads[t].job in s.jobs && s.threads[t].at == Prepare
    ensures HandoffStepped(s, StepAfterGrant(s, t, a), t, s.threads[t], a)
  {
    hide Fails; hide Caught; hide Launch; hide Undo; hide StopAndLeave; hide Waits;
    var th := s.threads[t];
    var lost := WithJob(s, th.job, s.jobs[th.job].(owner := User, status := PreparationFailed));
    FailsCatches(s, t, a);
    EditedCatches(s, lost, t, a);
    hide NotLeft;
  }

  lemma SessionSteps(s: State, t: Id, a: Answer)
    requires t in s.threads && s.threads[t].Handoff? && s.threads[t].job in s.jobs && s.threads[t].at == Session
    ensures HandoffStepped(s, StepAfterGrant(s, t, a), t, s.threads[t], a)
  {
    hide Fails; hide Caught; hide Launch; hide Undo; hide StopAndLeave; hide Waits;
    var th := s.threads[t];
    assert s.jobs == s.jobs[th.job := s.jobs[th.job]];
    var failed := WithJob(s, th.job, s.jobs[th.job].(status := PreparationFailed));
    FailsCatches(s, t, a);
    EditedCatches(s, failed, t, a);
    hide NotLeft;
  }

  lemma CheckingSteps(s: State, t: Id, a: Answer)
    requires t in s.threads && s.threads[t].Handoff? && s.threads[t].job in s.jobs
    requires s.threads[t].at in {Resolved, Bound, Relogin, Reverify, Recheck}
    ensures HandoffStepped(s, StepAfterGrant(s, t, a), t, s.threads[t], a)
  {
    hide Fails; hide Caught; hide NotLeft; hide Launch; hide Undo; hide StopAndLeave; hide Waits; hide LaunchPi; hide Evidence;
    var th := s.threads[t];
    assert s.jobs == s.jobs[th.job := s.jobs[th.job]];
    if Thrown(s, th, a) {
      FailsCatches(s, t, a);
    }
  }

  lemma LoginSteps(s: State, t: Id, a: Answer)
    requires t in s.threads && s.threads[t].Handoff? && s.threads[t].job in s.jobs && s.threads[t].at == Login
    ensures HandoffStepped(s, StepAfterGrant(s, t, a), t, s.threads[t], a)
  {
    hide Fails; hide Caught; hide Launch; hide StopAndLeave; hide Waits; hide LaunchPi; hide Evidence; hide Stopped;
    var th := s.threads[t];
    assert s.jobs == s.jobs[th.job := s.jobs[th.job]];
  }

  lemma FinalSteps(s: State, t: Id, a: Answer)
    requires t in s.threads && s.threads[t].Handoff? && s.threads[t].job in s.jobs && s.threads[t].at == Final
    ensures HandoffStepped(s, StepAfterGrant(s, t, a), t, s.threads[t], a)
  {
    hide Fails; hide Caught; hide NotLeft; hide Launch; hide Undo; hide StopAndLeave; hide Waits; hide Advanced;
    var th := s.threads[t];
    if a.ok && !Cancelled(s, th) && (th.again ==> Holds(s.current, th.job)) {
      LaunchSteps(s, t, a);
    } else {
      FailsCatches(s, t, a);
    }
  }

  /** Every step of a handoff on its way. */
  lemma HandoffProceeds(s: State, t: Id, a: Answer)
    requires Referenced(s) && t in s.threads && s.threads[t].Handoff? && OnItsWay(s.threads[t].at)
    ensures s.threads[t].job in s.jobs && HandoffStepped(s, Next(s, Continue(t, a)), t, s.threads[t], a)
  {
    hide StepToGrant; hide StepAfterGrant; hide HandoffStepped;
    assert JobKnown(s, t);
    var th := s.threads[t];
    if Ungranted(th.at) {
      ToGrantSteps(s, t, a);
    } else if th.at == Prepare {
      PrepareSteps(s, t, a);
    } else if th.at == Session {
      SessionSteps(s, t, a);
    } else if th.at == Login {
      LoginSteps(s, t, a);
    } else if th.at == Final {
      FinalSteps(s, t, a);
    } else {
      CheckingSteps(s, t, a);
    }
  }

  /** The remaining points: the answered prompt, the browser given back, the last look and the stop in progress. */
  ghost predicate HandoffEnded(s: State, r: State, t: Id, th: Thread, a: Answer)
    requires th.Handoff? && th.job in s.jobs
  {
    var j := th.job;
    match th.at
    case Leaving =>
      if s.jobs[j].stopper in {Complete, Rejected} then t !in r.threads && !r.busy && r.jobs == s.jobs else r == s
    case Retain =>
      && j in r.jobs && (t in r.threads ==> r.threads[t] == th.(at := Leaving))
      && (t in r.threads <==> !s.jobs[j].Stops() && HandoffStops(s, th, a) && a.saved) && (t !in r.threads ==> !r.busy)
      && (!HandoffStops(s, th, a) ==>
            r.jobs[j].waiting == Operator && r.jobs[j].phase == AwaitingInput && r.jobs[j].status == Running && !r.jobs[j].settling)
    case _ =>
      if th.at == Prompting && a.ok then t !in r.threads && !r.busy && r.jobs == s.jobs && r.current == s.current
      else Caught(s, r, t, th, a)
  }

  lemma RetainEnds(s: State, t: Id, a: Answer)
    requires t in s.threads && s.threads[t].Handoff? && s.threads[t].job in s.jobs && s.threads[t].at == Retain
    ensures HandoffEnded(s, StepAfterGrant(s, t, a), t, s.threads[t], a)
  {
    hide Fails; hide Caught; hide NotLeft; hide Launch; hide Waits; hide StopAndLeave; hide Undo;
    var j := s.threads[t].job;
    WaitsFacts(s, j, Operator);
    if !s.jobs[j].Stops() {
      LeaveCatches(s, t, a);
    }
  }

  lemma RouteEnds(s: State, t: Id, a: Answer)
    requires t in s.threads && s.threads[t].Handoff? && s.threads[t].job in s.jobs && s.threads[t].at in {Prompting, Undone, Leaving}
    ensures HandoffEnded(s, StepAfterGrant(s, t, a), t, s.threads[t], a)
  {
    hide Fails; hide Caught; hide NotLeft; hide Launch; hide Waits; hide StopAndLeave; hide Undo;
    FailsCatches(s, t, a);
  }

  /** Every other step of a handoff. */
  lemma HandoffEnds(s: State, t: Id, a: Answer)
    requires Referenced(s) && t in s.threads && s.threads[t].Handoff? && !OnItsWay(s.threads[t].at)
    ensures s.threads[t].job in s.jobs && HandoffEnded(s, Next(s, Continue(t, a)), t, s.threads[t], a)
  {
    hide StepToGrant; hide StepAfterGrant; hide HandoffEnded;
    assert JobKnown(s, t);
    if s.threads[t].at == Retain {
      RetainEnds(s, t, a);
    } else {
      RouteEnds(s, t, a);
    }
  }

  // ---- Starts, pauses and settlements -----------------------------------------------------------------------------

  /** The job is live and may go on. */
  ghost predicate Live(s: State, j: Id) {
    j in s.jobs && !s.closing && s.jobs[j].stopper == NotStopping && s.active == Some(j)
  }

  /** The operator's turn. */
  ghost predicate HandedOver(r: State, j: Id, w: Waiting) {
    && j in r.jobs && r.jobs[j].waiting == w && r.jobs[j].phase == AwaitingInput && r.jobs[j].status == Running
    && !r.jobs[j].settling && r.jobs[j].owner == User
  }

  /** The promise of a browser has settled, and a stop need no longer wait for it. */
  ghost predicate BrowserSettled(s: State, r: State, t: Id, th: Thread, good: bool)
    requires th.Start? && th.job in s.jobs
  {
    && r.threads == s.threads[t := th.(startAt := Provisioned, good := good)]
    && r.jobs == s.jobs[th.job := s.jobs[th.job].(provisioning := false)]
  }

  ghost predicate StartStepped(s: State, r: State, t: Id, th: Thread, a: Answer)
    requires th.Start? && th.job in s.jobs
  {
    var j := th.job;
    match th.startAt
    case Provision =>
      && r.current == s.current
      && if a.ok && Live(s, j) then r.threads == s.threads[t := th.(startAt := Writing)] && r.jobs == s.jobs
         else BrowserSettled(s, r, t, th, false)
    case Writing =>
      if a.ok then
        r.current == Runtime(Some(j), Bootstrapping) && r.threads == s.threads[t := th.(startAt := Observing)] && r.jobs == s.jobs
      else r.current == s.current && BrowserSettled(s, r, t, th, false)
    case Observing =>
      && r.current == s.current && r.jobs == s.jobs
      && r.threads == s.threads[t := th.(startAt := Reread, seen := s.current, good := a.ok && Live(s, j))]
    case Reread =>
      && BrowserSettled(s, r, t, th, a.ok && th.good)
      && r.current == if a.ok && th.seen.browser == Some(j) then Runtime(Some(j), User) else s.current
    case Provisioned =>
      if s.jobs[j].Stops() || (StartStops(s, j, Provisioned, th.good, a) && a.saved)
      then t in r.threads && r.threads[t] == th.(startAt := StartLeaving)
      else t !in r.threads && !r.busy && (!StartStops(s, j, Provisioned, th.good, a) ==> HandedOver(r, j, Setup))
    case StartLeaving =>
      if s.jobs[j].stopper in {Complete, Rejected} then t !in r.threads && !r.busy && r.jobs == s.jobs else r == s
  }

  lemma StartFailsSteps(s: State, t: Id, a: Answer)
    requires t in s.threads && s.threads[t].Start? && s.threads[t].job in s.jobs
    ensures var r := StartFails(s, t, a);
            if s.jobs[s.threads[t].job].Stops() || a.saved
            then t in r.threads && r.threads[t] == s.threads[t].(startAt := StartLeaving) else t !in r.threads && !r.busy
  {
    hide BeginStop; hide Halt;
    var j := s.threads[t].job;
    HaltFacts(s, j);
    if a.saved && !s.jobs[j].Stops() {
      StopRecord(s, j, a);
    } else {
      UnsavedRecord(s, j, a);
    }
  }

  lemma BootingSteps(s: State, t: Id, a: Answer)
    requires t in s.threads && s.threads[t].Start? && s.threads[t].job in s.jobs && s.threads[t].startAt != Provisioned
    ensures StartStepped(s, StepStart(s, t, a), t, s.threads[t], a)
  {
    hide StartFails; hide Waits; hide StartStops; hide HandedOver;
  }

  lemma ProvisionedSteps(s: State, t: Id, a: Answer)
    requires t in s.threads && s.threads[t].Start? && s.threads[t].job in s.jobs && s.threads[t].startAt == Provisioned
    ensures StartStepped(s, StepStart(s, t, a), t, s.threads[t], a)
  {
    hide StartFails; hide Waits; hide SettleBrowser;
    var th := s.threads[t];
    var m := WithJob(s, th.job, s.jobs[th.job].(owner := User));
    WaitsFacts(m, th.job, Setup);
    StartFailsSteps(s, t, a);
    StartFailsSteps(Waits(m, th.job, Setup), t, a);
  }

  lemma StartProceeds(s: State, t: Id, a: Answer)
    requires Referenced(s) && t in s.threads && s.threads[t].Start?
    ensures s.threads[t].job in s.jobs && StartStepped(s, Next(s, Continue(t, a)), t, s.threads[t], a)
  {
    hide StepStart; hide StartStepped;
    assert JobKnown(s, t);
    if s.threads[t].startAt == Provisioned {
      ProvisionedSteps(s, t, a);
    } else {
      BootingSteps(s, t, a);
    }
  }

  ghost predicate PauseStepped(s: State, r: State, t: Id, th: Thread, a: Answer)
    requires th.Pause? && th.job in s.jobs
  {
    var j := th.job;
    if th.pauseAt == PauseLeaving then
      if s.jobs[j].stopper in {Complete, Rejected} then t !in r.threads && !r.busy && r.jobs == s.jobs else r == s
    else if s.jobs[j].Stops() then t !in r.threads && !r.busy
    else if PauseStops(s, j, th.pauseAt, a) then
      if a.saved then t in r.threads && r.threads[t] == th.(pauseAt := PauseLeaving) else t !in r.threads && !r.busy
    else if th.pauseAt == CancellingPi then r == s.(threads := s.threads[t := th.(pauseAt := CheckingIdle)])
    else
      && t !in r.threads && !r.busy && HandedOver(r, j, Operator) && r.jobs[j].pauseId == Some(s.next) && r.next > s.next
      && r.current == s.current
  }

  lemma PauseFailsSteps(s: State, t: Id, a: Answer)
    requires t in s.threads && s.threads[t].Pause? && s.threads[t].job in s.jobs
    ensures var r := PauseFails(s, t, a);
            if !s.jobs[s.threads[t].job].Stops() && a.saved
            then t in r.threads && r.threads[t] == s.threads[t].(pauseAt := PauseLeaving) else t !in r.threads && !r.busy
  {
    hide BeginStop;
    var j := s.threads[t].job;
    if a.saved && !s.jobs[j].Stops() {
      StopRecord(s, j, a);
    } else {
      UnsavedRecord(s, j, a);
    }
  }

  lemma PauseProceeds(s: State, t: Id, a: Answer)
    requires Referenced(s) && t in s.threads && s.threads[t].Pause?
    ensures s.threads[t].job in s.jobs && PauseStepped(s, Next(s, Continue(t, a)), t, s.threads[t], a)
  {
    hide PauseFails; hide Waits; hide Paused;
    assert JobKnown(s, t);
    var j := s.threads[t].job;
    PausedFacts(s, j);
    PausedNext(s, j);
    WaitsFacts(Paused(s, j), j, Operator);
    PauseFailsSteps(s, t, a);
    PauseFailsSteps(Waits(Paused(s, j), j, Operator), t, a);
  }

  lemma PausedNext(s: State, j: Id)
    requires j in s.jobs
    ensures var r := Waits(Paused(s, j), j, Operator); r.next == s.next + 1
  {
  }

  ghost predicate SettleStepped(s: State, r: State, t: Id, th: Thread, a: Answer)
    requires th.Settle? && th.job in s.jobs
  {
    var j := th.job;
    if s.jobs[j].Stops() || SettleStops(s, j, th.settleAt, a) || (th.settleAt == Retaining && !Live(s, j)) then
      t !in r.threads && r.busy == s.busy
    else if th.settleAt == Costing && !a.more then r == s.(threads := s.threads[t := th.(settleAt := Reading)])
    else if th.settleAt == Costing then
      && r.threads == s.threads[t := th.(settleAt := Retaining)] && r.current == Runtime(Some(j), User)
      && r.jobs == s.jobs[j := s.jobs[j].(phase := Pausing, waiting := Nobody, owner := User)]
    else t !in r.threads && r.busy == s.busy && HandedOver(r, j, Operator) && r.jobs[j].pauseId == Some(s.next) && r.next > s.next
  }

  lemma DropSteps(s: State, t: Id, j: Id, a: Answer)
    requires j in s.jobs
    ensures t !in StopAndDrop(s, t, j, a).threads && StopAndDrop(s, t, j, a).busy == s.busy
  {
    hide BeginStop;
    StopBusy(s, j, a);
  }

  lemma StopBusy(s: State, j: Id, a: Answer)
    requires j in s.jobs
    ensures BeginStop(s, j, a).busy == s.busy
  {
    hide MarkStopping; hide SecureIf; hide Revoke;
    var halted := Halt(s, j);
    RevokeBusy(halted, j, a.OfStop());
    MarkBusy(Revoke(halted, j, a.OfStop()), j, if s.jobs[j].rpc then Cancelling else AwaitingBrowser, a.OfStop());
  }

  lemma RevokeBusy(s: State, j: Id, a: Answer)
    requires j in s.jobs
    ensures Revoke(s, j, a).busy == s.busy && j in Revoke(s, j, a).jobs
  {
  }

  lemma MarkBusy(s: State, j: Id, stopper: Stopper, a: Answer)
    requires j in s.jobs
    ensures SecureIf(MarkStopping(s, j, stopper), j, a).busy == s.busy
  {
  }

  lemma WaitsBusy(s: State, j: Id)
    requires j in s.jobs
    ensures Waits(Paused(s, j), j, Operator).busy == s.busy
  {
  }

  lemma CostedSteps(s: State, t: Id, a: Answer)
    requires t in s.threads && s.threads[t].Settle? && s.threads[t].job in s.jobs && s.threads[t].settleAt == Costing
    ensures SettleStepped(s, StepSettle(s, t, a), t, s.threads[t], a)
  {
    hide StopAndDrop; hide Waits; hide Paused; hide Revoke; hide HandedOver;
    var j := s.threads[t].job;
    var m := WithJob(s, j, s.jobs[j].(phase := Pausing, waiting := Nobody));
    DropSteps(s, t, j, a);
    RevokeFacts(m, j, a);
    RevokeBusy(m, j, a);
    DropSteps(Revoke(m, j, a), t, j, a);
  }

  lemma RetainedSteps(s: State, t: Id, a: Answer)
    requires t in s.threads && s.threads[t].Settle? && s.threads[t].job in s.jobs && s.threads[t].settleAt != Costing
    ensures SettleStepped(s, StepSettle(s, t, a), t, s.threads[t], a)
  {
    hide StopAndDrop; hide Waits; hide Paused; hide Revoke;
    var j := s.threads[t].job;
    DropSteps(s, t, j, a);
    PausedFacts(s, j);
    PausedNext(s, j);
    WaitsBusy(s, j);
    WaitsFacts(Paused(s, j), j, Operator);
    DropSteps(Waits(Paused(s, j), j, Operator), t, j, a);
  }

  lemma SettleProceeds(s: State, t: Id, a: Answer)
    requires Referenced(s) && t in s.threads && s.threads[t].Settle?
    ensures s.threads[t].job in s.jobs && SettleStepped(s, Next(s, Continue(t, a)), t, s.threads[t], a)
  {
    hide StepSettle; hide SettleStepped;
    assert JobKnown(s, t);
    if s.threads[t].settleAt == Costing {
      CostedSteps(s, t, a);
    } else {
      RetainedSteps(s, t, a);
    }
  }

  // ---- Steering, uploading, saving, clearing ----------------------------------------------------------------------

  /** An instruction reaches Pi exactly if the safety check passed and the job is still executing alone. */
  lemma SteerProceeds(s: State, t: Id, a: Answer)
    requires Referenced(s) && t in s.threads && s.threads[t].Steer?
    ensures var r, j := Next(s, Continue(t, a)), s.threads[t].job;
            && r.threads == s.threads - {t} && r.jobs == s.jobs && r.current == s.current
            && r.log == s.log + if a.ok && Live(s, j) && !s.resetting && !s.busy && !s.jobs[j].settling && s.jobs[j].phase == Executing
                                then [Steered(j)] else []
  {
    assert JobKnown(s, t);
    assert s.log == s.log + [];
  }

  /** A new workbook becomes the context exactly if nothing closed or raised the epoch meanwhile. */
  lemma UploadProceeds(s: State, t: Id, a: Answer)
    requires Referenced(s) && t in s.threads && s.threads[t].Upload?
    ensures var r := Next(s, Continue(t, a)); var commits := a.ok && a.more && !s.closing && s.epoch == s.threads[t].epoch;
            && r.threads == s.threads - {t} && !r.busy && r.jobs == s.jobs
            && r.context == (if commits then Context(Some(s.next), Some(t), None) else s.context)
            && r.log == s.log + if commits then [Committed(t)] else []
  {
    assert JobKnown(s, t);
    assert s.log == s.log + [];
  }

  /** An edited workbook is saved exactly if besides it is still the selected one and no upload is bound to it. */
  lemma SaveProceeds(s: State, t: Id, a: Answer)
    requires Referenced(s) && t in s.threads && s.threads[t].Save?
    ensures var r, th := Next(s, Continue(t, a)), s.threads[t];
            && r.threads == s.threads - {t} && !r.busy && r.jobs == s.jobs && r.context == s.context
            && r.log == s.log + if && a.ok && !s.closing && s.epoch == th.epoch && s.context.generation.Some?
                                   && s.context.generation == th.generation && s.context.workbook == Some(th.workbook)
                                   && (s.context.job.Some? && s.context.job.value in s.jobs ==> s.jobs[s.context.job.value].status != Uploaded)
                                then [Saved(t)] else []
  {
    assert JobKnown(s, t);
    assert s.log == s.log + [];
  }

  ghost predicate ClearStepped(s: State, r: State, t: Id, th: Thread, a: Answer)
    requires th.Clear? && (th.prior.Some? ==> th.prior.value in s.jobs) && (th.clearAt.AwaitingStop? ==> th.clearAt.stopped in s.jobs)
  {
    match th.clearAt
    case AwaitingStop(j) =>
      if s.jobs[j].stopper == Complete then r == s.(threads := s.threads[t := th.(clearAt := Draining)])
      else if s.jobs[j].stopper == Rejected then r == s.(threads := s.threads - {t}, resetting := false)
      else r == s
    case Draining =>
      if a.ok && s.busy then r == s
      else
        var goesOn := a.ok && th.generation == s.context.generation && !s.closing && a.evidence;
        && r.threads == s.threads - {t} && !r.resetting && r.current == s.current && r.jobs.Keys == s.jobs.Keys
        && (forall j <- s.jobs :: r.jobs[j] ==
              if goesOn && th.prior == Some(j) && s.jobs[j].status == Uploaded
              then s.jobs[j].(status := Cleared, phase := Settled) else s.jobs[j])
        && r.context == (if goesOn && !th.prepare && a.more then Context(Some(s.next), None, None) else s.context)
        && r.log == s.log + if goesOn && !th.prepare && a.more then [ClearCommitted(t)] else []
  }

  /** A Clear waits for the stop, then for every request in flight, and only then, if nothing changed, takes effect. */
  lemma ClearProceeds(s: State, t: Id, a: Answer)
    requires Referenced(s) && t in s.threads && s.threads[t].Clear?
    ensures JobKnown(s, t) && ClearStepped(s, Next(s, Continue(t, a)), t, s.threads[t], a)
  {
    hide StepClear; hide ClearStepped;
    assert JobKnown(s, t);
    if s.threads[t].clearAt.Draining? {
      DrainedSteps(s, t, a);
    } else {
      AwaitedSteps(s, t, a);
    }
  }

  lemma AwaitedSteps(s: State, t: Id, a: Answer)
    requires t in s.threads && s.threads[t].Clear? && JobKnown(s, t) && !s.threads[t].clearAt.Draining?
    ensures ClearStepped(s, StepClear(s, t, a), t, s.threads[t], a)
  {
  }

  lemma DrainedSteps(s: State, t: Id, a: Answer)
    requires t in s.threads && s.threads[t].Clear? && JobKnown(s, t) && s.threads[t].clearAt.Draining?
    ensures ClearStepped(s, StepClear(s, t, a), t, s.threads[t], a)
  {
    assert s.log == s.log + [];
  }
}
