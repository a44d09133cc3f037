// Every call of `stop` in the controller: when it is made, and what it does to the job and to the two runtime files.
module ControllerStops {
  import opened Wrappers
  import opened ControllerState
  import opened ControllerMoves
  import opened JobController
  import opened ControllerSafety
  import opened ControllerHistory
  import opened ControllerTheorems

  // ---- When a handler calls `stop`, in terms of the state and the answers ----------------------------------------

  /** Both runtime files name the job's browser and leave it to the operator. */
  ghost predicate BothUsers(s: State, j: Id) {
    j in s.jobs && s.jobs[j].owner == User && s.current.browser == Some(j) && s.current.owner == User
  }

  ghost predicate BothRevoked(a: Answer) {
    a.jobFile && a.sharedFile
  }

  /** No epoch was raised, nothing closed, stopped or replaced since the handoff began. */
  ghost predicate Intact(s: State, th: Thread)
    requires th.Handoff? && th.job in s.jobs
  {
    !s.closing && s.jobs[th.job].stopper == NotStopping && s.active == Some(th.job) && s.epoch == th.epoch
  }

  /** The handoff points after whose awaited call cancellation is looked at. */
  const WATCHED: set<HandoffPoint> :=
    {SameIdle, BeforeSafety, Safety, Resolved, Bound, Prepare, Session, Relogin, Recheck, Final}

  /** Those that only need the call to succeed. */
  const UNWATCHED: set<HandoffPoint> := {ReadTarget, TargetRead, SelectRead, SelectWrite, Reverify, Prompting}

  /** The step ends in the route's catch block. */
  ghost predicate Thrown(s: State, th: Thread, a: Answer)
    requires th.Handoff? && th.job in s.jobs
  {
    || th.at == Undone
    || (th.at in WATCHED + UNWATCHED && !a.ok)
    || (th.at in WATCHED && !Intact(s, th))
    || (th.at == SameIdle && !BothUsers(s, th.job))
    || (th.at == TargetRead && th.seen.browser != Some(th.job))
    || (th.at == Prepare && (s.jobs[th.job].rpc || !a.more))
    || (th.at == Final && (a.reach < 3 || (th.again && s.current != Runtime(Some(th.job), Agent))))
  }

  /** The catch block stops the job unless it can be left to the operator. */
  ghost predicate NotLeft(s: State, th: Thread, a: Answer)
    requires th.Handoff? && th.job in s.jobs
  {
    if th.again then
      !(th.canWait && th.at != Prompting && Intact(s, th) && BothRevoked(a) && a.evidence && s.current.browser == Some(th.job))
    else s.jobs[th.job].rpc || !Intact(s, th) || !BothRevoked(a)
  }

  ghost predicate HandoffStops(s: State, th: Thread, a: Answer)
    requires th.Handoff? && th.job in s.jobs
  {
    if th.at == Retain then !(a.ok && a.evidence && BothUsers(s, th.job) && Intact(s, th))
    else Thrown(s, th, a) && NotLeft(s, th, a)
  }

  ghost predicate StartStops(s: State, j: Id, at: StartPoint, good: bool, a: Answer) {
    at == Provisioned && !(a.ok && good && !s.closing && s.active == Some(j) && a.reach > 0)
  }

  ghost predicate PauseStops(s: State, j: Id, at: PausePoint, a: Answer) {
    at != PauseLeaving
    && !(a.ok && a.evidence && !s.closing && s.active == Some(j) && BothUsers(s, j) && (at == CheckingIdle ==> a.reach > 0))
  }

  ghost predicate SettleStops(s: State, j: Id, at: SettlePoint, a: Answer) {
    match at
    case Costing => !a.ok || (a.more && !(BothRevoked(a) && a.evidence && s.current.browser == Some(j)))
    case Retaining =>
      !a.ok || (!s.closing && s.active == Some(j) && !(a.evidence && BothUsers(s, j) && a.reach > 0))
    case Reading => true
  }

  /** The thread's step calls `stop` for job `j`. */
  ghost predicate ThreadStops(s: State, th: Thread, j: Id, a: Answer)
    requires j in s.jobs
  {
    match th
    case Start(k, at, _, good) => k == j && StartStops(s, j, at, good, a)
    case Handoff(k, _, _, _, _, _) => k == j && HandoffStops(s, th, a)
    case Pause(k, at) => k == j && PauseStops(s, j, at, a)
    case Settle(k, at) => k == j && SettleStops(s, j, at, a)
    case _ => false
  }

  /** A request that is accepted for the live job only when no other is in flight. */
  ghost predicate Accepts(s: State, j: Id, a: Answer) {
    a.ok && s.active == Some(j) && j in s.jobs && !s.resetting && !s.busy && s.jobs[j].stopper == NotStopping
  }

  /** The step calls `stop` for job `j`: by request, or from the catch block of a request that fails at once. */
  ghost predicate CallsStop(s: State, e: Event, j: Id)
    requires j in s.jobs
  {
    match e
    case PostStop(k, _) => k == j && s.active == Some(j)
    case Trouble(k, _) => k == j && s.active == Some(j)
    case StopAll(_) => s.active == Some(j)
    case Shutdown(_) => s.active == Some(j)
    case PostClear(generation, _, replace, requested, a) =>
      && s.active == Some(j) && a.ok && !s.closing && !s.resetting && (s.busy ==> replace) && generation == s.context.generation
      && (if replace then s.context.job == Some(j) else requested == Some(j) && s.context.job in {None, Some(j)})
    case PostStart(k, a) =>
      && k == j && !a.more && a.ok && !s.closing && !s.resetting && !s.busy && s.active.None?
      && s.jobs[j].status == Uploaded && s.jobs[j].context == s.context.generation
      && (s.context.generation.Some? ==> s.context.job == Some(j))
    case PostAnswer(k, a) =>
      && k == j && Accepts(s, j, a) && !s.jobs[j].rpc && s.jobs[j].phase == AwaitingInput && s.jobs[j].waiting == Setup
      && (s.closing || (!a.more && !BothRevoked(a)))
    case PostResume(k, pauseId, a) =>
      && k == j && Accepts(s, j, a) && !s.closing && s.jobs[j].rpc && s.jobs[j].phase == AwaitingInput && s.jobs[j].waiting == Operator
      && s.jobs[j].pauseId.Some? && pauseId == s.jobs[j].pauseId && a.reach > 0 && !(a.more && BothUsers(s, j))
    case TakeControl(k, generation, a) =>
      && k == j && Accepts(s, j, a) && !s.closing && generation == s.context.generation && !s.jobs[j].settling
      && s.jobs[j].phase == Executing && s.jobs[j].rpc && a.reach > 0 && !BothRevoked(a)
    case Continue(t, a) => t in s.threads && ThreadStops(s, s.threads[t], j, a)
    case _ => false
  }

  // ---- What a call of `stop` does at once -----------------------------------------------------------------------

  /** The job's record says so, and each file whose write succeeds is no longer the agent's. */
  ghost predicate Halted(r: State, j: Id, rpc: bool, a: Answer)
    requires j in r.jobs
  {
    && r.jobs[j].status == Stopping && r.jobs[j].waiting == Nobody && r.jobs[j].pauseId.None?
    && (a.saved ==>
          && r.jobs[j].stopper == (if rpc then Cancelling else AwaitingBrowser)
          && (a.stopJobFile ==> r.jobs[j].owner == User) && (a.stopSharedFile ==> !Holds(r.current, j)))
  }

  /** From `s` to `r` the job began to stop exactly if `stop` was called and its record could be saved. */
  ghost predicate StopStep(s: State, r: State, j: Id, a: Answer, called: bool)
    requires j in s.jobs
  {
    && j in r.jobs && (r.jobs[j].Stops() <==> s.jobs[j].Stops() || (called && a.saved))
    && (called && !s.jobs[j].Stops() ==> Halted(r, j, s.jobs[j].rpc, a))
  }

  lemma Calmly(s: State, r: State, j: Id, a: Answer)
    requires j in s.jobs && j in r.jobs && r.jobs[j].Stops() == s.jobs[j].Stops()
    ensures StopStep(s, r, j, a, false)
  {
  }

  /** A step that leaves jobs and the shared file alone. */
  lemma Aside(s: State, m: State, r: State, j: Id, a: Answer, called: bool)
    requires j in s.jobs && StopStep(s, m, j, a, called) && r.jobs == m.jobs && r.current == m.current
    ensures StopStep(s, r, j, a, called)
  {
  }

  /** A step before the call. */
  lemma Ahead(s: State, m: State, r: State, j: Id, a: Answer, called: bool)
    requires j in s.jobs && j in m.jobs && m.jobs[j].Stops() == s.jobs[j].Stops() && m.jobs[j].rpc == s.jobs[j].rpc
    requires StopStep(m, r, j, a, called)
    ensures StopStep(s, r, j, a, called)
  {
  }

  lemma MarkedRecord(s: State, j: Id, stopper: Stopper, a: Answer)
    requires j in s.jobs
    ensures var r := SecureIf(MarkStopping(s, j, stopper), j, a);
            && r.jobs == s.jobs[j := s.jobs[j].(stopper := stopper)] && r.current == s.current && r.threads == s.threads
            && r.active == s.active && r.closing == s.closing && r.epoch == s.epoch
  {
  }

  function Halt(s: State, j: Id): State
    requires j in s.jobs
  {
    WithJob(s, j, s.jobs[j].(status := Stopping, waiting := Nobody, pauseId := None))
  }

  lemma HaltFacts(s: State, j: Id)
    requires j in s.jobs
    ensures var r := Halt(s, j);
            r.threads == s.threads && j in r.jobs && r.jobs[j].stopper == s.jobs[j].stopper && r.jobs[j].owner == s.jobs[j].owner
  {
  }

  /** The whole of what the first segment of `stop` does to the job, its files and nothing else. */
  lemma StopRecord(s: State, j: Id, a: Answer)
    requires j in s.jobs && !s.jobs[j].Stops() && a.saved
    ensures var r := BeginStop(s, j, a);
            && r.threads == s.threads && r.active == s.active && r.closing == s.closing && r.epoch == s.epoch
            && r.jobs == s.jobs[j := s.jobs[j].(status := Stopping, waiting := Nobody, pauseId := None,
                                                stopper := if s.jobs[j].rpc then Cancelling else AwaitingBrowser,
                                                owner := if a.stopJobFile then User else s.jobs[j].owner)]
            && r.current == (if a.stopSharedFile && s.current.browser == Some(j) then Runtime(Some(j), User) else s.current)
  {
    hide MarkStopping; hide SecureIf; hide Revoke;
    RevokeFacts(Halt(s, j), j, a.OfStop());
    var revoked := Revoke(Halt(s, j), j, a.OfStop());
    MarkedRecord(revoked, j, if s.jobs[j].rpc then Cancelling else AwaitingBrowser, a.OfStop());
  }

  lemma UnsavedRecord(s: State, j: Id, a: Answer)
    requires j in s.jobs && (s.jobs[j].Stops() || !a.saved)
    ensures BeginStop(s, j, a) == if s.jobs[j].Stops() then s else Halt(s, j)
  {
  }

  lemma BeginStopHalts(s: State, k: Id, a: Answer, j: Id)
    requires k in s.jobs && j in s.jobs
    ensures StopStep(s, BeginStop(s, k, a), j, a, k == j)
    ensures BeginStop(s, k, a).threads == s.threads
  {
    hide BeginStop;
    if s.jobs[k].Stops() || !a.saved {
      UnsavedRecord(s, k, a);
    } else {
      StopRecord(s, k, a);
    }
  }

  lemma RevokeFacts(s: State, k: Id, a: Answer)
    requires k in s.jobs
    ensures var r := Revoke(s, k, a);
            && r.jobs == s.jobs[k := s.jobs[k].(owner := if a.jobFile then User else s.jobs[k].owner)]
            && r.threads == s.threads && r.active == s.active && r.closing == s.closing && r.epoch == s.epoch && r.log == s.log
            && r.current == (if a.sharedFile && s.current.browser == Some(k) then Runtime(Some(k), User) else s.current)
  {
  }

  // ---- Handoffs ---------------------------------------------------------------------------------------------------

  lemma LeaveHalts(s: State, t: Id, a: Answer, j: Id)
    requires t in s.threads && s.threads[t].Handoff? && s.threads[t].job in s.jobs && j in s.jobs
    ensures StopStep(s, StopAndLeave(s, t, a), j, a, s.threads[t].job == j)
  {
    hide StopStep; hide BeginStop;
    var k := s.threads[t].job;
    BeginStopHalts(s, k, a, j);
    Aside(s, BeginStop(s, k, a), StopAndLeave(s, t, a), j, a, k == j);
  }

  lemma RevokedHalts(s: State, t: Id, a: Answer, j: Id)
    requires t in s.threads && s.threads[t].Handoff? && s.threads[t].job in s.jobs && j in s.jobs
    ensures var r := Revoke(s, s.threads[t].job, a);
            && t in r.threads && r.threads[t] == s.threads[t] && r.threads[t].job in r.jobs
            && StopStep(s, StopAndLeave(r, t, a), j, a, s.threads[t].job == j)
  {
    hide StopAndLeave; hide Revoke; hide StopStep;
    RevokeFacts(s, s.threads[t].job, a);
    var r := Revoke(s, s.threads[t].job, a);
    LeaveHalts(r, t, a, j);
    Ahead(s, r, StopAndLeave(r, t, a), j, a, s.threads[t].job == j);
  }

  /** The catch block. */
  lemma FailsHalts(s: State, t: Id, a: Answer, j: Id)
    requires t in s.threads && s.threads[t].Handoff? && s.threads[t].job in s.jobs && j in s.jobs
    ensures StopStep(s, Fails(s, t, a), j, a, s.threads[t].job == j && NotLeft(s, s.threads[t], a))
  {
    hide StopAndLeave; hide Revoke; hide Waits; hide StopStep;
    var k := s.threads[t].job;
    if s.jobs[k].Stops() {
      StoppedAlready(s, End(s, t), k, j, a, NotLeft(s, s.threads[t], a));
    } else {
      var r := Revoke(s, k, a);
      RevokeFacts(s, k, a);
      WaitsFacts(r, k, Setup);
      RevokedHalts(s, t, a, j);
      LeaveHalts(s, t, a, j);
      if !NotLeft(s, s.threads[t], a) {
        Calmly(s, if s.threads[t].again then Move(r, t, Retain) else End(Waits(r, k, Setup), t), j, a);
      }
    }
  }

  lemma StoppedAlready(s: State, r: State, k: Id, j: Id, a: Answer, called: bool)
    requires j in s.jobs && k in s.jobs && s.jobs[k].Stops() && r.jobs == s.jobs
    ensures StopStep(s, r, j, a, k == j && called)
  {
  }

  lemma WaitsFacts(s: State, k: Id, w: Waiting)
    requires k in s.jobs
    ensures var r := Waits(s, k, w);
            && r.threads == s.threads && r.active == s.active && r.closing == s.closing && r.current == s.current && r.epoch == s.epoch
            && r.jobs == if s.jobs[k].Stops() || s.active != Some(k) then s.jobs
                         else s.jobs[k := s.jobs[k].(status := Running, phase := AwaitingInput, waiting := w, settling := false)]
  {
  }

  lemma UndoFacts(s: State, t: Id, a: Answer)
    requires t in s.threads && s.threads[t].Handoff?
    ensures Undo(s, t, a).jobs == s.jobs
  {
  }

  lemma ToGrantThrown(s: State, t: Id, a: Answer)
    requires t in s.threads && s.threads[t].Handoff? && s.threads[t].job in s.jobs && Ungranted(s.threads[t].at)
    requires Thrown(s, s.threads[t], a)
    ensures StepToGrant(s, t, a) == Fails(s, t, a)
  {
    hide Fails; hide Undo; hide WriteShared;
  }

  lemma ToGrantHalts(s: State, t: Id, a: Answer, j: Id)
    requires t in s.threads && s.threads[t].Handoff? && s.threads[t].job in s.jobs && j in s.jobs && Ungranted(s.threads[t].at)
    ensures StopStep(s, StepToGrant(s, t, a), j, a, s.threads[t].job == j && HandoffStops(s, s.threads[t], a))
  {
    hide Fails; hide Undo; hide StopStep; hide NotLeft; hide Transits; hide Thrown; hide Ungranted;
    if Thrown(s, s.threads[t], a) {
      ToGrantThrown(s, t, a);
      hide StepToGrant;
      FailsHalts(s, t, a, j);
    } else {
      ToGrantJobs(s, t, a);
      hide StepToGrant;
      Calmly(s, StepToGrant(s, t, a), j, a);
    }
    GrantingIsNotRetaining(s.threads[t]);
  }

  lemma GrantingIsNotRetaining(th: Thread)
    requires th.Handoff? && Ungranted(th.at)
    ensures th.at != Retain
  {
  }

  lemma ToGrantJobs(s: State, t: Id, a: Answer)
    requires t in s.threads && s.threads[t].Handoff? && s.threads[t].job in s.jobs && Ungranted(s.threads[t].at)
    requires !Thrown(s, s.threads[t], a)
    ensures StepToGrant(s, t, a).jobs == s.jobs
  {
    hide Fails; hide Undo; hide WriteShared; hide Transits;
    UndoFacts(s, t, a);
    WritesLeaveJobs(s);
    WritesLeaveJobs(Move(s, t, Login));
  }

  lemma WritesLeaveJobs(s: State)
    ensures forall file :: WriteShared(s, file).jobs == s.jobs
  {
  }

  /** Another record of the job, from whose point of view the catch block is the same. */
  lemma EditedHalts(s: State, m: State, t: Id, a: Answer, j: Id)
    requires t in s.threads && s.threads[t].Handoff? && s.threads[t].job in s.jobs && j in s.jobs
    requires s.threads[t].job in m.jobs && m.jobs == s.jobs[s.threads[t].job := m.jobs[s.threads[t].job]]
    requires m.jobs[s.threads[t].job].stopper == s.jobs[s.threads[t].job].stopper && m.jobs[s.threads[t].job].rpc == s.jobs[s.threads[t].job].rpc
    requires m.threads == s.threads && m.active == s.active && m.closing == s.closing && m.epoch == s.epoch && m.current == s.current
    ensures StopStep(s, Fails(m, t, a), j, a, s.threads[t].job == j && NotLeft(s, s.threads[t], a))
  {
    hide Fails; hide StopStep;
    FailsHalts(m, t, a, j);
    Ahead(s, m, Fails(m, t, a), j, a, s.threads[t].job == j && NotLeft(s, s.threads[t], a));
  }

  lemma LaunchHalts(s: State, t: Id, a: Answer, j: Id)
    requires t in s.threads && s.threads[t].Handoff? && s.threads[t].job in s.jobs && j in s.jobs
    requires s.threads[t].again ==> Holds(s.current, s.threads[t].job)
    ensures StopStep(s, Launch(s, t, a), j, a, s.threads[t].job == j && a.reach < 3 && NotLeft(s, s.threads[t], a))
  {
    hide Fails; hide StopStep; hide NotLeft;
    var th := s.threads[t];
    var k := th.job;
    var live := if th.again then s else WithJob(s, k, s.jobs[k].(status := Running, phase := Executing, waiting := Nobody));
    var granted := Note(WithJob(live, k, live.jobs[k].(owner := Agent)), Granted(k, false));
    var executing := if th.again then Resumed(granted, k) else granted;
    if a.reach < 3 {
      EditedHalts(s, live, t, a, j);
      EditedHalts(s, granted, t, a, j);
      EditedHalts(s, executing, t, a, j);
    } else {
      Calmly(s, Launch(s, t, a), j, a);
    }
  }

  lemma PrepareHalts(s: State, t: Id, a: Answer, j: Id)
    requires t in s.threads && s.threads[t].Handoff? && s.threads[t].job in s.jobs && j in s.jobs && s.threads[t].at == Prepare
    ensures StopStep(s, StepAfterGrant(s, t, a), j, a, s.threads[t].job == j && HandoffStops(s, s.threads[t], a))
  {
    hide Fails; hide StopStep; hide NotLeft; hide Undo; hide Launch; hide StopAndLeave; hide Waits;
    var k := s.threads[t].job;
    if Thrown(s, s.threads[t], a) {
      FailsHalts(s, t, a, j);
      EditedHalts(s, WithJob(s, k, s.jobs[k].(owner := User, status := PreparationFailed)), t, a, j);
    } else {
      Calmly(s, StepAfterGrant(s, t, a), j, a);
    }
  }

  lemma SessionHalts(s: State, t: Id, a: Answer, j: Id)
    requires t in s.threads && s.threads[t].Handoff? && s.threads[t].job in s.jobs && j in s.jobs && s.threads[t].at == Session
    ensures StopStep(s, StepAfterGrant(s, t, a), j, a, s.threads[t].job == j && HandoffStops(s, s.threads[t], a))
  {
    hide Fails; hide StopStep; hide NotLeft; hide Undo; hide Launch; hide StopAndLeave; hide Waits; hide LaunchPi;
    var k := s.threads[t].job;
    if Thrown(s, s.threads[t], a) {
      FailsHalts(s, t, a, j);
      EditedHalts(s, WithJob(s, k, s.jobs[k].(status := PreparationFailed)), t, a, j);
    } else {
      Calmly(s, StepAfterGrant(s, t, a), j, a);
    }
  }

  lemma RetainHalts(s: State, t: Id, a: Answer, j: Id)
    requires t in s.threads && s.threads[t].Handoff? && s.threads[t].job in s.jobs && j in s.jobs && s.threads[t].at == Retain
    ensures StopStep(s, StepAfterGrant(s, t, a), j, a, s.threads[t].job == j && HandoffStops(s, s.threads[t], a))
  {
    hide Fails; hide StopStep; hide Undo; hide Launch; hide StopAndLeave; hide Waits; hide Thrown; hide NotLeft;
    var k := s.threads[t].job;
    var called := HandoffStops(s, s.threads[t], a);
    WaitsFacts(s, k, Operator);
    if s.jobs[k].Stops() {
      StoppedAlready(s, StepAfterGrant(s, t, a), k, j, a, called);
    } else if called {
      LeaveHalts(s, t, a, j);
    } else {
      Calmly(s, StepAfterGrant(s, t, a), j, a);
    }
  }

  lemma EndingHalts(s: State, t: Id, a: Answer, j: Id)
    requires t in s.threads && s.threads[t].Handoff? && s.threads[t].job in s.jobs && j in s.jobs
    requires s.threads[t].at in {Leaving, Prompting, Undone}
    ensures StopStep(s, StepAfterGrant(s, t, a), j, a, s.threads[t].job == j && HandoffStops(s, s.threads[t], a))
  {
    hide Fails; hide StopStep; hide NotLeft; hide Undo; hide Launch; hide StopAndLeave; hide Waits; hide Thrown; hide LaunchPi; hide Evidence;
    LateThrown(s, s.threads[t], a);
    if s.threads[t].at == Undone || (s.threads[t].at == Prompting && !a.ok) {
      FailsHalts(s, t, a, j);
    } else {
      Calmly(s, StepAfterGrant(s, t, a), j, a);
    }
  }

  lemma LateThrown(s: State, th: Thread, a: Answer)
    requires th.Handoff? && th.job in s.jobs && th.at in {Leaving, Prompting, Undone}
    ensures Thrown(s, th, a) <==> th.at == Undone || (th.at == Prompting && !a.ok)
  {
  }

  lemma AfterGrantHalts(s: State, t: Id, a: Answer, j: Id)
    requires t in s.threads && s.threads[t].Handoff? && s.threads[t].job in s.jobs && j in s.jobs && !Ungranted(s.threads[t].at)
    ensures StopStep(s, StepAfterGrant(s, t, a), j, a, s.threads[t].job == j && HandoffStops(s, s.threads[t], a))
  {
    hide Fails; hide StopStep; hide NotLeft; hide Undo; hide Launch; hide StopAndLeave; hide Waits;
    var th := s.threads[t];
    if th.at == Prepare {
      PrepareHalts(s, t, a, j);
    } else if th.at == Session {
      SessionHalts(s, t, a, j);
    } else if th.at == Retain {
      RetainHalts(s, t, a, j);
    } else if th.at in {Leaving, Prompting, Undone} {
      EndingHalts(s, t, a, j);
    } else if th.at == Final && a.ok && !Cancelled(s, th) && (th.again ==> Holds(s.current, th.job)) {
      LaunchHalts(s, t, a, j);
    } else {
      FailsHalts(s, t, a, j);
      UndoFacts(s, t, a);
      if !Thrown(s, th, a) {
        Calmly(s, StepAfterGrant(s, t, a), j, a);
      }
    }
  }

  lemma HandoffHalts(s: State, t: Id, a: Answer, j: Id)
    requires t in s.threads && s.threads[t].Handoff? && s.threads[t].job in s.jobs && j in s.jobs
    ensures StopStep(s, StepHandoff(s, t, a), j, a, s.threads[t].job == j && HandoffStops(s, s.threads[t], a))
  {
    hide StopStep; hide StepToGrant; hide StepAfterGrant; hide HandoffStops;
    if Ungranted(s.threads[t].at) {
      ToGrantHalts(s, t, a, j);
    } else {
      AfterGrantHalts(s, t, a, j);
    }
  }

  // ---- Starts, pauses and settlements -----------------------------------------------------------------------------

  lemma StartFailsHalts(s: State, t: Id, a: Answer, j: Id)
    requires t in s.threads && s.threads[t].Start? && s.threads[t].job in s.jobs && j in s.jobs
    ensures StopStep(s, StartFails(s, t, a), j, a, s.threads[t].job == j)
  {
    hide StopStep; hide BeginStop;
    var k := s.threads[t].job;
    BeginStopHalts(s, k, a, j);
    Aside(s, BeginStop(s, k, a), StartFails(s, t, a), j, a, k == j);
  }

  lemma StepStartHalts(s: State, t: Id, a: Answer, j: Id)
    requires t in s.threads && s.threads[t].Start? && s.threads[t].job in s.jobs && j in s.jobs
    ensures var th := s.threads[t];
            StopStep(s, StepStart(s, t, a), j, a, th.job == j && StartStops(s, j, th.startAt, th.good, a))
  {
    hide StopStep; hide StartFails; hide Waits;
    var th := s.threads[t];
    var k := th.job;
    if th.startAt != Provisioned {
      Calmly(s, StepStart(s, t, a), j, a);
    } else if !a.ok || !th.good || StartCancelled(s, k) {
      StartFailsHalts(s, t, a, j);
      if s.jobs[k].Stops() {
        StoppedStart(s, t, a, k, j, StartStops(s, j, th.startAt, th.good, a));
      }
    } else {
      var m := WithJob(s, k, s.jobs[k].(owner := User));
      WaitsFacts(m, k, Setup);
      var r := Waits(m, k, Setup);
      if a.reach == 0 {
        StartFailsHalts(r, t, a, j);
        Ahead(s, r, StartFails(r, t, a), j, a, k == j);
      } else {
        Calmly(s, End(r, t), j, a);
      }
    }
  }

  /** A stop already begun is simply returned. */
  lemma StoppedStart(s: State, t: Id, a: Answer, k: Id, j: Id, called: bool)
    requires t in s.threads && s.threads[t].Start? && s.threads[t].job == k && k in s.jobs && j in s.jobs && s.jobs[k].Stops()
    ensures StopStep(s, StartFails(s, t, a), j, a, k == j && called)
  {
    UnsavedRecord(s, k, a);
    hide BeginStop;
  }

  lemma PauseFailsHalts(s: State, t: Id, a: Answer, j: Id)
    requires t in s.threads && s.threads[t].Pause? && s.threads[t].job in s.jobs && j in s.jobs
    ensures StopStep(s, PauseFails(s, t, a), j, a, s.threads[t].job == j)
  {
    hide StopStep; hide BeginStop;
    var k := s.threads[t].job;
    if s.jobs[k].Stops() {
      StoppedAlready(s, PauseFails(s, t, a), k, j, a, true);
    } else {
      BeginStopHalts(s, k, a, j);
      Aside(s, BeginStop(s, k, a), PauseFails(s, t, a), j, a, k == j);
    }
  }

  lemma PausedFacts(s: State, k: Id)
    requires k in s.jobs
    ensures Paused(s, k).jobs == s.jobs[k := s.jobs[k].(pauseId := Some(s.next))]
    ensures Paused(s, k).threads == s.threads && Paused(s, k).active == s.active && Paused(s, k).current == s.current
  {
  }

  lemma StepPauseHalts(s: State, t: Id, a: Answer, j: Id)
    requires t in s.threads && s.threads[t].Pause? && s.threads[t].job in s.jobs && j in s.jobs
    ensures var th := s.threads[t]; StopStep(s, StepPause(s, t, a), j, a, th.job == j && PauseStops(s, j, th.pauseAt, a))
  {
    hide StopStep; hide PauseFails; hide Waits; hide Paused;
    var th := s.threads[t];
    var k := th.job;
    if th.pauseAt == PauseLeaving {
      Calmly(s, StepPause(s, t, a), j, a);
    } else if s.jobs[k].Stops() {
      StoppedPause(s, t, a, k, j, PauseStops(s, j, th.pauseAt, a));
    } else if !(a.ok && a.evidence && !StartCancelled(s, k) && Evidence(s, k, User)) {
      PauseFailsHalts(s, t, a, j);
    } else if th.pauseAt == CancellingPi {
      Calmly(s, StepPause(s, t, a), j, a);
    } else {
      PausedHalts(s, t, a, j);
    }
  }

  lemma PausedHalts(s: State, t: Id, a: Answer, j: Id)
    requires t in s.threads && s.threads[t].Pause? && s.threads[t].job in s.jobs && j in s.jobs && s.threads[t].pauseAt == CheckingIdle
    requires var k := s.threads[t].job; a.ok && a.evidence && !StartCancelled(s, k) && Evidence(s, k, User)
    ensures StopStep(s, StepPause(s, t, a), j, a, s.threads[t].job == j && a.reach == 0)
  {
    hide StopStep; hide PauseFails; hide Waits; hide Paused;
    var k := s.threads[t].job;
    PausedFacts(s, k);
    WaitsFacts(Paused(s, k), k, Operator);
    var r := Waits(Paused(s, k), k, Operator);
    if a.reach == 0 {
      PauseFailsHalts(r, t, a, j);
      Ahead(s, r, PauseFails(r, t, a), j, a, k == j);
    } else {
      Calmly(s, End(r, t), j, a);
    }
  }

  lemma StoppedPause(s: State, t: Id, a: Answer, k: Id, j: Id, called: bool)
    requires t in s.threads && s.threads[t].Pause? && s.threads[t].job == k && k in s.jobs && j in s.jobs && s.jobs[k].Stops()
    requires s.threads[t].pauseAt != PauseLeaving
    ensures StopStep(s, StepPause(s, t, a), j, a, k == j && called)
  {
  }

  lemma DropHalts(s: State, t: Id, k: Id, a: Answer, j: Id)
    requires k in s.jobs && j in s.jobs
    ensures StopStep(s, StopAndDrop(s, t, k, a), j, a, k == j)
  {
    hide StopStep; hide BeginStop;
    BeginStopHalts(s, k, a, j);
    Aside(s, BeginStop(s, k, a), StopAndDrop(s, t, k, a), j, a, k == j);
  }

  lemma StepSettleHalts(s: State, t: Id, a: Answer, j: Id)
    requires t in s.threads && s.threads[t].Settle? && s.threads[t].job in s.jobs && j in s.jobs
    ensures var th := s.threads[t]; StopStep(s, StepSettle(s, t, a), j, a, th.job == j && SettleStops(s, j, th.settleAt, a))
  {
    hide StopStep; hide StopAndDrop; hide Waits; hide Paused; hide Revoke;
    var th := s.threads[t];
    var k := th.job;
    DropHalts(s, t, k, a, j);
    if s.jobs[k].Stops() {
      StoppedSettle(s, t, a, k, j, SettleStops(s, j, th.settleAt, a));
    } else if th.settleAt == Costing && a.ok && a.more {
      CostedHalts(s, t, a, j);
    } else if th.settleAt == Retaining && a.ok && !StartCancelled(s, k) && a.evidence && Evidence(s, k, User) {
      PausedFacts(s, k);
      WaitsFacts(Paused(s, k), k, Operator);
      var r := Waits(Paused(s, k), k, Operator);
      DropHalts(r, t, k, a, j);
      if a.reach == 0 {
        Ahead(s, r, StopAndDrop(r, t, k, a), j, a, k == j);
      } else {
        Calmly(s, Drop(r, t), j, a);
      }
    } else if a.ok && th.settleAt != Reading && (th.settleAt == Costing || StartCancelled(s, k)) {
      Calmly(s, StepSettle(s, t, a), j, a);
    }
  }

  lemma CostedHalts(s: State, t: Id, a: Answer, j: Id)
    requires t in s.threads && s.threads[t].Settle? && s.threads[t].job in s.jobs && j in s.jobs
    requires s.threads[t].settleAt == Costing && a.ok && a.more && !s.jobs[s.threads[t].job].Stops()
    ensures StopStep(s, StepSettle(s, t, a), j, a, s.threads[t].job == j && SettleStops(s, j, Costing, a))
  {
    hide StopStep; hide StopAndDrop; hide Revoke;
    var k := s.threads[t].job;
    var m := WithJob(s, k, s.jobs[k].(phase := Pausing, waiting := Nobody));
    var r := Revoke(m, k, a);
    RevokeFacts(m, k, a);
    DropHalts(r, t, k, a, j);
    if Revokes(a) && a.evidence && s.current.browser == Some(k) {
      Calmly(s, StepSettle(s, t, a), j, a);
    } else {
      Ahead(s, r, StopAndDrop(r, t, k, a), j, a, k == j);
    }
  }

  lemma StoppedSettle(s: State, t: Id, a: Answer, k: Id, j: Id, called: bool)
    requires t in s.threads && s.threads[t].Settle? && s.threads[t].job == k && k in s.jobs && j in s.jobs && s.jobs[k].Stops()
    ensures StopStep(s, StepSettle(s, t, a), j, a, k == j && called)
  {
    hide Waits; hide Paused; hide Revoke; hide MarkStopping; hide SecureIf;
  }

  // ---- One step -----------------------------------------------------------------------------------------------------

  lemma OtherThreadCalm(s: State, t: Id, a: Answer, j: Id)
    requires t in s.threads && JobKnown(s, t) && j in s.jobs
    requires var th := s.threads[t]; th.Upload? || th.Save? || th.Clear? || th.Steer?
    ensures StopStep(s, StepThread(s, t, a), j, a, false)
  {
  }

  lemma ThreadHalts(s: State, t: Id, a: Answer, j: Id)
    requires t in s.threads && JobKnown(s, t) && j in s.jobs
    ensures StopStep(s, StepThread(s, t, a), j, a, ThreadStops(s, s.threads[t], j, a))
  {
    hide StopStep; hide StepStart; hide StepHandoff; hide StepPause; hide StepSettle; hide HandoffStops; hide StartStops; hide PauseStops;
    hide SettleStops;
    var th := s.threads[t];
    if th.Start? {
      StepStartHalts(s, t, a, j);
    } else if th.Handoff? {
      HandoffHalts(s, t, a, j);
    } else if th.Pause? {
      StepPauseHalts(s, t, a, j);
    } else if th.Settle? {
      StepSettleHalts(s, t, a, j);
    } else {
      OtherThreadCalm(s, t, a, j);
    }
  }

  lemma BeginStartHalts(s: State, k: Id, a: Answer, j: Id)
    requires j in s.jobs && s.next !in s.threads
    ensures StopStep(s, BeginStart(s, k, a), j, a, CallsStop(s, PostStart(k, a), j))
  {
    hide StopStep; hide StartFails;
    var r := BeginStart(s, k, a);
    if a.more || !(a.ok && !s.closing && !s.resetting && !s.busy && s.active.None? && k in s.jobs
                   && s.jobs[k].status == Uploaded && s.jobs[k].context == s.context.generation
                   && (s.context.generation.Some? ==> s.context.job == Some(k))) {
      Calmly(s, r, j, a);
    } else {
      var live := Activate(s, k, s.jobs[k].(status := Running, phase := BrowserStarting, provisioning := a.more, waiting := Nobody));
      var m := Spawn(live, Start(k, Provision, s.current, true));
      StartFailsHalts(m, s.next, a, j);
      Ahead(s, m, r, j, a, k == j);
    }
  }

  lemma BeginReturnHalts(s: State, k: Id, a: Answer, j: Id)
    requires j in s.jobs
    ensures StopStep(s, BeginReturn(s, k, a), j, a, CallsStop(s, PostAnswer(k, a), j))
  {
    hide StopStep; hide Fails;
    var r := BeginReturn(s, k, a);
    if !Idle(s, k) || !a.ok || s.jobs[k].rpc || s.jobs[k].phase != AwaitingInput || s.jobs[k].waiting != Setup {
      Calmly(s, s, j, a);
    } else {
      var th := Handoff(k, s.epoch, false, ReadTarget, s.current, false);
      var m := SpawnTimed(s, th);
      if a.more && !Cancelled(s, th) {
        Calmly(s, m, j, a);
      } else {
        FailsHalts(m, s.next, a, j);
        Ahead(s, m, r, j, a, k == j && NotLeft(m, th, a));
      }
    }
  }

  lemma BeginResumeHalts(s: State, k: Id, pauseId: Option<Id>, a: Answer, j: Id)
    requires j in s.jobs
    ensures StopStep(s, BeginResume(s, k, pauseId, a), j, a, CallsStop(s, PostResume(k, pauseId, a), j))
  {
    hide StopStep; hide Fails;
    var r := BeginResume(s, k, pauseId, a);
    if !MayResume(s, k, pauseId, a) || a.reach == 0 {
      Calmly(s, r, j, a);
    } else {
      var th := Handoff(k, s.epoch, true, SameIdle, s.current, false);
      var m := WithJob(SpawnTimed(s, th), k, s.jobs[k].(phase := GivingBack, waiting := Nobody));
      if a.more && Evidence(s, k, User) {
        Calmly(s, m, j, a);
      } else {
        FailsHalts(m, s.next, a, j);
        Ahead(s, m, r, j, a, k == j && NotLeft(m, th, a));
      }
    }
  }

  lemma BeginPauseHalts(s: State, k: Id, generation: Option<Id>, a: Answer, j: Id)
    requires j in s.jobs
    ensures StopStep(s, BeginPause(s, k, generation, a), j, a, CallsStop(s, TakeControl(k, generation, a), j))
  {
    hide StopStep; hide PauseFails; hide Revoke;
    var r := BeginPause(s, k, generation, a);
    if !MayPause(s, k, generation, a) || a.reach == 0 {
      Calmly(s, r, j, a);
    } else {
      var raised := RaiseEpoch(WithJob(s, k, s.jobs[k].(phase := Pausing, waiting := Nobody)));
      var m := Spawn(raised, Pause(k, CancellingPi));
      RevokeFacts(m, k, a);
      var p := Revoke(m, k, a);
      if Revokes(a) {
        Calmly(s, p, j, a);
      } else {
        PauseFailsHalts(p, s.next, a, j);
        Ahead(s, p, r, j, a, k == j);
      }
    }
  }

  lemma RaisedJobs(s: State)
    ensures RaiseEpoch(s).jobs == s.jobs && RaiseEpoch(s).active == s.active && RaiseEpoch(s).current == s.current
  {
  }

  lemma SpawnedJobs(s: State, th: Thread)
    ensures Spawn(s, th).jobs == s.jobs && Spawn(s, th).current == s.current
  {
  }

  lemma BeginClearHalts(s: State, generation: Option<Id>, prepare: bool, replace: bool, requested: Option<Id>, a: Answer, j: Id)
    requires j in s.jobs
    ensures StopStep(s, BeginClear(s, generation, prepare, replace, requested, a), j, a,
                     CallsStop(s, PostClear(generation, prepare, replace, requested, a), j))
  {
    hide StopStep; hide BeginStop; hide RaiseEpoch; hide Spawn;
    var id := if replace || requested.None? then s.context.job else requested;
    var r := BeginClear(s, generation, prepare, replace, requested, a);
    RaisedJobs(s);
    SpawnedJobs(RaiseEpoch(s), Clear(generation, prepare, id, Draining));
    if !a.ok || !MayClear(s, generation, replace, requested, id) || s.active.None? {
      Calmly(s, r, j, a);
    } else {
      SpawnedJobs(BeginStop(RaiseEpoch(s), s.active.value, a), Clear(generation, prepare, s.active, AwaitingStop(s.active.value)));
      var k := s.active.value;
      var m := RaiseEpoch(s);
      BeginStopHalts(m, k, a, j);
      Ahead(s, m, BeginStop(m, k, a), j, a, k == j);
      Aside(s, BeginStop(m, k, a), r, j, a, k == j);
    }
  }

  lemma StopLiveHalts(s: State, m: State, a: Answer, j: Id)
    requires j in s.jobs && m.jobs == s.jobs && m.active == s.active && (s.active.Some? ==> s.active.value in s.jobs)
    ensures StopStep(s, StopLive(m, m.active, a), j, a, s.active == Some(j))
  {
    hide StopStep; hide BeginStop;
    if m.active.Some? {
      BeginStopHalts(m, m.active.value, a, j);
      Ahead(s, m, BeginStop(m, m.active.value, a), j, a, m.active.value == j);
    } else {
      Calmly(s, m, j, a);
    }
  }

  lemma QuietHalts(s: State, e: Event, j: Id)
    requires Inv(s) && j in s.jobs && Referenced(s)
    requires e.PostJob? || e.UploadWorkbook? || e.SaveWorkbook? || e.AgentSettled? || e.PostSteer?
    ensures StopStep(s, Next(s, e), j, e.answer, false)
  {
    hide JobOk; hide ThreadOk; hide Exclusive; hide Lawful; hide Older; hide Bumps; hide JobKnown;
    assert j < s.next;
    hide Inv;
  }

  lemma SecureJobs(s: State, k: Id, a: Answer)
    ensures var r := SecureIf(s, k, a); r.jobs == s.jobs && r.current == s.current && r.active == s.active && r.threads == s.threads
  {
  }

  /** The record of a job after the next segment of its stop. */
  function StoppedFurther(job: Job, a: Answer): Job {
    match job.stopper
    case Cancelling => job.(stopper := AwaitingBrowser)
    case AwaitingBrowser =>
      if job.provisioning then job else job.(stopper := Cleaning, owner := if a.jobFile then User else job.owner)
    case Cleaning => job.(phase := Settled, status := Ended, stopper := if a.saved then Complete else Rejected)
    case _ => job
  }

  lemma StepStopRecord(s: State, k: Id, a: Answer)
    requires k in s.jobs
    ensures var r, job := StepStop(s, k, a), s.jobs[k];
            && r.jobs == s.jobs[k := StoppedFurther(job, a)] && r.threads == s.threads
            && r.active == (if job.stopper == Cleaning && a.saved && s.active == Some(k) then None else s.active)
            && r.current == (if job.stopper == AwaitingBrowser && !job.provisioning && a.sharedFile && s.current.browser == Some(k)
                             then Runtime(Some(k), User) else s.current)
  {
    hide SecureIf; hide Revoke;
    var job := s.jobs[k];
    assert s.jobs == s.jobs[k := job];
    if job.stopper == AwaitingBrowser && !job.provisioning {
      RevokeFacts(s, k, a);
      var r := Revoke(s, k, a);
      SecureJobs(WithJob(r, k, r.jobs[k].(stopper := Cleaning)), k, a);
    }
  }

  lemma StepStopHalts(s: State, k: Id, a: Answer, j: Id)
    requires k in s.jobs && j in s.jobs
    ensures StopStep(s, StepStop(s, k, a), j, a, false)
  {
    hide StepStop; hide StopStep;
    StepStopRecord(s, k, a);
    Calmly(s, StepStop(s, k, a), j, a);
  }

  /** Every step of the controller, and every job. */
  lemma NextHalts(s: State, e: Event, j: Id)
    requires Inv(s) && j in s.jobs
    ensures Referenced(s) && StopStep(s, Next(s, e), j, e.answer, CallsStop(s, e, j))
  {
    InvIdle(s);
    NextIsFree(s);
    if e.PostJob? || e.UploadWorkbook? || e.SaveWorkbook? || e.AgentSettled? || e.PostSteer? {
      QuietHalts(s, e, j);
    } else {
      hide *;
      RequestHalts(s, e, j);
    }
  }

  lemma NextIsFree(s: State)
    requires Inv(s)
    ensures s.next !in s.threads
  {
  }

  lemma RequestHalts(s: State, e: Event, j: Id)
    requires Referenced(s) && j in s.jobs && s.next !in s.threads
    requires !e.PostJob? && !e.UploadWorkbook? && !e.SaveWorkbook? && !e.AgentSettled? && !e.PostSteer?
    ensures StopStep(s, Next(s, e), j, e.answer, CallsStop(s, e, j))
  {
    hide StopStep; hide BeginStart; hide BeginReturn; hide BeginResume; hide BeginPause; hide BeginClear; hide BeginStop; hide StepStop;
    hide StepThread; hide ThreadStops; hide Accepts; hide StopLive;
    if e.PostStart? {
      BeginStartHalts(s, e.job, e.answer, j);
    } else if e.PostAnswer? {
      BeginReturnHalts(s, e.job, e.answer, j);
    } else if e.PostResume? {
      BeginResumeHalts(s, e.job, e.pauseId, e.answer, j);
    } else if e.TakeControl? {
      BeginPauseHalts(s, e.job, e.generation, e.answer, j);
    } else if e.PostClear? {
      BeginClearHalts(s, e.generation, e.prepare, e.replace, e.requested, e.answer, j);
    } else if e.StopAll? || e.Shutdown? {
      StopLiveHalts(s, if e.StopAll? then RaiseEpoch(s) else Close(s), e.answer, j);
    } else if e.Continue? && e.thread in s.threads {
      ThreadHalts(s, e.thread, e.answer, j);
    } else if e.ContinueStop? && e.job in s.jobs {
      StepStopHalts(s, e.job, e.answer, j);
    } else if (e.PostStop? || e.Trouble?) && s.active == Some(e.job) {
      BeginStopHalts(s, e.job, e.answer, j);
    } else {
      Calmly(s, s, j, e.answer);
    }
  }

  // ---- All runs -----------------------------------------------------------------------------------------------------

  /**
   * In every run and for every job: a step makes the job begin to stop exactly if its handler calls `stop` for it and
   * the job's record can be saved; and then each runtime file whose write succeeds is no longer the agent's.
   */
  lemma StopsExactlyWhenCalled(es: seq<Event>, e: Event, j: Id)
    requires j in Run(es).jobs
    ensures var s, r := Run(es), Run(es + [e]);
            && j in r.jobs && (r.jobs[j].Stops() <==> s.jobs[j].Stops() || (CallsStop(s, e, j) && e.answer.saved))
            && (CallsStop(s, e, j) && !s.jobs[j].Stops() ==> Halted(r, j, s.jobs[j].rpc, e.answer))
  {
    hide Run; hide Inv; hide Next; hide CallsStop; hide Halted; hide Referenced;
    RunSnoc(es, e);
    NextHalts(Run(es), e, j);
  }

  /** The operator's Stop all, Shutdown, trouble with Pi and Stop of the live job, written out. */
  lemma LiveJobIsStopped(es: seq<Event>, e: Event, j: Id)
    requires Run(es).active == Some(j) && (e.StopAll? || e.Shutdown? || ((e.PostStop? || e.Trouble?) && e.job == j))
    ensures var s, r, a := Run(es), Run(es + [e]), e.answer;
            && j in s.jobs && j in r.jobs && (r.jobs[j].Stops() <==> s.jobs[j].Stops() || a.saved)
            && (!s.jobs[j].Stops() ==> r.jobs[j].status == Stopping && r.jobs[j].waiting == Nobody && r.jobs[j].pauseId.None?)
            && (!s.jobs[j].Stops() && a.saved && a.stopJobFile ==> r.jobs[j].owner != Agent)
            && (!s.jobs[j].Stops() && a.saved && a.stopSharedFile ==> r.current != Runtime(Some(j), Agent))
            && (e.StopAll? ==> r.epoch == s.epoch + 1) && (e.Shutdown? ==> r.closing)
  {
    hide Run; hide Inv;
    RunSnoc(es, e);
    InvIdle(Run(es));
    StopsExactlyWhenCalled(es, e, j);
    if e.StopAll? || e.Shutdown? {
      Announced(Run(es), e);
    }
  }

  lemma Announced(s: State, e: Event)
    requires Referenced(s) && (e.StopAll? || e.Shutdown?)
    ensures e.StopAll? ==> Next(s, e).epoch == s.epoch + 1
    ensures e.Shutdown? ==> Next(s, e).closing
  {
    hide BeginStop;
    var m := if e.StopAll? then RaiseEpoch(s) else Close(s);
    if m.active.Some? {
      StopFrame(m, m.active.value, e.answer);
    }
  }

  lemma StopFrame(s: State, j: Id, a: Answer)
    requires j in s.jobs
    ensures var r := BeginStop(s, j, a); r.epoch == s.epoch && r.closing == s.closing
  {
    hide BeginStop;
    if s.jobs[j].Stops() || !a.saved {
      UnsavedRecord(s, j, a);
    } else {
      StopRecord(s, j, a);
    }
  }

  /** The remaining segments of a stop: Pi, then the starting browser, then the second revocation, then the settled record. */
  lemma StopProceeds(es: seq<Event>, j: Id, a: Answer)
    requires j in Run(es).jobs
    ensures var s, r := Run(es), Run(es + [ContinueStop(j, a)]);
            && j in r.jobs
            && match s.jobs[j].stopper {
                 case Cancelling => r.jobs[j].stopper == AwaitingBrowser
                 case AwaitingBrowser =>
                   if s.jobs[j].provisioning then r.jobs[j] == s.jobs[j]
                   else r.jobs[j].stopper == Cleaning && (a.jobFile ==> r.jobs[j].owner != Agent) && (a.sharedFile ==> !Holds(r.current, j))
                 case Cleaning =>
                   && r.jobs[j].status == Ended && r.jobs[j].phase == Settled && r.jobs[j].stopper == (if a.saved then Complete else Rejected)
                   && (s.active == Some(j) ==> r.active == if a.saved then None else Some(j))
                 case _ => r.jobs[j] == s.jobs[j] && r.active == s.active
               }
  {
    hide Run; hide Inv; hide StepStop;
    RunSnoc(es, ContinueStop(j, a));
    StepStopRecord(Run(es), j, a);
  }
}
