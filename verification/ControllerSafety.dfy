// Every event keeps the controller's invariant, and what follows for all runs.
module ControllerSafety {
  import opened Wrappers
  import opened ControllerState
  import opened ControllerMoves
  import opened JobController

  /** Nothing but jobs, the owner of the shared file and the log differs. */
  predicate SameControl(s: State, r: State) {
    && r.threads == s.threads && r.active == s.active && r.busy == s.busy && r.closing == s.closing
    && r.resetting == s.resetting && r.epoch == s.epoch && r.context == s.context && r.next == s.next
    && r.jobs.Keys == s.jobs.Keys && r.current.browser == s.current.browser
  }

  lemma RevokeKeeps(s: State, j: Id, a: Answer)
    requires Inv(s) && j in s.jobs
    ensures var r := Revoke(s, j, a);
            && Inv(r) && SameControl(s, r) && r.log == s.log
            && r.jobs[j] == s.jobs[j].(owner := if a.jobFile then User else s.jobs[j].owner)
            && (a.sharedFile ==> !Holds(r.current, j))
  {
    hide Inv;
    var own := if a.jobFile then WithJob(s, j, s.jobs[j].(owner := User)) else s;
    if a.jobFile {
      EditKeeps(s, j, s.jobs[j].(owner := User));
    }
    if a.sharedFile && s.current.browser == Some(j) {
      CurrentKeeps(own, s.current.(owner := User));
    }
  }

  lemma SecureIfKeeps(s: State, j: Id, a: Answer)
    requires Inv(s) && j in s.jobs && s.jobs[j].Stops()
    requires (a.jobFile ==> s.jobs[j].owner != Agent) && (a.sharedFile ==> !Holds(s.current, j))
    ensures var r := SecureIf(s, j, a); Inv(r) && SameControl(s, r) && r.jobs == s.jobs
  {
    hide Inv;
    if a.jobFile {
      SecuredKeeps(s, j, false);
    }
    var own := if a.jobFile then Note(s, Secured(j, false)) else s;
    if a.sharedFile {
      SecuredKeeps(own, j, true);
    }
  }

  lemma StopMarkKeeps(s: State, j: Id, a: Answer, stopper: Stopper)
    requires Inv(s) && j in s.jobs && !s.jobs[j].Stops() && s.jobs[j].status != Uploaded
    requires stopper == Cancelling || stopper == AwaitingBrowser
    ensures var r := SecureIf(MarkStopping(Revoke(s, j, a), j, stopper), j, a);
            && Inv(r) && SameControl(s, r) && r.jobs[j].rpc == s.jobs[j].rpc && r.jobs[j].status != Uploaded && r.jobs[j].Stops()
  {
    hide Inv;
    var revoked := Revoke(s, j, a);
    RevokeKeeps(s, j, a);
    hide Revoke;
    MarkStoppingKeeps(revoked, j, stopper);
    SecureIfKeeps(MarkStopping(revoked, j, stopper), j, a);
  }

  /** The record of a job that is about to stop. */
  lemma HaltKeeps(s: State, j: Id)
    requires Inv(s) && j in s.jobs && !s.jobs[j].Stops()
    ensures var r := WithJob(s, j, s.jobs[j].(status := Stopping, waiting := Nobody, pauseId := None));
            && Inv(r) && SameControl(s, r) && j in r.jobs && r.jobs[j] == s.jobs[j].(status := Stopping, waiting := Nobody, pauseId := None)
  {
    hide Inv;
    EditKeeps(s, j, s.jobs[j].(status := Stopping, waiting := Nobody, pauseId := None));
  }

  /** What BeginStop leaves behind. */
  lemma BeginStopKeeps(s: State, j: Id, a: Answer)
    requires Inv(s) && j in s.jobs && s.jobs[j].status != Uploaded
    ensures var r := BeginStop(s, j, a);
            && Inv(r) && SameControl(s, r) && r.jobs[j].rpc == s.jobs[j].rpc && r.jobs[j].status != Uploaded
            && (s.jobs[j].Stops() ==> r == s) && (a.saved ==> r.jobs[j].Stops())
            && (!r.jobs[j].Stops() ==> r.jobs[j].waiting == Nobody)
  {
    hide Inv; hide SecureIf; hide MarkStopping; hide Revoke; hide WithJob;
    var job := s.jobs[j];
    if !job.Stops() {
      var halted := WithJob(s, j, job.(status := Stopping, waiting := Nobody, pauseId := None));
      HaltKeeps(s, j);
      if a.saved {
        StopMarkKeeps(halted, j, a.OfStop(), if job.rpc then Cancelling else AwaitingBrowser);
      }
    }
  }

  /** The second revocation, after the browser promise settled. */
  lemma CleaningKeeps(s: State, j: Id, a: Answer)
    requires Inv(s) && j in s.jobs && s.jobs[j].stopper == AwaitingBrowser
    ensures var r := Revoke(s, j, a); Inv(SecureIf(WithJob(r, j, r.jobs[j].(stopper := Cleaning)), j, a))
  {
    hide Inv; hide SecureIf;
    RevokeKeeps(s, j, a);
    var r := Revoke(s, j, a);
    hide Revoke;
    EditKeeps(r, j, r.jobs[j].(stopper := Cleaning));
    SecureIfKeeps(WithJob(r, j, r.jobs[j].(stopper := Cleaning)), j, a);
  }

  lemma StepStopKeeps(s: State, j: Id, a: Answer)
    requires Inv(s) && j in s.jobs
    ensures Inv(StepStop(s, j, a))
  {
    hide Inv; hide SecureIf; hide Revoke;
    var job := s.jobs[j];
    if job.stopper == Cancelling {
      EditKeeps(s, j, job.(stopper := AwaitingBrowser));
    } else if job.stopper == AwaitingBrowser {
      CleaningKeeps(s, j, a);
    } else if job.stopper == Cleaning && a.saved {
      FinishKeeps(s, j, job.(phase := Settled, status := Ended, stopper := Complete));
    } else if job.stopper == Cleaning {
      EditKeeps(s, j, job.(phase := Settled, status := Ended, stopper := Rejected));
    }
  }

  lemma InvJob(s: State, j: Id)
    requires Inv(s) && j in s.jobs
    ensures JobOk(s, j)
  {
  }

  lemma InvThread(s: State, t: Id)
    requires Inv(s) && t in s.threads
    ensures JobKnown(s, t) && ThreadOk(s, t) && t < s.next
    ensures s.threads[t].Holder() ==> s.busy && forall u <- s.threads :: s.threads[u].Holder() ==> u == t
  {
  }

  lemma InvIdle(s: State)
    requires Inv(s)
    ensures Referenced(s) && (s.closing <==> Closed in s.log) && s.epoch == Bumps(s.log) && s.next !in s.threads
    ensures s.active.Some? ==> s.active.value in s.jobs && s.jobs[s.active.value].status != Uploaded
    ensures !s.busy && s.active.Some? ==> HandsOff(s, s.active.value)
  {
    if s.active.Some? {
      assert JobOk(s, s.active.value);
    }
  }

  // ---- Building blocks ------------------------------------------------------------------------------------------

  lemma WaitsKeeps(s: State, j: Id, w: Waiting)
    requires Inv(s) && j in s.jobs && s.jobs[j].owner != Agent && !Holds(s.current, j)
    ensures var r := Waits(s, j, w);
            Inv(r) && SameControl(s, r) && r.log == s.log && r.current == s.current && r.jobs[j].owner == s.jobs[j].owner
  {
    hide Inv;
    if !s.jobs[j].Stops() && s.active == Some(j) {
      InvIdle(s);
      EditKeeps(s, j, s.jobs[j].(status := Running, phase := AwaitingInput, waiting := w, settling := false));
    }
  }

  /** A holder ends: its job either stops, waits for nobody, or is out of the agent's hands. */
  lemma HolderEnds(s: State, t: Id, j: Id)
    requires Inv(s) && t in s.threads && s.threads[t].Holder() && j in s.jobs && Only(s, j)
    requires s.jobs[j].Stops() || s.jobs[j].waiting == Nobody || (s.jobs[j].owner != Agent && !Holds(s.current, j))
    ensures Inv(End(s, t))
  {
    hide Inv;
    EndKeeps(s, t);
  }

  lemma HandoffKeeps(s: State, t: Id, th: Thread)
    requires Inv(s) && t in s.threads && s.threads[t].Handoff? && th.Handoff? && th.job in s.jobs
    requires th.job == s.threads[t].job && th.epoch == s.threads[t].epoch && th.again == s.threads[t].again
    requires HandoffOk(s, th.job, th.again, th.at, th.seen)
    ensures Inv(WithThread(s, t, th))
  {
    InvThread(s, t);
    var r := WithThread(s, t, th);
    hide Inv; hide HandoffOk; hide EpochOk;
    assert HandoffOk(r, th.job, th.again, th.at, th.seen) by {
      SameHandoff(s, r, th.job, th.again, th.at, th.seen);
    }
    ThreadKeeps(s, t, th);
  }

  lemma SameHandoff(s: State, r: State, j: Id, again: bool, at: HandoffPoint, seen: Runtime)
    requires j in s.jobs && r.jobs == s.jobs && r.current == s.current && r.log == s.log && HandoffOk(s, j, again, at, seen)
    ensures HandoffOk(r, j, again, at, seen)
  {
  }

  lemma HandoffFacts(s: State, t: Id)
    requires Inv(s) && t in s.threads && s.threads[t].Handoff?
    ensures var th := s.threads[t];
            && th.job in s.jobs && Only(s, th.job) && s.jobs[th.job].status != Uploaded && s.busy
            && EpochOk(s.log, t, th.epoch) && HandoffOk(s, th.job, th.again, th.at, th.seen)
  {
    InvThread(s, t);
  }

  // ---- The handoff ------------------------------------------------------------------------------------------------

  lemma StopAndLeaveKeeps(s: State, t: Id, a: Answer)
    requires Inv(s) && t in s.threads && s.threads[t].Handoff? && s.threads[t].job in s.jobs
    ensures Inv(StopAndLeave(s, t, a))
  {
    hide Inv; hide EpochOk;
    HandoffFacts(s, t);
    var th := s.threads[t];
    var j := th.job;
    var r := BeginStop(s, j, a);
    BeginStopKeeps(s, j, a);
    hide BeginStop; hide HandoffOk;
    if r.jobs[j].Stops() {
      LeavesOk(s, t, r);
      HandoffKeeps(r, t, th.(at := Leaving));
    } else {
      HolderEnds(r, t, j);
    }
  }

  lemma LeavesOk(s: State, t: Id, r: State)
    requires t in s.threads && s.threads[t].Handoff? && s.threads[t].job in r.jobs
    ensures HandoffOk(r, s.threads[t].job, s.threads[t].again, Leaving, s.threads[t].seen)
    ensures s.threads[t].again ==> HandoffOk(r, s.threads[t].job, true, Retain, s.threads[t].seen)
    ensures HandoffOk(r, s.threads[t].job, s.threads[t].again, Undone, s.threads[t].seen)
    ensures r.jobs[s.threads[t].job].waiting == Nobody ==> HandoffOk(r, s.threads[t].job, s.threads[t].again, Prompting, s.threads[t].seen)
  {
  }

  lemma FailsKeeps(s: State, t: Id, a: Answer)
    requires Inv(s) && t in s.threads && s.threads[t].Handoff? && s.threads[t].job in s.jobs
    ensures Inv(Fails(s, t, a))
  {
    hide Inv; hide EpochOk; hide HandoffOk; hide StopAndLeave;
    HandoffFacts(s, t);
    var th := s.threads[t];
    var j := th.job;
    if s.jobs[j].Stops() {
      HolderEnds(s, t, j);
    } else if !th.again && (s.jobs[j].rpc || Cancelled(s, th)) {
      StopAndLeaveKeeps(s, t, a);
    } else {
      var r := Revoke(s, j, a);
      RevokeKeeps(s, j, a);
      hide Revoke;
      StopAndLeaveKeeps(r, t, a);
      if th.again {
        LeavesOk(s, t, r);
        HandoffKeeps(r, t, th.(at := Retain));
      } else if Revokes(a) {
        WaitsKeeps(r, j, Setup);
        HolderEnds(Waits(r, j, Setup), t, j);
      }
    }
  }

  lemma UndoKeeps(s: State, t: Id, a: Answer)
    requires Inv(s) && t in s.threads && s.threads[t].Handoff?
    ensures Inv(Undo(s, t, a))
  {
    hide Inv; hide EpochOk; hide HandoffOk;
    HandoffFacts(s, t);
    var th := s.threads[t];
    var file := s.current.(owner := User);
    CurrentKeeps(s, file);
    LeavesOk(s, t, s);
    LeavesOk(s, t, s.(current := file));
    HandoffKeeps(s, t, th.(at := Undone));
    HandoffKeeps(s.(current := file), t, th.(at := Undone));
  }

  /** Every grant and prompt of a handoff that is not cancelled is allowed. */
  lemma MayGrant(s: State, t: Id)
    requires Inv(s) && t in s.threads && s.threads[t].Handoff? && s.threads[t].job in s.jobs && !Cancelled(s, s.threads[t])
    ensures var j := s.threads[t].job;
            Allowed(s.log, Granted(j, true)) && Allowed(s.log, Granted(j, false)) && Allowed(s.log, Prompted(t, j))
  {
    InvJob(s, s.threads[t].job);
    InvIdle(s);
    HandoffFacts(s, t);
    hide Inv; hide Unbroken; hide EpochOk;
    CurrentIsUnbroken(s.log, t);
  }

  /** A write of the shared file by the job's own handoff that does not bring in the agent. */
  lemma WriteKeeps(s: State, t: Id, file: Runtime, th: Thread)
    requires Inv(s) && t in s.threads && s.threads[t].Handoff? && th.Handoff? && th.job in s.jobs
    requires th.job == s.threads[t].job && th.epoch == s.threads[t].epoch && th.again == s.threads[t].again
    requires file.browser == s.current.browser && file.owner != Agent
    requires HandoffOk(s, th.job, th.again, th.at, th.seen)
    ensures Inv(WithThread(WriteShared(s, file), t, th))
  {
    hide Inv; hide EpochOk;
    CurrentKeeps(s, file);
    var r := s.(current := file);
    hide HandoffOk;
    assert HandoffOk(r, th.job, th.again, th.at, th.seen) by {
      HandoffAfterWrite(s, file, th);
    }
    HandoffKeeps(r, t, th);
  }

  lemma HandoffAfterWrite(s: State, file: Runtime, th: Thread)
    requires th.Handoff? && th.job in s.jobs && HandoffOk(s, th.job, th.again, th.at, th.seen)
    requires file.browser == s.current.browser && file.owner != Agent
    ensures HandoffOk(s.(current := file), th.job, th.again, th.at, th.seen)
  {
  }

  /** The next point of a handoff that has not been granted the shared file. */
  lemma PointOk(s: State, t: Id, at: HandoffPoint)
    requires Inv(s) && t in s.threads && s.threads[t].Handoff? && s.threads[t].job in s.jobs && Ungranted(s.threads[t].at)
    requires Ungranted(at) && at != SelectWrite && (at == SameIdle ==> s.threads[t].again)
    requires at == TargetRead ==> s.threads[t].seen.browser != Some(s.threads[t].job) || s.current.browser == Some(s.threads[t].job)
    requires Assigned(at) ==> s.current.browser == Some(s.threads[t].job)
    ensures HandoffOk(s, s.threads[t].job, s.threads[t].again, at, s.threads[t].seen)
  {
    hide EpochOk;
    HandoffFacts(s, t);
  }

  lemma SeeKeeps(s: State, t: Id, at: HandoffPoint)
    requires Inv(s) && t in s.threads && s.threads[t].Handoff? && s.threads[t].job in s.jobs
    requires (s.threads[t].at, at) in {(ReadTarget, TargetRead), (SelectRead, SelectWrite), (Assign, Take)}
    ensures Inv(See(s, t, at))
  {
    hide EpochOk;
    HandoffFacts(s, t);
    hide Inv;
    HandoffKeeps(s, t, s.threads[t].(at := at, seen := s.current));
  }

  lemma PointKeeps(s: State, t: Id, at: HandoffPoint, canWait: bool)
    requires Inv(s) && t in s.threads && s.threads[t].Handoff? && s.threads[t].job in s.jobs && Ungranted(s.threads[t].at)
    requires Ungranted(at) && at != SelectWrite && at != SameIdle && at != TargetRead
    requires Assigned(at) ==> s.current.browser == Some(s.threads[t].job)
    ensures Inv(WithThread(s, t, s.threads[t].(at := at, canWait := canWait)))
  {
    hide Inv; hide HandoffOk;
    PointOk(s, t, at);
    HandoffKeeps(s, t, s.threads[t].(at := at, canWait := canWait));
  }

  lemma HandoffBrowser(s: State, t: Id)
    requires Inv(s) && t in s.threads && s.threads[t].Handoff? && s.threads[t].job in s.jobs
    ensures var th := s.threads[t];
            && (Assigned(th.at) ==> s.current.browser == Some(th.job))
            && (th.at == TargetRead && th.seen.browser == Some(th.job) ==> s.current.browser == Some(th.job))
            && (th.at == SelectWrite ==> th.seen.browser == Some(th.job) && th.seen.owner != Agent)
            && (th.at in {SameIdle, Retain, Reverify, Recheck} ==> th.again)
  {
    HandoffFacts(s, t);
  }

  lemma FirstStepsKeep(s: State, t: Id, a: Answer)
    requires Inv(s) && t in s.threads && s.threads[t].Handoff? && s.threads[t].job in s.jobs
    requires s.threads[t].at in {SameIdle, ReadTarget, TargetRead, SelectRead}
    ensures Inv(StepToGrant(s, t, a))
  {
    hide Inv; hide Fails; hide Undo; hide Cancelled; hide HandoffOk; hide Transits;
    var th := s.threads[t];
    FailsKeeps(s, t, a);
    HandoffBrowser(s, t);
    if th.at == SameIdle {
      PointKeeps(s, t, ReadTarget, true);
    } else if th.at == ReadTarget {
      SeeKeeps(s, t, TargetRead);
    } else if th.at == SelectRead {
      SeeKeeps(s, t, SelectWrite);
    } else if th.seen.browser == Some(th.job) {
      PointKeeps(s, t, SelectRead, th.canWait);
      PointKeeps(s, t, BeforeSafety, th.canWait);
    }
  }

  lemma MiddleStepsKeep(s: State, t: Id, a: Answer)
    requires Inv(s) && t in s.threads && s.threads[t].Handoff? && s.threads[t].job in s.jobs
    requires s.threads[t].at in {SelectWrite, BeforeSafety, Safety, Assign}
    ensures Inv(StepToGrant(s, t, a))
  {
    hide Inv; hide Fails; hide Undo; hide Cancelled; hide HandoffOk; hide Transits;
    var th := s.threads[t];
    FailsKeeps(s, t, a);
    HandoffBrowser(s, t);
    if th.at == SelectWrite {
      var at := if a.more then SelectRead else BeforeSafety;
      PointOk(s, t, at);
      WriteKeeps(s, t, th.seen, th.(at := at));
    } else if th.at == BeforeSafety {
      PointKeeps(s, t, Safety, th.canWait);
    } else if th.at == Safety {
      PointKeeps(s, t, Assign, th.canWait);
    } else {
      SeeKeeps(s, t, Take);
      LeavesOk(s, t, s);
      HandoffKeeps(s, t, th.(at := Undone));
    }
  }

  lemma TakeKeeps(s: State, t: Id, a: Answer)
    requires Inv(s) && t in s.threads && s.threads[t].Handoff? && s.threads[t].job in s.jobs && s.threads[t].at == Take
    ensures Inv(StepToGrant(s, t, a))
  {
    hide Inv; hide Fails; hide Undo; hide Cancelled; hide HandoffOk;
    var th := s.threads[t];
    UndoKeeps(s, t, a);
    HandoffBrowser(s, t);
    PointOk(s, t, Locate);
    WriteKeeps(s, t, s.current.(owner := Returning), th.(at := Locate));
  }

  lemma LocateKeeps(s: State, t: Id, a: Answer)
    requires Inv(s) && t in s.threads && s.threads[t].Handoff? && s.threads[t].job in s.jobs && s.threads[t].at == Locate
    ensures Inv(StepToGrant(s, t, a))
  {
    hide Inv; hide Fails; hide Undo; hide Cancelled; hide HandoffOk;
    var th := s.threads[t];
    UndoKeeps(s, t, a);
    HandoffBrowser(s, t);
    PointOk(s, t, Confirm);
    PointKeeps(s, t, Confirm, th.canWait);
    WriteKeeps(s, t, s.current.(owner := Locating), th.(at := Confirm));
  }

  lemma StepToGrantKeeps(s: State, t: Id, a: Answer)
    requires Inv(s) && t in s.threads && s.threads[t].Handoff? && s.threads[t].job in s.jobs && Ungranted(s.threads[t].at)
    ensures Inv(StepToGrant(s, t, a))
  {
    hide Inv; hide StepToGrant;
    if s.threads[t].at in {SameIdle, ReadTarget, TargetRead, SelectRead} {
      FirstStepsKeep(s, t, a);
    } else if s.threads[t].at in {SelectWrite, BeforeSafety, Safety, Assign} {
      MiddleStepsKeep(s, t, a);
    } else if s.threads[t].at == Take {
      TakeKeeps(s, t, a);
    } else if s.threads[t].at == Locate {
      LocateKeeps(s, t, a);
    } else {
      GrantKeeps(s, t, a);
    }
  }

  lemma UncancelledJob(s: State, t: Id)
    requires t in s.threads && s.threads[t].Handoff? && s.threads[t].job in s.jobs
    ensures !Cancelled(s, s.threads[t]) ==> !s.jobs[s.threads[t].job].Stops()
  {
  }

  /** The step that grants the shared file. */
  lemma GrantKeeps(s: State, t: Id, a: Answer)
    requires Inv(s) && t in s.threads && s.threads[t].Handoff? && s.threads[t].job in s.jobs && s.threads[t].at == Confirm
    ensures Inv(StepToGrant(s, t, a))
  {
    hide Inv; hide EpochOk; hide Undo; hide Cancelled; hide Fails;
    var th := s.threads[t];
    var j := th.job;
    UndoKeeps(s, t, a);
    HandoffFacts(s, t);
    UncancelledJob(s, t);
    if a.ok && !Cancelled(s, th) && Transits(s, th.seen, {Returning, Locating}) {
      HandoffKeeps(s, t, th.(at := Login));
      var m := Move(s, t, Login);
      SharedGrantKeeps(m, t);
      MayGrant(s, t);
      hide Allowed; hide HandoffOk;
      NoteKeeps(m.(current := Runtime(Some(j), Agent)), Granted(j, true));
    }
  }

  /** The next point of a handoff after the grant of the shared file. */
  lemma LaterPointKeeps(s: State, t: Id, at: HandoffPoint)
    requires Inv(s) && t in s.threads && s.threads[t].Handoff? && s.threads[t].job in s.jobs
    requires Follows(s.threads[t].at, s.threads[t].again, at)
    ensures Inv(Move(s, t, at))
  {
    hide Inv; hide EpochOk; hide HandoffOk; hide Follows;
    HandoffFacts(s, t);
    LaterPointOk(s, s.threads[t], at);
    HandoffKeeps(s, t, s.threads[t].(at := at));
  }

  /** The order of the points after the grant. */
  predicate Follows(from: HandoffPoint, again: bool, at: HandoffPoint) {
    match from
    case Login => at == Resolved
    case Resolved => at == Bound
    case Bound => at == if again then Reverify else Prepare
    case Session => at == Relogin
    case Relogin => at == Final
    case Reverify => at == Recheck
    case Recheck => at == Final
    case _ => false
  }

  lemma LaterPointOk(s: State, th: Thread, at: HandoffPoint)
    requires th.Handoff? && th.job in s.jobs && HandoffOk(s, th.job, th.again, th.at, th.seen) && Follows(th.at, th.again, at)
    ensures HandoffOk(s, th.job, th.again, at, th.seen)
  {
  }

  /** A record edit inside a handoff, followed by its failure. */
  lemma EditedFailsKeeps(s: State, t: Id, a: Answer, job: Job)
    requires Inv(s) && t in s.threads && s.threads[t].Handoff? && MayEdit(s, s.threads[t].job, job)
    ensures Inv(WithJob(s, s.threads[t].job, job)) && Inv(Fails(WithJob(s, s.threads[t].job, job), t, a))
  {
    hide Inv; hide Fails;
    EditKeeps(s, s.threads[t].job, job);
    FailsKeeps(WithJob(s, s.threads[t].job, job), t, a);
  }

  lemma LiveRecord(s: State, t: Id)
    requires Inv(s) && t in s.threads && s.threads[t].Handoff? && s.threads[t].job in s.jobs
    ensures s.jobs[s.threads[t].job].status != Uploaded && s.busy && Only(s, s.threads[t].job)
    ensures s.threads[t].at == Final && !s.threads[t].again ==> s.jobs[s.threads[t].job].rpc && FirstPrompt(s.threads[t].job) !in s.log
    ensures s.threads[t].at == Retain ==> s.threads[t].again
  {
    HandoffFacts(s, t);
  }

  lemma PromptedEnds(s: State, t: Id)
    requires Inv(s) && t in s.threads && s.threads[t].Handoff? && s.threads[t].at == Prompting
    ensures Inv(End(s, t))
  {
    HandoffFacts(s, t);
    hide Inv; hide EpochOk;
    HolderEnds(s, t, s.threads[t].job);
  }

  /** The job's copy is granted in the segment of a passed cancellation check. */
  lemma JobCopyGranted(s: State, t: Id)
    requires Inv(s) && t in s.threads && s.threads[t].Handoff? && s.threads[t].job in s.jobs && !Cancelled(s, s.threads[t])
    requires s.threads[t].at == Final
    ensures var j := s.threads[t].job;
            Inv(Note(WithJob(s, j, s.jobs[j].(owner := Agent)), Granted(j, false)))
  {
    hide Inv; hide Allowed; hide HandoffOk; hide EpochOk;
    var j := s.threads[t].job;
    MayGrant(s, t);
    JobGrantKeeps(s, t, s.jobs[j].(owner := Agent));
    NoteKeeps(WithJob(s, j, s.jobs[j].(owner := Agent)), Granted(j, false));
  }

  /** The prompt follows in the same segment. */
  lemma PromptKeeps(s: State, t: Id)
    requires Inv(s) && t in s.threads && s.threads[t].Handoff? && s.threads[t].job in s.jobs && !Cancelled(s, s.threads[t])
    requires s.jobs[s.threads[t].job].waiting == Nobody
    requires !s.threads[t].again ==> s.jobs[s.threads[t].job].rpc && FirstPrompt(s.threads[t].job) !in s.log
    ensures var j := s.threads[t].job; var r := Note(Move(s, t, Prompting), Prompted(t, j));
            Inv(r) && (!s.threads[t].again ==> Inv(Note(r, FirstPrompt(j))))
  {
    hide Inv; hide Allowed; hide HandoffOk; hide EpochOk;
    var j := s.threads[t].job;
    MayGrant(s, t);
    LeavesOk(s, t, s);
    HandoffKeeps(s, t, s.threads[t].(at := Prompting));
    NoteKeeps(Move(s, t, Prompting), Prompted(t, j));
    if !s.threads[t].again {
      FirstPromptKeeps(Note(Move(s, t, Prompting), Prompted(t, j)), t);
    }
  }

  lemma LaunchKeeps(s: State, t: Id, a: Answer)
    requires Inv(s) && t in s.threads && s.threads[t].Handoff? && s.threads[t].job in s.jobs && s.threads[t].at == Final
    requires !Cancelled(s, s.threads[t])
    ensures Inv(Launch(s, t, a))
  {
    hide Inv; hide Fails;
    var th := s.threads[t];
    var j := th.job;
    LiveRecord(s, t);
    var live := if th.again then s else WithJob(s, j, s.jobs[j].(status := Running, phase := Executing, waiting := Nobody));
    if !th.again {
      EditKeeps(s, j, live.jobs[j]);
    }
    FailsKeeps(live, t, a);
    JobCopyGranted(live, t);
    var granted := Note(WithJob(live, j, live.jobs[j].(owner := Agent)), Granted(j, false));
    FailsKeeps(granted, t, a);
    var executing := if th.again then Resumed(granted, j) else granted;
    if th.again {
      EditKeeps(granted, j, executing.jobs[j]);
    }
    FailsKeeps(executing, t, a);
    PromptKeeps(executing, t);
  }

  lemma StepAfterGrantKeeps(s: State, t: Id, a: Answer)
    requires Inv(s) && t in s.threads && s.threads[t].Handoff? && s.threads[t].job in s.jobs && !Ungranted(s.threads[t].at)
    ensures Inv(StepAfterGrant(s, t, a))
  {
    hide StepAfterGrant; hide Inv;
    if s.threads[t].at in {Login, Resolved, Bound, Relogin, Reverify, Recheck} {
      PassingStepsKeep(s, t, a);
    } else if s.threads[t].at in {Prepare, Session} {
      LaunchingStepsKeep(s, t, a);
    } else {
      LastStepsKeep(s, t, a);
    }
  }

  lemma PassingStepsKeep(s: State, t: Id, a: Answer)
    requires Inv(s) && t in s.threads && s.threads[t].Handoff? && s.threads[t].job in s.jobs
    requires s.threads[t].at in {Login, Resolved, Bound, Relogin, Reverify, Recheck}
    ensures Inv(StepAfterGrant(s, t, a))
  {
    hide Inv; hide Fails; hide Undo; hide Cancelled; hide HandoffOk; hide Launch; hide Waits; hide StopAndLeave;
    FailsKeeps(s, t, a);
    UndoKeeps(s, t, a);
    var th := s.threads[t];
    LaterPointKeeps(s, t, match th.at
                          case Login => Resolved
                          case Resolved => Bound
                          case Bound => if th.again then Reverify else Prepare
                          case Reverify => Recheck
                          case _ => Final);
  }

  lemma LaunchingStepsKeep(s: State, t: Id, a: Answer)
    requires Inv(s) && t in s.threads && s.threads[t].Handoff? && s.threads[t].job in s.jobs
    requires s.threads[t].at in {Prepare, Session}
    ensures Inv(StepAfterGrant(s, t, a))
  {
    hide Inv; hide Fails; hide Undo; hide Cancelled; hide HandoffOk; hide Launch; hide Waits; hide StopAndLeave;
    FailsKeeps(s, t, a);
    LiveRecord(s, t);
    var th := s.threads[t];
    var job := s.jobs[th.job];
    if th.at == Prepare {
      LaunchPiKeeps(s, t, job.(rpc := true, owner := User, status := Preparing));
      EditedFailsKeeps(s, t, a, job.(owner := User, status := PreparationFailed));
    } else {
      LaterPointKeeps(s, t, Relogin);
      EditedFailsKeeps(s, t, a, job.(status := PreparationFailed));
    }
  }

  lemma LastStepsKeep(s: State, t: Id, a: Answer)
    requires Inv(s) && t in s.threads && s.threads[t].Handoff? && s.threads[t].job in s.jobs
    requires !Ungranted(s.threads[t].at) && s.threads[t].at !in {Login, Resolved, Bound, Relogin, Reverify, Recheck}
    requires s.threads[t].at !in {Prepare, Session}
    ensures Inv(StepAfterGrant(s, t, a))
  {
    hide Inv; hide Fails; hide Undo; hide HandoffOk; hide Launch; hide StopAndLeave;
    FailsKeeps(s, t, a);
    LiveRecord(s, t);
    var th := s.threads[t];
    var j := th.job;
    if th.at == Final {
      if !Cancelled(s, th) {
        LaunchKeeps(s, t, a);
      }
    } else if th.at == Prompting {
      PromptedEnds(s, t);
    } else if th.at == Retain {
      StopAndLeaveKeeps(s, t, a);
      if s.jobs[j].Stops() {
        HolderEnds(s, t, j);
      } else if Evidence(s, j, User) {
        WaitsKeeps(s, j, Operator);
        HolderEnds(Waits(s, j, Operator), t, j);
      }
    } else if th.at != Undone && Stopped(s, j) {
      HolderEnds(s, t, j);
    }
  }

  // ---- Requests that begin a handoff ------------------------------------------------------------------------------

  lemma BeginHandoffKeeps(s: State, j: Id, again: bool, at: HandoffPoint)
    requires Inv(s) && Idle(s, j) && s.jobs[j].waiting != Nobody && (!again ==> !s.jobs[j].rpc)
    requires at == if again then SameIdle else ReadTarget
    ensures Inv(SpawnTimed(s, Handoff(j, s.epoch, again, at, s.current, false)))
  {
    hide Inv;
    InvIdle(s);
    SpawnTimedKeeps(s, Handoff(j, s.epoch, again, at, s.current, false));
  }

  lemma BeginReturnKeeps(s: State, j: Id, a: Answer)
    requires Inv(s)
    ensures Inv(BeginReturn(s, j, a))
  {
    hide Inv; hide Fails;
    if Idle(s, j) && !s.jobs[j].rpc && s.jobs[j].waiting == Setup {
      BeginHandoffKeeps(s, j, false, ReadTarget);
      FailsKeeps(SpawnTimed(s, Handoff(j, s.epoch, false, ReadTarget, s.current, false)), s.next, a);
    }
  }

  lemma BeginResumeKeeps(s: State, j: Id, pauseId: Option<Id>, a: Answer)
    requires Inv(s)
    ensures Inv(BeginResume(s, j, pauseId, a))
  {
    hide Inv; hide Fails;
    if Idle(s, j) && s.jobs[j].waiting == Operator {
      InvIdle(s);
      var given := s.jobs[j].(phase := GivingBack, waiting := Nobody);
      EditKeeps(s, j, given);
      WedgeKeeps(WithJob(s, j, given));
      BeginHandoffKeeps(s, j, true, SameIdle);
      var r := SpawnTimed(s, Handoff(j, s.epoch, true, SameIdle, s.current, false));
      EditKeeps(r, j, given);
      FailsKeeps(WithJob(r, j, given), s.next, a);
    }
  }

  // ---- Start ------------------------------------------------------------------------------------------------------

  lemma StartFacts(s: State, t: Id)
    requires Inv(s) && t in s.threads && s.threads[t].Start?
    ensures var th := s.threads[t];
            && th.job in s.jobs && Only(s, th.job) && s.jobs[th.job].status != Uploaded && s.busy
            && !s.jobs[th.job].rpc && s.jobs[th.job].owner != Agent && !Holds(s.current, th.job)
            && (th.startAt == Reread && th.seen.browser == Some(th.job) ==> s.current.browser == Some(th.job))
  {
    InvThread(s, t);
  }

  lemma StartKeeps(s: State, t: Id, th: Thread)
    requires Inv(s) && t in s.threads && s.threads[t].Start? && th.Start? && th.job == s.threads[t].job
    requires th.startAt == Reread && th.seen.browser == Some(th.job) ==> s.current.browser == Some(th.job)
    ensures Inv(WithThread(s, t, th))
  {
    StartFacts(s, t);
    hide Inv;
    ThreadKeeps(s, t, th);
  }

  lemma StartFailsKeeps(s: State, t: Id, a: Answer)
    requires Inv(s) && t in s.threads && s.threads[t].Start? && s.threads[t].job in s.jobs
    ensures Inv(StartFails(s, t, a))
  {
    hide Inv;
    var j := s.threads[t].job;
    StartFacts(s, t);
    BeginStopKeeps(s, j, a);
    var r := BeginStop(s, j, a);
    hide BeginStop;
    if r.jobs[j].Stops() {
      StartKeeps(r, t, s.threads[t].(startAt := StartLeaving));
    } else {
      HolderEnds(r, t, j);
    }
  }

  lemma SettleBrowserKeeps(s: State, t: Id, good: bool)
    requires Inv(s) && t in s.threads && s.threads[t].Start? && s.threads[t].job in s.jobs
    ensures Inv(SettleBrowser(s, t, good))
  {
    hide Inv;
    var th := s.threads[t];
    StartFacts(s, t);
    EditKeeps(s, th.job, s.jobs[th.job].(provisioning := false));
    StartKeeps(WithJob(s, th.job, s.jobs[th.job].(provisioning := false)), t, th.(startAt := Provisioned, good := good));
  }

  lemma BeginStartKeeps(s: State, j: Id, a: Answer)
    requires Inv(s)
    ensures Inv(BeginStart(s, j, a))
  {
    hide StartFails;
    if !s.resetting && !s.busy && s.active.None? && j in s.jobs && s.jobs[j].status == Uploaded && s.jobs[j].context == s.context.generation {
      assert JobOk(s, j);
      hide Inv;
      var job := s.jobs[j].(status := Running, phase := BrowserStarting, provisioning := a.more, waiting := Nobody);
      ActivateKeeps(s, j, job);
      var th := Start(j, Provision, s.current, true);
      var live := Activate(s, j, job);
      SpawnKeeps(live, th);
      var r := Spawn(live, th);
      SelectJobKeeps(r, j);
      StartFailsKeeps(r, s.next, a);
    }
  }

  lemma StepStartKeeps(s: State, t: Id, a: Answer)
    requires Inv(s) && t in s.threads && s.threads[t].Start? && s.threads[t].job in s.jobs
    ensures Inv(StepStart(s, t, a))
  {
    hide Inv; hide StartFails; hide SettleBrowser;
    var th := s.threads[t];
    var j := th.job;
    StartFacts(s, t);
    StartFailsKeeps(s, t, a);
    SettleBrowserKeeps(s, t, false);
    SettleBrowserKeeps(s, t, th.good);
    if th.startAt == Provision {
      StartKeeps(s, t, th.(startAt := Writing));
    } else if th.startAt == Writing {
      ProvisionKeeps(s, t);
      StartKeeps(s.(current := Runtime(Some(j), Bootstrapping)), t, th.(startAt := Observing));
    } else if th.startAt == Observing {
      StartKeeps(s, t, th.(startAt := Reread, seen := s.current, good := a.ok && !StartCancelled(s, j)));
    } else if th.startAt == Reread {
      if th.seen.browser == Some(j) {
        CurrentKeeps(s, th.seen.(owner := User));
        SettleBrowserKeeps(s.(current := th.seen.(owner := User)), t, th.good);
      }
    } else if th.startAt == Provisioned {
      BrowserReady(s, t, a);
    } else if Stopped(s, j) {
      HolderEnds(s, t, j);
    }
  }

  lemma BrowserReady(s: State, t: Id, a: Answer)
    requires Inv(s) && t in s.threads && s.threads[t].Start? && s.threads[t].job in s.jobs
    ensures var j := s.threads[t].job;
            var r := Waits(WithJob(s, j, s.jobs[j].(owner := User)), j, Setup);
            Inv(End(r, t)) && r.threads == s.threads && j in r.jobs && Inv(StartFails(r, t, a))
  {
    hide Inv; hide StartFails;
    var j := s.threads[t].job;
    StartFacts(s, t);
    var ready := WithJob(s, j, s.jobs[j].(owner := User));
    EditKeeps(s, j, ready.jobs[j]);
    WaitsKeeps(ready, j, Setup);
    HolderEnds(Waits(ready, j, Setup), t, j);
    StartFailsKeeps(Waits(ready, j, Setup), t, a);
  }

  // ---- Take Control and the end of an execution --------------------------------------------------------------------

  lemma PauseFacts(s: State, t: Id)
    requires Inv(s) && t in s.threads && s.threads[t].Pause?
    ensures s.threads[t].job in s.jobs && Only(s, s.threads[t].job) && s.jobs[s.threads[t].job].status != Uploaded && s.busy
  {
    InvThread(s, t);
  }

  lemma PauseKeeps(s: State, t: Id, th: Thread)
    requires Inv(s) && t in s.threads && s.threads[t].Pause? && th.Pause? && th.job == s.threads[t].job
    ensures Inv(WithThread(s, t, th))
  {
    PauseFacts(s, t);
    hide Inv;
    ThreadKeeps(s, t, th);
  }

  lemma PauseFailsKeeps(s: State, t: Id, a: Answer)
    requires Inv(s) && t in s.threads && s.threads[t].Pause? && s.threads[t].job in s.jobs
    ensures Inv(PauseFails(s, t, a))
  {
    hide Inv;
    var j := s.threads[t].job;
    PauseFacts(s, t);
    if s.jobs[j].Stops() {
      HolderEnds(s, t, j);
    } else {
      BeginStopKeeps(s, j, a);
      var r := BeginStop(s, j, a);
      hide BeginStop;
      if r.jobs[j].Stops() {
        PauseKeeps(r, t, s.threads[t].(pauseAt := PauseLeaving));
      } else {
        HolderEnds(r, t, j);
      }
    }
  }

  lemma BeginPauseKeeps(s: State, j: Id, generation: Option<Id>, a: Answer)
    requires Inv(s)
    ensures Inv(BeginPause(s, j, generation, a))
  {
    hide Inv; hide PauseFails;
    if Idle(s, j) && s.jobs[j].phase == Executing {
      InvIdle(s);
      var job := s.jobs[j].(phase := Pausing, waiting := Nobody);
      EditKeeps(s, j, job);
      RaiseEpochKeeps(WithJob(s, j, job));
      var r := RaiseEpoch(WithJob(s, j, job));
      WedgeKeeps(r);
      SpawnKeeps(r, Pause(j, CancellingPi));
      var p := Spawn(r, Pause(j, CancellingPi));
      RevokeKeeps(p, j, a);
      PauseFailsKeeps(Revoke(p, j, a), s.next, a);
    }
  }

  lemma PausedKeeps(s: State, j: Id)
    requires Inv(s) && j in s.jobs
    ensures Inv(Paused(s, j))
  {
    hide Inv;
    EditKeeps(s, j, s.jobs[j].(pauseId := Some(s.next)));
    AdvanceKeeps(WithJob(s, j, s.jobs[j].(pauseId := Some(s.next))));
  }

  lemma StepPauseKeeps(s: State, t: Id, a: Answer)
    requires Inv(s) && t in s.threads && s.threads[t].Pause? && s.threads[t].job in s.jobs
    ensures Inv(StepPause(s, t, a))
  {
    hide Inv; hide PauseFails;
    var j := s.threads[t].job;
    PauseFacts(s, t);
    PauseFailsKeeps(s, t, a);
    if s.threads[t].pauseAt == PauseLeaving {
      if Stopped(s, j) {
        HolderEnds(s, t, j);
      }
    } else {
      PauseKeeps(s, t, s.threads[t].(pauseAt := CheckingIdle));
      if Evidence(s, j, User) {
        PausedKeeps(s, j);
        WaitsKeeps(Paused(s, j), j, Operator);
        HolderEnds(Waits(Paused(s, j), j, Operator), t, j);
        PauseFailsKeeps(Waits(Paused(s, j), j, Operator), t, a);
      }
    }
  }

  lemma BeginSettleKeeps(s: State, j: Id)
    requires Inv(s)
    ensures Inv(BeginSettle(s, j))
  {
    hide Inv;
    if s.active == Some(j) && j in s.jobs {
      InvIdle(s);
      EditKeeps(s, j, s.jobs[j].(settling := true));
      SpawnKeeps(WithJob(s, j, s.jobs[j].(settling := true)), Settle(j, Costing));
    }
  }

  lemma SettleFacts(s: State, t: Id)
    requires Inv(s) && t in s.threads && s.threads[t].Settle?
    ensures s.threads[t].job in s.jobs && s.jobs[s.threads[t].job].status != Uploaded
  {
    InvThread(s, t);
  }

  lemma SettleKeeps(s: State, t: Id, th: Thread)
    requires Inv(s) && t in s.threads && s.threads[t].Settle? && th.Settle? && th.job == s.threads[t].job
    ensures Inv(WithThread(s, t, th))
  {
    SettleFacts(s, t);
    hide Inv;
    ThreadKeeps(s, t, th);
  }

  lemma StopAndDropKeeps(s: State, t: Id, a: Answer)
    requires Inv(s) && t in s.threads && s.threads[t].Settle? && s.threads[t].job in s.jobs
    ensures Inv(StopAndDrop(s, t, s.threads[t].job, a))
  {
    hide Inv;
    SettleFacts(s, t);
    BeginStopKeeps(s, s.threads[t].job, a);
    hide BeginStop;
    DropKeeps(BeginStop(s, s.threads[t].job, a), t);
  }

  lemma StepSettleKeeps(s: State, t: Id, a: Answer)
    requires Inv(s) && t in s.threads && s.threads[t].Settle? && s.threads[t].job in s.jobs
    ensures Inv(StepSettle(s, t, a))
  {
    hide Inv; hide StopAndDrop; hide Revoke; hide Evidence; hide Waits; hide Paused;
    StopAndDropKeeps(s, t, a);
    DropKeeps(s, t);
    match s.threads[t].settleAt
    case Costing => SettleKeeps(s, t, s.threads[t].(settleAt := Reading)); RetainKeeps(s, t, a);
    case Retaining =>
      if Evidence(s, s.threads[t].job, User) {
        RetainedKeeps(s, t, a);
      }
    case Reading =>
  }

  lemma RetainKeeps(s: State, t: Id, a: Answer)
    requires Inv(s) && t in s.threads && s.threads[t].Settle? && s.threads[t].job in s.jobs
    ensures var j := s.threads[t].job; var r := Revoke(WithJob(s, j, s.jobs[j].(phase := Pausing, waiting := Nobody)), j, a);
            Inv(WithThread(r, t, s.threads[t].(settleAt := Retaining))) && Inv(StopAndDrop(r, t, j, a))
  {
    hide Inv; hide StopAndDrop;
    var j := s.threads[t].job;
    SettleFacts(s, t);
    var pausing := WithJob(s, j, s.jobs[j].(phase := Pausing, waiting := Nobody));
    EditKeeps(s, j, pausing.jobs[j]);
    RevokeKeeps(pausing, j, a);
    var r := Revoke(pausing, j, a);
    hide Revoke;
    SettleKeeps(r, t, s.threads[t].(settleAt := Retaining));
    StopAndDropKeeps(r, t, a);
  }

  lemma RetainedKeeps(s: State, t: Id, a: Answer)
    requires Inv(s) && t in s.threads && s.threads[t].Settle? && s.threads[t].job in s.jobs && Evidence(s, s.threads[t].job, User)
    ensures var j := s.threads[t].job; var r := Waits(Paused(s, j), j, Operator);
            Inv(Drop(r, t)) && j in r.jobs && Inv(StopAndDrop(r, t, j, a))
  {
    hide Inv; hide StopAndDrop;
    var j := s.threads[t].job;
    PausedKeeps(s, j);
    WaitsKeeps(Paused(s, j), j, Operator);
    DropKeeps(Waits(Paused(s, j), j, Operator), t);
    StopAndDropKeeps(Waits(Paused(s, j), j, Operator), t, a);
  }

  // ---- Steering, uploading, saving, clearing ----------------------------------------------------------------------

  lemma StepSteerKeeps(s: State, t: Id, a: Answer)
    requires Inv(s) && t in s.threads && s.threads[t].Steer?
    ensures Inv(StepSteer(s, t, a))
  {
    hide Lawful; hide Exclusive; hide ThreadOk;
    DropKeeps(s, t);
    var j := s.threads[t].job;
    if !s.closing && MaySteer(s, j) {
      InvIdle(s);
      InvJob(s, j);
      hide Inv;
      NoteKeeps(s, Steered(j));
      DropKeeps(Note(s, Steered(j)), t);
    }
  }

  lemma TimedFacts(s: State, t: Id)
    requires Inv(s) && t in s.threads && (s.threads[t].Upload? || s.threads[t].Save?)
    ensures s.active.None? && EpochOk(s.log, t, s.threads[t].epoch) && (s.resetting ==> s.threads[t].epoch < s.epoch)
    ensures !s.closing && s.epoch == s.threads[t].epoch ==> Allowed(s.log, Committed(t)) && Allowed(s.log, Saved(t)) && !s.resetting
  {
    InvThread(s, t);
    InvIdle(s);
    hide Inv; hide EpochOk;
    if s.epoch == s.threads[t].epoch {
      CurrentIsUnbroken(s.log, t);
    }
  }

  lemma StepUploadKeeps(s: State, t: Id, a: Answer)
    requires Inv(s) && t in s.threads && s.threads[t].Upload?
    ensures Inv(StepUpload(s, t, a))
  {
    hide Inv; hide Allowed; hide EpochOk;
    TimedFacts(s, t);
    EndKeeps(s, t);
    if !s.closing && s.epoch == s.threads[t].epoch {
      CommitKeeps(s, Some(t), Committed(t));
      EndKeeps(Commit(s, Some(t), Committed(t)), t);
    }
  }

  lemma StepSaveKeeps(s: State, t: Id, a: Answer)
    requires Inv(s) && t in s.threads && s.threads[t].Save?
    ensures Inv(StepSave(s, t, a))
  {
    hide Inv; hide Allowed; hide EpochOk;
    TimedFacts(s, t);
    EndKeeps(s, t);
    if !s.closing && s.epoch == s.threads[t].epoch {
      NoteKeeps(s, Saved(t));
      EndKeeps(Note(s, Saved(t)), t);
    }
  }

  lemma ClearLive(s: State, generation: Option<Id>, prepare: bool, live: Id, a: Answer)
    requires Inv(s) && s.active == Some(live) && live in s.jobs && s.jobs[live].status != Uploaded && !s.resetting && !s.closing
    requires forall u <- s.threads :: s.threads[u].Upload? || s.threads[u].Save? ==> s.threads[u].epoch < s.epoch
    ensures var stopping := BeginStop(s, live, a);
            && live in stopping.jobs && Inv(stopping)
            && (stopping.jobs[live].Stops() ==> Inv(Spawn(stopping, Clear(generation, prepare, Some(live), AwaitingStop(live)))))
  {
    hide Inv; hide BeginStop; hide Bumps;
    BeginStopKeeps(s, live, a);
    var stopping := BeginStop(s, live, a);
    if stopping.jobs[live].Stops() {
      SpawnKeeps(stopping, Clear(generation, prepare, Some(live), AwaitingStop(live)));
    }
  }

  lemma ActiveHasStarted(s: State)
    requires Inv(s) && s.active.Some?
    ensures s.active.value in s.jobs && s.jobs[s.active.value].status != Uploaded
  {
    InvIdle(s);
    InvJob(s, s.active.value);
  }

  lemma BeginClearKeeps(s: State, generation: Option<Id>, prepare: bool, replace: bool, requested: Option<Id>, a: Answer)
    requires Inv(s)
    ensures Inv(BeginClear(s, generation, prepare, replace, requested, a))
  {
    RaiseEpochKeeps(s);
    hide Inv; hide Bumps; hide BeginStop; hide Spawn;
    var id := if replace || requested.None? then s.context.job else requested;
    var r := RaiseEpoch(s);
    if MayClear(s, generation, replace, requested, id) {
      if s.active.None? {
        ClearIdle(r, generation, prepare, id);
      } else {
        ActiveHasStarted(s);
        ClearLive(r, generation, prepare, s.active.value, a);
      }
    }
  }

  lemma ClearIdle(s: State, generation: Option<Id>, prepare: bool, id: Option<Id>)
    requires Inv(s) && s.active.None? && (id.Some? ==> id.value in s.jobs) && !s.resetting && !s.closing
    requires forall u <- s.threads :: s.threads[u].Upload? || s.threads[u].Save? ==> s.threads[u].epoch < s.epoch
    ensures Inv(Spawn(s, Clear(generation, prepare, id, Draining)))
  {
    hide Inv; hide Bumps;
    SpawnKeeps(s, Clear(generation, prepare, id, Draining));
  }

  lemma ClearFacts(s: State, t: Id)
    requires Inv(s) && t in s.threads && s.threads[t].Clear?
    ensures JobKnown(s, t) && s.resetting && forall u <- s.threads :: s.threads[u].Clear? ==> u == t
    ensures s.threads[t].clearAt.Draining? ==> s.active.None?
    ensures s.threads[t].clearAt.AwaitingStop? && s.jobs[s.threads[t].clearAt.stopped].stopper == Complete ==> s.active.None?
    ensures !s.closing ==> Closed !in s.log
  {
    InvThread(s, t);
    InvIdle(s);
    if s.active.Some? {
      InvJob(s, s.active.value);
    }
  }

  lemma ClearKeeps(s: State, t: Id, th: Thread)
    requires Inv(s) && t in s.threads && s.threads[t].Clear? && th.Clear? && th.clearAt == Draining && th.prior == s.threads[t].prior
    requires s.active.None?
    ensures Inv(WithThread(s, t, th))
  {
    ClearFacts(s, t);
    hide Inv;
    ThreadKeeps(s, t, th);
  }

  lemma StepClearKeeps(s: State, t: Id, a: Answer)
    requires Inv(s) && t in s.threads && s.threads[t].Clear? && JobKnown(s, t)
    ensures Inv(StepClear(s, t, a))
  {
    hide Inv;
    var th := s.threads[t];
    ClearFacts(s, t);
    EndClearKeeps(s, t);
    if th.clearAt.AwaitingStop? {
      if s.jobs[th.clearAt.stopped].stopper == Complete {
        ClearKeeps(s, t, th.(clearAt := Draining));
      }
    } else {
      if th.prior.Some? {
        EditKeeps(s, th.prior.value, s.jobs[th.prior.value].(status := Cleared, phase := Settled));
      }
      var r := ClearPrior(s, th.prior);
      EndClearKeeps(r, t);
      if !s.closing {
        CommitKeeps(r, None, ClearCommitted(t));
        EndClearKeeps(Commit(r, None, ClearCommitted(t)), t);
      }
    }
  }

  // ---- Every step -------------------------------------------------------------------------------------------------

  lemma StepThreadKeeps(s: State, t: Id, a: Answer)
    requires Inv(s) && t in s.threads && JobKnown(s, t)
    ensures Inv(StepThread(s, t, a))
  {
    hide Inv; hide StepStart; hide StepPause; hide StepUpload; hide StepSave; hide StepClear; hide StepSteer; hide StepSettle;
    hide StepToGrant; hide StepAfterGrant;
    match s.threads[t]
    case Start(_, _, _, _) => StepStartKeeps(s, t, a);
    case Handoff(_, _, _, at, _, _) =>
      if Ungranted(at) {
        StepToGrantKeeps(s, t, a);
      } else {
        StepAfterGrantKeeps(s, t, a);
      }
    case Pause(_, _) => StepPauseKeeps(s, t, a);
    case Upload(_) => StepUploadKeeps(s, t, a);
    case Save(_, _, _) => StepSaveKeeps(s, t, a);
    case Clear(_, _, _, _) => StepClearKeeps(s, t, a);
    case Steer(_) => StepSteerKeeps(s, t, a);
    case Settle(_, _) => StepSettleKeeps(s, t, a);
  }

  lemma StopLiveKeeps(s: State, a: Answer)
    requires Inv(s) && (s.active.Some? ==> s.active.value in s.jobs)
    ensures Inv(StopLive(s, s.active, a))
  {
    hide Inv; hide BeginStop;
    InvIdle(s);
    if s.active.Some? {
      BeginStopKeeps(s, s.active.value, a);
    }
  }

  /** A request of the operator. */
  lemma RequestKeeps(s: State, e: Event)
    requires Inv(s) && Referenced(s)
    requires e.PostJob? || e.PostStart? || e.PostAnswer? || e.PostResume? || e.TakeControl? || e.PostClear? || e.PostSteer?
    ensures Inv(Next(s, e))
  {
    hide Inv; hide Referenced; hide StepThread; hide BeginStart; hide BeginReturn; hide BeginResume; hide BeginPause; hide BeginClear;
    hide BeginSettle; hide BeginStop; hide StepStop; hide StopLive;
    match e
    case PostJob(_, source, _) => CreateJobKeeps(s, source);
    case PostStart(j, a) => BeginStartKeeps(s, j, a);
    case PostAnswer(j, a) => BeginReturnKeeps(s, j, a);
    case PostResume(j, pauseId, a) => BeginResumeKeeps(s, j, pauseId, a);
    case TakeControl(j, generation, a) => BeginPauseKeeps(s, j, generation, a);
    case PostClear(generation, prepare, replace, requested, a) => BeginClearKeeps(s, generation, prepare, replace, requested, a);
    case PostSteer(j, _) =>
      if MaySteer(s, j) {
        SpawnKeeps(s, Steer(j));
      }
  }

  /** The invariant is inductive. */
  lemma NextKeeps(s: State, e: Event)
    requires Inv(s)
    ensures Referenced(s) && Inv(Next(s, e))
  {
    InvIdle(s);
    if e.Continue? && e.thread in s.threads {
      InvThread(s, e.thread);
      StepThreadKeeps(s, e.thread, e.answer);
    }
    hide Inv; hide Referenced; hide StepThread; hide BeginStart; hide BeginReturn; hide BeginResume; hide BeginPause; hide BeginClear;
    hide BeginSettle; hide BeginStop; hide StepStop; hide StopLive;
    if e.PostJob? || e.PostStart? || e.PostAnswer? || e.PostResume? || e.TakeControl? || e.PostClear? || e.PostSteer? {
      RequestKeeps(s, e);
    } else if e.UploadWorkbook? {
      if Vacant(s) {
        SpawnTimedKeeps(s, Upload(s.epoch));
      }
    } else if e.SaveWorkbook? {
      if Vacant(s) {
        SpawnTimedKeeps(s, Save(s.epoch, e.generation, e.workbook));
      }
    } else if e.StopAll? {
      RaiseEpochKeeps(s);
      StopLiveKeeps(RaiseEpoch(s), e.answer);
    } else if e.Shutdown? {
      CloseKeeps(s);
      StopLiveKeeps(Close(s), e.answer);
    } else if e.AgentSettled? {
      BeginSettleKeeps(s, e.job);
    } else if e.ContinueStop? {
      if e.job in s.jobs {
        StepStopKeeps(s, e.job, e.answer);
      }
    } else if !e.Continue? && s.active == Some(e.job) {
      BeginStopKeeps(s, e.job, e.answer);
    }
  }
}
