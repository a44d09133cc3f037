/**
 * The two runtime files and the synchronous operations on them (app/browser-ownership.mjs), proved against the
 * functions the controller's state machine uses. A file that cannot be read or rewritten fails on its own.
 */
module BrowserOwnership {
  import opened Wrappers
  import opened ControllerState
  import opened ControllerMoves
  import opened JobController
  import opened ControllerSafety

  /** One comparison and its write, as one step: None if the handoff was cancelled or the file is not as expected. */
  function Transition(s: State, expected: Runtime, from: set<Owner>, to: Owner, cancelled: bool): Option<Runtime> {
    if !cancelled && Transits(s, expected, from) then Some(s.current.(owner := to)) else None
  }

  /**
   * In a handoff up to its grant, the shared file comes into the job's hands at one point only, and exactly when
   * that one transition goes through.
   */
  lemma SharedGrantIsOneTransition(s: State, t: Id, a: Answer)
    requires Inv(s) && t in s.threads && s.threads[t].Handoff? && s.threads[t].job in s.jobs && Ungranted(s.threads[t].at)
    ensures var th := s.threads[t];
            var written := Transition(s, th.seen, {Returning, Locating}, Agent, Cancelled(s, th));
            && !Holds(s.current, th.job)
            && (Holds(StepToGrant(s, t, a).current, th.job) <==> th.at == Confirm && a.ok && written.Some?)
            && (Holds(StepToGrant(s, t, a).current, th.job) ==> Some(StepToGrant(s, t, a).current) == written)
  {
    HandoffFacts(s, t);
    hide Inv; hide EpochOk; hide Cancelled; hide StepToGrant; hide Transits;
    assert !Holds(s.current, s.threads[t].job);
    if s.threads[t].at == Confirm {
      ConfirmGrants(s, t, a);
    } else {
      BeforeConfirm(s, t, a);
    }
  }

  lemma ConfirmGrants(s: State, t: Id, a: Answer)
    requires t in s.threads && s.threads[t].Handoff? && s.threads[t].job in s.jobs && s.threads[t].at == Confirm
    requires HandoffOk(s, s.threads[t].job, s.threads[t].again, Confirm, s.threads[t].seen)
    ensures var th := s.threads[t];
            var written := Transition(s, th.seen, {Returning, Locating}, Agent, Cancelled(s, th));
            if a.ok && written.Some? then StepToGrant(s, t, a).current == written.value && Holds(written.value, th.job)
            else !Holds(StepToGrant(s, t, a).current, th.job)
  {
    hide Fails; hide Cancelled; hide Given;
  }

  lemma BeforeConfirm(s: State, t: Id, a: Answer)
    requires t in s.threads && s.threads[t].Handoff? && s.threads[t].job in s.jobs && Ungranted(s.threads[t].at) && s.threads[t].at != Confirm
    requires HandoffOk(s, s.threads[t].job, s.threads[t].again, s.threads[t].at, s.threads[t].seen)
    ensures !Holds(StepToGrant(s, t, a).current, s.threads[t].job)
  {
    FailsNotHeld(s, t, a);
    UndoNotHeld(s, t, a);
    hide Fails; hide Cancelled; hide Given; hide Evidence; hide Undo; hide Transits; hide EpochOk;
  }

  lemma UndoNotHeld(s: State, t: Id, a: Answer)
    requires t in s.threads && s.threads[t].Handoff? && !Holds(s.current, s.threads[t].job)
    ensures !Holds(Undo(s, t, a).current, s.threads[t].job)
  {
  }

  lemma RevokeNotHeld(s: State, k: Id, a: Answer, j: Id)
    requires k in s.jobs && !Holds(s.current, j)
    ensures k in Revoke(s, k, a).jobs && !Holds(Revoke(s, k, a).current, j)
  {
  }

  lemma StopNotHeld(s: State, k: Id, a: Answer, j: Id)
    requires k in s.jobs && !Holds(s.current, j)
    ensures k in BeginStop(s, k, a).jobs && !Holds(BeginStop(s, k, a).current, j)
  {
    hide Revoke; hide Holds;
    if !s.jobs[k].Stops() {
      RevokeNotHeld(WithJob(s, k, s.jobs[k].(status := Stopping, waiting := Nobody, pauseId := None)), k, a.OfStop(), j);
    }
  }

  lemma LeaveNotHeld(s: State, t: Id, a: Answer, j: Id)
    requires t in s.threads && s.threads[t].Handoff? && s.threads[t].job in s.jobs && !Holds(s.current, j)
    ensures !Holds(StopAndLeave(s, t, a).current, j)
  {
    hide BeginStop; hide Holds;
    StopNotHeld(s, s.threads[t].job, a, j);
  }

  lemma FailsNotHeld(s: State, t: Id, a: Answer)
    requires t in s.threads && s.threads[t].Handoff? && s.threads[t].job in s.jobs && !Holds(s.current, s.threads[t].job)
    ensures !Holds(Fails(s, t, a).current, s.threads[t].job)
  {
    hide StopAndLeave; hide Revoke; hide Holds; hide Evidence; hide Cancelled;
    var j := s.threads[t].job;
    RevokeNotHeld(s, j, a, j);
    LeaveNotHeld(s, t, a, j);
    SameThreads(s, j, a);
    LeaveNotHeld(Revoke(s, j, a), t, a, j);
  }

  lemma SameThreads(s: State, j: Id, a: Answer)
    requires j in s.jobs
    ensures Revoke(s, j, a).threads == s.threads && Revoke(s, j, a).jobs.Keys == s.jobs.Keys
  {
  }

  /**
   * Why it must be one step: were the file written in a later step than it was compared in, a stop in between that
   * revoked it would be undone, and the invariant lost, in every state in which the comparison passes.
   */
  lemma SplitTransitionUndoesStop(s: State, t: Id, stop: Answer)
    requires Inv(s) && t in s.threads && s.threads[t].Handoff? && s.threads[t].at == Confirm && s.threads[t].job in s.jobs
    requires stop.saved && stop.OfStop().sharedFile
    ensures var th := s.threads[t];
            var j := th.job;
            var written := Transition(s, th.seen, {Returning, Locating}, Agent, Cancelled(s, th));
            var m := BeginStop(s, j, stop);
            && Inv(m)
            && (written.Some? ==> Secured(j, true) in m.log && Holds(written.value, j) && !Inv(m.(current := written.value)))
            && Transition(m, th.seen, {Returning, Locating}, Agent, j !in m.jobs || Cancelled(m, th)).None?
  {
    hide BeginStop; hide Inv; hide EpochOk; hide Given;
    var th := s.threads[t];
    var j := th.job;
    HandoffFacts(s, t);
    BeginStopKeeps(s, j, stop);
    var m := BeginStop(s, j, stop);
    StoppedAndRevoked(s, j, stop);
    if Transition(s, th.seen, {Returning, Locating}, Agent, Cancelled(s, th)).Some? {
      StillSecured(m, j, s.current.(owner := Agent));
    }
  }

  lemma StoppedAndRevoked(s: State, j: Id, stop: Answer)
    requires j in s.jobs && stop.saved && stop.OfStop().sharedFile
    ensures var m := BeginStop(s, j, stop);
            j in m.jobs && m.jobs[j].Stops() && (!s.jobs[j].Stops() ==> Secured(j, true) in m.log)
  {
    hide Revoke;
    var halted := WithJob(s, j, s.jobs[j].(status := Stopping, waiting := Nobody, pauseId := None));
    SameThreads(halted, j, stop.OfStop());
    var marked := MarkStopping(Revoke(halted, j, stop.OfStop()), j, if s.jobs[j].rpc then Cancelling else AwaitingBrowser);
    var own := if stop.OfStop().jobFile then Note(marked, Secured(j, false)) else marked;
    assert Note(own, Secured(j, true)).log[|own.log|] == Secured(j, true);
  }

  lemma StillSecured(m: State, j: Id, file: Runtime)
    requires j in m.jobs && Secured(j, true) in m.log && Holds(file, j)
    ensures !Inv(m.(current := file))
  {
    assert !JobOk(m.(current := file), j);
  }

  lemma RevokeParts(s: State, j: Id, a: Answer)
    requires j in s.jobs
    ensures var r := Revoke(s, j, a);
            && j in r.jobs && r.jobs[j].owner == (if a.jobFile then User else s.jobs[j].owner)
            && r.current == if a.sharedFile && s.current.browser == Some(j) then s.current.(owner := User) else s.current
  {
  }

  datatype Failure = JobRevocation | SharedRevocation

  class RuntimeFiles {
    var own: Runtime    // data/jobs/<job>/runtime.json
    var shared: Runtime // data/current/runtime.json

    /** `transitionBrowser`: compare, then write, with nothing in between. */
    method TransitionBrowser(ghost s: State, expected: Runtime, from: set<Owner>, to: Owner, cancelled: bool) returns (ok: bool)
      requires s.current == shared
      modifies this`shared
      ensures ok <==> Transition(s, expected, from, to, cancelled).Some?
      ensures shared == if ok then Transition(s, expected, from, to, cancelled).value else s.current
    {
      if cancelled || shared.browser.None? || shared.browser != expected.browser || shared.owner !in from {
        return false;
      }
      shared := shared.(owner := to);
      return true;
    }

    /** The files belong to one job: neither the record nor the job's own file names another job's browser. */
    predicate BelongsTo(job: Id, recorded: Option<Id>)
      reads this
    {
      (recorded.Some? ==> recorded == Some(job)) && (own.browser.Some? ==> own.browser == Some(job))
    }

    /**
     * `revokeJobBrowser`: the job's copy goes back to the operator, and so does the shared copy if it is the
     * job's browser or the one being provisioned for it. Each file is attempted whatever happens to the other.
     */
    method RevokeJobBrowser(ghost s: State, job: Id, recorded: Option<Id>, a: Answer) returns (failures: seq<Failure>)
      requires job in s.jobs && s.jobs[job].owner == own.owner && s.current == shared && BelongsTo(job, recorded)
      modifies this
      ensures own.owner == Revoke(s, job, a).jobs[job].owner && shared == Revoke(s, job, a).current
      ensures failures == [] <==> Revokes(a)
      ensures failures == [] ==> own.owner == User && !Holds(shared, job)
    {
      RevokeParts(s, job, a);
      hide Revoke;
      failures := [];
      var browser := recorded;
      if a.jobFile {
        if browser.None? {
          browser := own.browser;
        }
        own := own.(owner := User);
      } else {
        failures := [JobRevocation];
      }
      if a.sharedFile {
        var provisioning := recorded.None? && shared.browser == Some(job);
        if (browser.Some? && shared.browser == browser) || provisioning {
          shared := shared.(owner := User);
        }
      } else {
        failures := failures + [SharedRevocation];
      }
    }
  }
}
