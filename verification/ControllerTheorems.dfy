// What holds in every run of the job controller.
module ControllerTheorems {
  import opened Wrappers
  import opened ControllerState
  import opened ControllerMoves
  import opened JobController
  import opened ControllerSafety
  import opened ControllerHistory

  /** The state after a run: any interleaving of requests, triggers and returning awaits, with any answers. */
  function Run(es: seq<Event>): State
    decreases |es|, 0
  {
    if es == [] then INITIAL
    else
      RunKeeps(es[..|es| - 1]);
      Next(Run(es[..|es| - 1]), es[|es| - 1])
  }

  /** The invariant holds after every run. */
  lemma {:induction false} RunKeeps(es: seq<Event>)
    ensures Inv(Run(es)) && Referenced(Run(es))
    decreases |es|, 1
  {
    if es == [] {
      InitialInv();
    } else {
      RunKeeps(es[..|es| - 1]);
      NextKeeps(Run(es[..|es| - 1]), es[|es| - 1]);
    }
    hide Run;
    assert Inv(Run(es));
  }

  lemma RunSnoc(es: seq<Event>, e: Event)
    ensures Inv(Run(es)) && Referenced(Run(es)) && Run(es + [e]) == Next(Run(es), e) && Inv(Run(es + [e]))
  {
    RunKeeps(es);
    RunKeeps(es + [e]);
    assert (es + [e])[..|es|] == es;
  }

  lemma LengthensSelf(s: State, j: Id)
    ensures Lengthens(s, s, j)
  {
  }

  lemma StepLengthens(es: seq<Event>, e: Event, j: Id)
    ensures Lengthens(Run(es), Run(es + [e]), j)
  {
    hide Inv; hide Next; hide Lengthens; hide Run; hide Referenced;
    RunSnoc(es, e);
    NextTracks(Run(es), e, j);
  }

  lemma RunGrows(es: seq<Event>, later: seq<Event>, j: Id)
    ensures Lengthens(Run(es), Run(es + later), j)
  {
    hide Inv; hide Next; hide Lengthens; hide Run; hide Referenced; hide Tracks; hide Grows;
    if later == [] {
      assert es + later == es;
      LengthensSelf(Run(es), j);
    } else {
      var rest := later[..|later| - 1];
      RunGrows(es, rest, j);
      assert es + later == (es + rest) + [later[|later| - 1]];
      StepLengthens(es + rest, later[|later| - 1], j);
      LengthensTrans(Run(es), Run(es + rest), Run(es + later), j);
    }
  }

  /** An entry that gives job `j` to the agent or speaks to its Pi. */
  predicate Drives(e: Entry, j: Id) {
    (e.Granted? || e.Prompted? || e.Steered?) && e.job == j
  }

  lemma DriveIsLawful(log: seq<Entry>, k: nat)
    requires Lawful(log) && k < |log|
    ensures Allowed(log[..k], log[k])
  {
    assert AllowedAt(log, k);
  }

  /**
   * Once job.stopping is set, no later step of any run prompts, steers or grants that job, and no copy of its
   * runtime that is not the agent's becomes the agent's.
   */
  lemma StopIsFinal(es: seq<Event>, later: seq<Event>, j: Id)
    requires j in Run(es).jobs && Run(es).jobs[j].Stops()
    ensures var s, r := Run(es), Run(es + later);
            && s.log <= r.log && j in r.jobs && r.jobs[j].Stops()
            && (forall k :: |s.log| <= k < |r.log| ==> !Drives(r.log[k], j))
            && (s.jobs[j].owner != Agent ==> r.jobs[j].owner != Agent)
            && (!Holds(s.current, j) ==> !Holds(r.current, j))
  {
    var s, r := Run(es), Run(es + later);
    hide Inv; hide Run;
    RunKeeps(es);
    RunKeeps(es + later);
    RunGrows(es, later, j);
    StopEntry(s, j);
    forall k | |s.log| <= k < |r.log|
      ensures !Drives(r.log[k], j)
    {
      LogIsLawful(r);
      DriveIsLawful(r.log, k);
      var i :| 0 <= i < |s.log| && s.log[i] == StopBegan(j);
      assert r.log[..k][i] == StopBegan(j);
    }
    NotGained(s, r, j);
    StopEntry(r, j);
  }

  lemma LogIsLawful(s: State)
    requires Inv(s)
    ensures Lawful(s.log)
  {
  }

  lemma StopEntry(s: State, j: Id)
    requires Inv(s) && j in s.jobs
    ensures s.jobs[j].Stops() <==> StopBegan(j) in s.log
  {
    InvJob(s, j);
  }

  lemma NotGained(s: State, r: State, j: Id)
    requires Lengthens(s, r, j) && j in s.jobs && forall k :: |s.log| <= k < |r.log| ==> !Drives(r.log[k], j)
    ensures s.jobs[j].owner != Agent ==> r.jobs[j].owner != Agent
    ensures !Holds(s.current, j) ==> !Holds(r.current, j)
  {
    var tail := r.log[|s.log|..];
    forall e | e in tail
      ensures !Drives(e, j)
    {
      var k :| 0 <= k < |tail| && tail[k] == e;
      assert r.log[|s.log| + k] == e;
    }
  }

  /** A stop takes effect exactly when its first record of the job can be saved. */
  lemma StopTakesEffectIffSaved(es: seq<Event>, j: Id, a: Answer)
    requires Run(es).active == Some(j)
    ensures var s, r := Run(es), Run(es + [PostStop(j, a)]);
            j in s.jobs && j in r.jobs && (r.jobs[j].Stops() <==> s.jobs[j].Stops() || a.saved)
  {
    hide Run; hide Inv; hide Next; hide BeginStop;
    RunSnoc(es, PostStop(j, a));
    InvIdle(Run(es));
    NextStop(Run(es), j, a);
    BeginStopKeeps(Run(es), j, a);
    if !a.saved {
      UnsavedStop(Run(es), j, a);
    }
  }

  lemma UnsavedStop(s: State, j: Id, a: Answer)
    requires j in s.jobs && !a.saved
    ensures BeginStop(s, j, a).jobs[j].Stops() <==> s.jobs[j].Stops()
  {
  }

  /**
   * Why the condition matters: a handoff one step from its prompt sends it after the operator's Stop exactly when
   * that Stop could not save its record.
   */
  lemma PromptAfterStopIffUnsaved(es: seq<Event>, t: Id, a: Answer, b: Answer)
    requires var s := Run(es); t in s.threads && s.threads[t].Handoff? && s.threads[t].at == Final && JobKnown(s, t)
    requires var s := Run(es); !Cancelled(s, s.threads[t]) && (s.threads[t].again ==> Holds(s.current, s.threads[t].job))
    requires b.ok && b.reach >= 3
    ensures var s := Run(es); var j := s.threads[t].job; var r := Run(es + [PostStop(j, a), Continue(t, b)]);
            s.log <= r.log && (Prompted(t, j) in r.log[|s.log|..] <==> !a.saved)
  {
    hide Inv; hide BeginStop; hide StepThread; hide Next; hide Run; hide Referenced; hide Cancelled;
    var s := Run(es);
    var j := s.threads[t].job;
    LiveThread(s, s.threads[t]);
    RunSnoc(es, PostStop(j, a));
    NextStop(s, j, a);
    RunSnoc(es + [PostStop(j, a)], Continue(t, b));
    assert es + [PostStop(j, a), Continue(t, b)] == (es + [PostStop(j, a)]) + [Continue(t, b)];
    if a.saved {
      AfterSavedStop(s, t, a, b);
    } else {
      AfterUnsavedStop(s, t, a, b);
    }
    NextContinue(BeginStop(s, j, a), t, b);
  }

  lemma LiveThread(s: State, th: Thread)
    requires th.Handoff? && th.job in s.jobs && !Cancelled(s, th)
    ensures s.active == Some(th.job)
  {
  }

  lemma NextStop(s: State, j: Id, a: Answer)
    requires Referenced(s) && s.active == Some(j)
    ensures j in s.jobs && Next(s, PostStop(j, a)) == BeginStop(s, j, a)
  {
  }

  lemma NextContinue(s: State, t: Id, a: Answer)
    requires Referenced(s) && t in s.threads
    ensures JobKnown(s, t) && Next(s, Continue(t, a)) == StepThread(s, t, a)
  {
  }

  lemma MarkLog(s: State, j: Id, stopper: Stopper)
    requires j in s.jobs && stopper != NotStopping
    ensures var m := MarkStopping(s, j, stopper);
            j in m.jobs && m.jobs[j].Stops() && m.threads == s.threads && m.log == s.log + [StopBegan(j)]
  {
  }

  lemma SecureLog(s: State, j: Id, a: Answer)
    ensures var m := SecureIf(s, j, a);
            m.jobs == s.jobs && m.threads == s.threads
            && m.log == s.log + ((if a.jobFile then [Secured(j, false)] else []) + (if a.sharedFile then [Secured(j, true)] else []))
  {
  }

  lemma SavedStopLog(s: State, j: Id, a: Answer)
    requires j in s.jobs && !s.jobs[j].Stops() && a.saved
    ensures var m := BeginStop(s, j, a);
            && j in m.jobs && m.jobs[j].Stops() && m.threads == s.threads && s.log <= m.log
            && forall e :: e in m.log[|s.log|..] ==> !e.Prompted?
  {
    hide Revoke; hide MarkStopping; hide SecureIf; hide Tracks;
    var halted := WithJob(s, j, s.jobs[j].(status := Stopping, waiting := Nobody, pauseId := None));
    var stopper := if s.jobs[j].rpc then Cancelling else AwaitingBrowser;
    var revoked := Revoke(halted, j, a.OfStop());
    RevokeTracks(halted, j, a.OfStop(), j);
    MarkLog(revoked, j, stopper);
    SecureLog(MarkStopping(revoked, j, stopper), j, a.OfStop());
  }

  lemma AfterSavedStop(s: State, t: Id, a: Answer, b: Answer)
    requires t in s.threads && s.threads[t].Handoff? && s.threads[t].at == Final && JobKnown(s, t)
    requires !Cancelled(s, s.threads[t]) && a.saved
    ensures var j := s.threads[t].job; var m := BeginStop(s, j, a);
            t in m.threads && JobKnown(m, t) &&
            var r := StepThread(m, t, b); s.log <= r.log && Prompted(t, j) !in r.log[|s.log|..]
  {
    var j := s.threads[t].job;
    SavedStopLog(s, j, a);
    var m := BeginStop(s, j, a);
    hide BeginStop;
    assert Cancelled(m, m.threads[t]);
    assert StepThread(m, t, b) == End(m, t);
  }

  lemma AfterUnsavedStop(s: State, t: Id, a: Answer, b: Answer)
    requires t in s.threads && s.threads[t].Handoff? && s.threads[t].at == Final && JobKnown(s, t)
    requires !Cancelled(s, s.threads[t]) && (s.threads[t].again ==> Holds(s.current, s.threads[t].job))
    requires !a.saved && b.ok && b.reach >= 3
    ensures var j := s.threads[t].job; var m := BeginStop(s, j, a);
            t in m.threads && JobKnown(m, t) &&
            var r := StepThread(m, t, b); s.log <= r.log && Prompted(t, j) in r.log[|s.log|..]
  {
    hide Fails;
    var j := s.threads[t].job;
    var m := BeginStop(s, j, a);
    assert m == WithJob(s, j, s.jobs[j].(status := Stopping, waiting := Nobody, pauseId := None));
    hide BeginStop;
    assert StepThread(m, t, b) == Launch(m, t, b);
    LaunchLog(m, t, b);
  }

  lemma LaunchLog(s: State, t: Id, b: Answer)
    requires t in s.threads && s.threads[t].Handoff? && s.threads[t].job in s.jobs && b.reach >= 3
    requires s.threads[t].again ==> Holds(s.current, s.threads[t].job)
    ensures var j := s.threads[t].job; var r := Launch(s, t, b); s.log <= r.log && Prompted(t, j) in r.log[|s.log|..]
  {
    hide Fails;
    var j := s.threads[t].job;
    var entries := [Granted(j, false), Prompted(t, j)] + if s.threads[t].again then [] else [FirstPrompt(j)];
    assert Launch(s, t, b).log == s.log + entries;
    assert entries[1] == Prompted(t, j);
  }

  /** A runtime file that a stop managed to revoke is never the agent's again. */
  lemma RevokedFilesStayRevoked(es: seq<Event>, j: Id)
    requires j in Run(es).jobs
    ensures var s := Run(es);
            && (Secured(j, false) in s.log ==> s.jobs[j].Stops() && s.jobs[j].owner != Agent)
            && (Secured(j, true) in s.log ==> s.jobs[j].Stops() && !Holds(s.current, j))
  {
    hide Run; hide Inv;
    RunKeeps(es);
    InvJob(Run(es), j);
  }

  /** While the operator is waited for and no request is in flight, the agent owns neither copy. */
  lemma WaitingJobsAreTheOperators(es: seq<Event>)
    requires var s := Run(es); s.active.Some? && !s.busy
    ensures var s := Run(es); var j := s.active.value;
            j in s.jobs && (s.jobs[j].waiting != Nobody && !s.jobs[j].Stops() ==> s.jobs[j].owner != Agent && !Holds(s.current, j))
  {
    hide Run; hide Inv;
    RunKeeps(es);
    InvIdle(Run(es));
  }

  /** The live job was uploaded for the current generation. */
  lemma LiveJobIsOfTheCurrentGeneration(es: seq<Event>)
    requires Run(es).active.Some?
    ensures var s := Run(es); s.active.value in s.jobs && s.jobs[s.active.value].context == s.context.generation
  {
    hide Run; hide Inv;
    RunKeeps(es);
    InvIdle(Run(es));
    InvJob(Run(es), Run(es).active.value);
  }

  /** `busy` is set exactly while one request holds it, or for good after a pause or resume failed to record its phase. */
  lemma BusyIsOneHolder(es: seq<Event>)
    ensures var s := Run(es);
            && (s.busy <==> Wedged in s.log || exists t <- s.threads :: s.threads[t].Holder())
            && forall t, u :: t in s.threads && u in s.threads && s.threads[t].Holder() && s.threads[u].Holder() ==> t == u
  {
    hide Run; hide Inv;
    RunKeeps(es);
    InvExclusive(Run(es));
  }

  lemma InvExclusive(s: State)
    requires Inv(s)
    ensures s.busy <==> Wedged in s.log || exists t <- s.threads :: s.threads[t].Holder()
    ensures forall t, u :: t in s.threads && u in s.threads && s.threads[t].Holder() && s.threads[u].Holder() ==> t == u
  {
    assert Exclusive(s.threads, s.busy, s.resetting, Wedged in s.log);
    hide Inv;
  }

  /** No other start, return, pause, resume, upload, save or clear is in flight. */
  predicate Alone(s: State, t: Id) {
    forall u :: u in s.threads && (s.threads[u].Holder() || s.threads[u].Clear?) ==> u == t
  }

  /** A generation is committed with no live job and no other request in flight, and it is a new one. */
  lemma GenerationsAreCommittedAlone(es: seq<Event>, e: Event)
    requires Run(es + [e]).context.generation != Run(es).context.generation
    ensures var s, r := Run(es), Run(es + [e]);
            && s.active.None? && r.active.None? && !s.closing && e.Continue? && e.thread in s.threads && Alone(s, e.thread)
            && r.context.generation == Some(s.next) && r.context.job.None?
            && forall j <- s.jobs :: s.jobs[j].context != r.context.generation
  {
    hide Run; hide Inv; hide Next; hide StepThread; hide Lengthens; hide Referenced; hide ThreadOk; hide JobKnown;
    var s, r := Run(es), Run(es + [e]);
    RunSnoc(es, e);
    NextTracks(s, e, 0);
    InvThread(s, e.thread);
    NextContinue(s, e.thread, e.answer);
    CommitSegment(s, e.thread, e.answer);
    hide Alone;
    forall j | j in s.jobs
      ensures s.jobs[j].context != r.context.generation
    {
      InvJob(s, j);
    }
  }

  lemma CommitSegment(s: State, t: Id, a: Answer)
    requires Inv(s) && t in s.threads && JobKnown(s, t) && Commits(s.threads[t])
    requires StepThread(s, t, a).context.generation != s.context.generation
    ensures var r := StepThread(s, t, a);
            && s.active.None? && r.active.None? && !s.closing && Alone(s, t)
            && r.context.generation == Some(s.next) && r.context.job.None?
  {
    if s.threads[t].Upload? {
      TimedFacts(s, t);
      InvThread(s, t);
    } else {
      ClearFacts(s, t);
    }
  }

  /** A handoff, upload or save whose wait straddles a Clear, Stop or Take Control neither prompts nor commits. */
  lemma NothingCommitsAcrossABump(es: seq<Event>, t: Id, i: nat, k: nat)
    requires var log := Run(es).log; i < k < |log| && log[i] == Begun(t)
    requires var e := Run(es).log[k]; e == Committed(t) || e == Saved(t) || (e.Prompted? && e.thread == t)
    ensures Bump !in Run(es).log[i..k]
  {
    hide Run; hide Inv;
    var log := Run(es).log;
    RunKeeps(es);
    LogIsLawful(Run(es));
    DriveIsLawful(log, k);
    assert log[..k][i] == Begun(t);
    assert log[..k][i..] == log[i..k];
  }

  /** The execution prompt of a job is sent at most once in any run: nothing replays it. */
  lemma ExecutionPromptIsSentOnce(es: seq<Event>, j: Id, i: nat, k: nat)
    requires i < |Run(es).log| && k < |Run(es).log| && Run(es).log[i] == FirstPrompt(j) && Run(es).log[k] == FirstPrompt(j)
    ensures i == k
  {
    hide Run; hide Inv;
    var log := Run(es).log;
    RunKeeps(es);
    LogIsLawful(Run(es));
    DriveIsLawful(log, i);
    DriveIsLawful(log, k);
  }

  /** After shutdown began nothing is granted, prompted, steered or committed. */
  lemma ShutdownIsFinal(es: seq<Event>, i: nat, k: nat)
    requires var log := Run(es).log; i < k < |log| && log[i] == Closed
    ensures var e := Run(es).log[k];
            !e.Granted? && !e.Prompted? && !e.Steered? && !e.Committed? && !e.Saved? && !e.ClearCommitted?
  {
    hide Run; hide Inv;
    var log := Run(es).log;
    RunKeeps(es);
    LogIsLawful(Run(es));
    DriveIsLawful(log, k);
    assert log[..k][i] == Closed;
  }
}
