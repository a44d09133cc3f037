// What the controller accepts, and how an accepted request begins. Everything else leaves the connection as it was.
module ControllerRequests {
  import opened Wrappers
  import opened ControllerState
  import opened ControllerMoves
  import opened JobController
  import opened ControllerSafety
  import opened ControllerHistory
  import opened ControllerTheorems
  import opened ControllerStops
  import opened ControllerSteps

  /** Nothing live and nothing in flight. */
  ghost predicate Free(s: State) {
    !s.closing && !s.resetting && !s.busy && s.active.None?
  }

  ghost predicate Accepted(s: State, e: Event)
    requires Referenced(s)
  {
    match e
    case PostJob(generation, _, a) => a.ok && Free(s) && generation == s.context.generation
    case PostStart(j, a) =>
      && a.ok && Free(s) && j in s.jobs && s.jobs[j].status == Uploaded && s.jobs[j].context == s.context.generation
      && (s.context.generation.Some? ==> s.context.job == Some(j))
    case PostAnswer(j, a) => Accepts(s, j, a) && !s.jobs[j].rpc && s.jobs[j].phase == AwaitingInput && s.jobs[j].waiting == Setup
    case PostResume(j, pauseId, a) =>
      && Accepts(s, j, a) && !s.closing && s.jobs[j].rpc && s.jobs[j].phase == AwaitingInput && s.jobs[j].waiting == Operator
      && s.jobs[j].pauseId.Some? && pauseId == s.jobs[j].pauseId
    case TakeControl(j, generation, a) =>
      && Accepts(s, j, a) && !s.closing && generation == s.context.generation && !s.jobs[j].settling
      && s.jobs[j].phase == Executing && s.jobs[j].rpc
    case UploadWorkbook(generation, a) => a.ok && Free(s) && generation == s.context.generation
    case SaveWorkbook(generation, workbook, a) =>
      && a.ok && Free(s) && s.context.generation.Some? && generation == s.context.generation && s.context.workbook == Some(workbook)
      && (s.context.job.Some? && s.context.job.value in s.jobs ==> s.jobs[s.context.job.value].status != Uploaded)
    case PostClear(generation, _, replace, requested, a) =>
      && a.ok && !s.closing && !s.resetting && (s.busy ==> replace) && generation == s.context.generation
      && (s.active.Some? ==> s.active == if replace then s.context.job else requested)
      && (!replace && s.context.job.Some? ==> requested in {None, s.context.job})
      && var id := if replace || requested.None? then s.context.job else requested; (id.Some? ==> id.value in s.jobs)
    case PostStop(j, _) => s.active == Some(j)
    case Trouble(j, _) => s.active == Some(j)
    case StopAll(_) => true
    case Shutdown(_) => true
    case AgentSettled(j, _) =>
      && s.active == Some(j) && j in s.jobs && s.jobs[j].stopper == NotStopping && !s.jobs[j].settling
      && s.jobs[j].status == Running && s.jobs[j].phase == Executing
    case PostSteer(j, a) =>
      Accepts(s, j, a) && !s.jobs[j].settling && s.jobs[j].phase == Executing && s.jobs[j].rpc && s.jobs[j].status == Running
    case Continue(t, _) => t in s.threads
    case ContinueStop(j, _) => j in s.jobs
  }

  /** A request under way: one more thread, and `busy` if it is of that kind. */
  ghost predicate Opened(s: State, r: State, th: Thread) {
    && s.next in r.threads && r.threads[s.next] == th && (forall t <- s.threads :: t != s.next ==> t in r.threads && r.threads[t] == s.threads[t])
    && r.next == s.next + 1 && r.busy == (s.busy || th.Holder()) && r.resetting == (s.resetting || th.Clear?)
  }

  ghost predicate SameJobs(s: State, r: State) {
    r.jobs == s.jobs && r.current == s.current && r.context == s.context && r.active == s.active && r.closing == s.closing
  }

  /** How a request begins when its first segment meets no obstacle. */
  ghost predicate Smooth(s: State, e: Event)
    requires Referenced(s) && Accepted(s, e)
  {
    match e
    case PostStart(_, a) => a.more
    case PostAnswer(_, a) => a.more && !s.closing
    case PostResume(j, _, a) => a.reach > 0 && a.more && BothUsers(s, j)
    case TakeControl(_, _, a) => a.reach > 0 && BothRevoked(a)
    case _ => true
  }

  ghost predicate Begins(s: State, r: State, e: Event)
    requires Referenced(s) && Accepted(s, e) && Smooth(s, e)
  {
    match e
    case PostJob(_, workbook, _) =>
      && r.jobs == s.jobs[s.next := Job(Uploaded, Unstarted, Nobody, None, s.context.generation, false, false, false, NotStopping, User)]
      && r.context == Context(s.context.generation, if workbook.Some? then workbook else s.context.workbook, Some(s.next))
      && r.threads == s.threads && r.active.None? && !r.busy && r.next == s.next + 1
    case PostStart(j, _) =>
      && Opened(s, r, Start(j, Provision, s.current, true)) && r.active == Some(j) && r.context == s.context.(job := Some(j))
      && r.jobs == s.jobs[j := s.jobs[j].(status := Running, phase := BrowserStarting, provisioning := true, waiting := Nobody)]
    case PostAnswer(j, _) => Opened(s, r, Handoff(j, s.epoch, false, ReadTarget, s.current, false)) && SameJobs(s, r)
    case PostResume(j, _, _) =>
      && Opened(s, r, Handoff(j, s.epoch, true, SameIdle, s.current, false))
      && r.jobs == s.jobs[j := s.jobs[j].(phase := GivingBack, waiting := Nobody)] && r.epoch == s.epoch
    case TakeControl(j, _, _) =>
      && Opened(s, r, Pause(j, CancellingPi)) && r.epoch == s.epoch + 1
      && r.jobs == s.jobs[j := s.jobs[j].(phase := Pausing, waiting := Nobody, owner := User)] && !Holds(r.current, j)
    case UploadWorkbook(_, _) => Opened(s, r, Upload(s.epoch)) && SameJobs(s, r)
    case SaveWorkbook(generation, workbook, _) => Opened(s, r, Save(s.epoch, generation, workbook)) && SameJobs(s, r)
    case AgentSettled(j, _) => Opened(s, r, Settle(j, Costing)) && r.jobs == s.jobs[j := s.jobs[j].(settling := true)]
    case PostSteer(j, _) => Opened(s, r, Steer(j)) && SameJobs(s, r)
    case PostClear(generation, prepare, replace, requested, a) =>
      && r.epoch == s.epoch + 1
      && (s.active.None? ==>
            var prior := if replace || requested.None? then s.context.job else requested;
            Opened(s, r, Clear(generation, prepare, prior, Draining)) && SameJobs(s, r))
      && (s.active.Some? ==>
            if s.jobs[s.active.value].Stops() || a.saved
            then Opened(s, r, Clear(generation, prepare, s.active, AwaitingStop(s.active.value)))
            else r.threads == s.threads && !r.resetting)
    case StopAll(_) => r.epoch == s.epoch + 1 && r.closing == s.closing && r.threads == s.threads && (s.active.None? ==> r.jobs == s.jobs)
    case Shutdown(_) => r.closing && r.epoch == s.epoch && r.threads == s.threads && (s.active.None? ==> r.jobs == s.jobs)
    case PostStop(_, _) => r.threads == s.threads && r.epoch == s.epoch && r.closing == s.closing
    case Trouble(_, _) => r.threads == s.threads && r.epoch == s.epoch && r.closing == s.closing
    case _ => true
  }

  lemma Refused(s: State, e: Event)
    requires Referenced(s) && !Accepted(s, e)
    ensures Next(s, e) == s
  {
    hide StepThread; hide StepStop; hide BeginStop; hide Fails; hide PauseFails; hide StartFails;
  }

  lemma OpenedNow(s: State, th: Thread)
    requires s.next !in s.threads
    ensures Opened(s, Spawn(s, th), th) && Opened(s, SpawnTimed(s, th), th)
    ensures SameJobs(s, Spawn(s, th)) && SameJobs(s, SpawnTimed(s, th))
    ensures Spawn(s, th).epoch == s.epoch && SpawnTimed(s, th).epoch == s.epoch
  {
  }

  lemma StartBegins(s: State, j: Id, a: Answer)
    requires Referenced(s) && s.next !in s.threads && Accepted(s, PostStart(j, a)) && a.more
    ensures Begins(s, Next(s, PostStart(j, a)), PostStart(j, a))
  {
    hide StartFails;
  }

  lemma ReturnBegins(s: State, j: Id, a: Answer)
    requires Referenced(s) && s.next !in s.threads && Accepted(s, PostAnswer(j, a)) && a.more && !s.closing
    ensures Begins(s, Next(s, PostAnswer(j, a)), PostAnswer(j, a))
  {
    hide Fails; hide SpawnTimed; hide Opened; hide SameJobs;
    OpenedNow(s, Handoff(j, s.epoch, false, ReadTarget, s.current, false));
  }

  lemma ResumeBegins(s: State, e: Event)
    requires Referenced(s) && s.next !in s.threads && e.PostResume? && Accepted(s, e) && Smooth(s, e)
    ensures Begins(s, Next(s, e), e)
  {
    hide Fails; hide SpawnTimed;
    OpenedNow(s, Handoff(e.job, s.epoch, true, SameIdle, s.current, false));
  }

  lemma PauseBegins(s: State, e: Event)
    requires Referenced(s) && s.next !in s.threads && e.TakeControl? && Accepted(s, e) && Smooth(s, e)
    ensures Begins(s, Next(s, e), e)
  {
    hide PauseFails; hide Revoke;
    var m := Spawn(RaiseEpoch(WithJob(s, e.job, s.jobs[e.job].(phase := Pausing, waiting := Nobody))), Pause(e.job, CancellingPi));
    RevokeFacts(m, e.job, e.answer);
    RevokeFrame(m, e.job, e.answer);
  }

  lemma RevokeFrame(s: State, j: Id, a: Answer)
    requires j in s.jobs
    ensures var r := Revoke(s, j, a);
            && r.next == s.next && r.busy == s.busy && r.resetting == s.resetting && r.context == s.context && r.active == s.active && j in r.jobs
  {
  }

  lemma StopLeavesControl(s: State, j: Id, a: Answer)
    requires j in s.jobs
    ensures var r := BeginStop(s, j, a);
            && r.threads == s.threads && r.epoch == s.epoch && r.closing == s.closing && r.next == s.next && r.busy == s.busy
            && r.resetting == s.resetting && (j in r.jobs && (r.jobs[j].Stops() <==> s.jobs[j].Stops() || a.saved))
  {
    hide BeginStop;
    StopFrame(s, j, a);
    StopControl(s, j, a);
    if s.jobs[j].Stops() || !a.saved {
      UnsavedRecord(s, j, a);
    } else {
      StopRecord(s, j, a);
    }
  }

  lemma StopControl(s: State, j: Id, a: Answer)
    requires j in s.jobs
    ensures var r := BeginStop(s, j, a);
            && r.next == s.next && r.busy == s.busy && r.resetting == s.resetting && r.context == s.context && r.active == s.active
  {
    hide MarkStopping; hide SecureIf; hide Revoke;
    RevokeFrame(Halt(s, j), j, a.OfStop());
    MarkFrame(Revoke(Halt(s, j), j, a.OfStop()), j, if s.jobs[j].rpc then Cancelling else AwaitingBrowser, a.OfStop());
  }

  lemma MarkFrame(s: State, j: Id, stopper: Stopper, a: Answer)
    requires j in s.jobs
    ensures var r := SecureIf(MarkStopping(s, j, stopper), j, a);
            && r.next == s.next && r.busy == s.busy && r.resetting == s.resetting && r.context == s.context && r.active == s.active
  {
  }

  lemma ClearBegins(s: State, e: Event)
    requires Referenced(s) && s.next !in s.threads && e.PostClear? && Accepted(s, e)
    ensures Begins(s, Next(s, e), e)
  {
    hide BeginStop;
    if s.active.Some? {
      StopLeavesControl(RaiseEpoch(s), s.active.value, e.answer);
    }
  }

  lemma HaltBegins(s: State, e: Event)
    requires Referenced(s) && (e.StopAll? || e.Shutdown? || e.PostStop? || e.Trouble?) && Accepted(s, e)
    ensures Begins(s, Next(s, e), e)
  {
    hide BeginStop;
    var m := if e.StopAll? then RaiseEpoch(s) else if e.Shutdown? then Close(s) else s;
    if m.active.Some? {
      StopLeavesControl(m, m.active.value, e.answer);
    }
  }

  lemma OtherBegins(s: State, e: Event)
    requires Referenced(s) && s.next !in s.threads && Accepted(s, e)
    requires e.PostJob? || e.UploadWorkbook? || e.SaveWorkbook? || e.AgentSettled? || e.PostSteer?
    ensures Begins(s, Next(s, e), e)
  {
    hide SpawnTimed; hide Spawn;
    if e.UploadWorkbook? {
      OpenedNow(s, Upload(s.epoch));
    } else if e.SaveWorkbook? {
      OpenedNow(s, Save(s.epoch, e.generation, e.workbook));
    } else if e.PostSteer? {
      OpenedNow(s, Steer(e.job));
    } else if e.AgentSettled? {
      OpenedNow(WithJob(s, e.job, s.jobs[e.job].(settling := true)), Settle(e.job, Costing));
    }
  }

  lemma AcceptedRequestBegins(s: State, e: Event)
    requires Inv(s) && Referenced(s) && Accepted(s, e) && Smooth(s, e)
    ensures Begins(s, Next(s, e), e)
  {
    NextIsFree(s);
    hide Inv; hide Begins; hide Next; hide Accepted; hide Referenced;
    if e.PostStart? {
      StartBegins(s, e.job, e.answer);
    } else if e.PostAnswer? {
      ReturnBegins(s, e.job, e.answer);
    } else if e.PostResume? {
      ResumeBegins(s, e);
    } else if e.TakeControl? {
      PauseBegins(s, e);
    } else if e.PostClear? {
      ClearBegins(s, e);
    } else if e.StopAll? || e.Shutdown? || e.PostStop? || e.Trouble? {
      HaltBegins(s, e);
    } else if e.PostJob? || e.UploadWorkbook? || e.SaveWorkbook? || e.AgentSettled? || e.PostSteer? {
      OtherBegins(s, e);
    } else {
      ContinuationBegins(s, e);
    }
  }

  lemma ContinuationBegins(s: State, e: Event)
    requires Referenced(s) && (e.Continue? || e.ContinueStop?) && Accepted(s, e)
    ensures Begins(s, Next(s, e), e)
  {
    hide Next;
  }

  /** What an accepted request leaves behind that fails in its first segment. */
  ghost predicate Fell(s: State, r: State, e: Event)
    requires Referenced(s) && Accepted(s, e) && !Smooth(s, e)
  {
    match e
    case PostStart(j, a) =>
      && r.active == Some(j) && (r.busy <==> a.saved) && r.context == s.context
      && if a.saved then s.next in r.threads && r.threads[s.next] == Start(j, StartLeaving, s.current, true) else s.next !in r.threads
    case PostAnswer(j, a) => Caught(s, r, s.next, Handoff(j, s.epoch, false, ReadTarget, s.current, false), a)
    case PostResume(j, _, a) =>
      && j in r.jobs && r.jobs[j].phase == GivingBack
      && if a.reach == 0 then r.threads == s.threads && r.busy && r.jobs[j].waiting == Nobody && !r.jobs[j].Stops()
         else Caught(s, r, s.next, Handoff(j, s.epoch, true, SameIdle, s.current, false), a)
    case TakeControl(j, _, a) =>
      && r.epoch == s.epoch + 1 && j in r.jobs && r.jobs[j].phase == Pausing
      && if a.reach == 0 then r.threads == s.threads && r.busy && r.jobs[j].waiting == Nobody && !r.jobs[j].Stops()
         else if a.saved then s.next in r.threads && r.threads[s.next] == Pause(j, PauseLeaving) else s.next !in r.threads && !r.busy
    case _ => true
  }

  lemma StartFalls(s: State, j: Id, a: Answer)
    requires Referenced(s) && s.next !in s.threads && Accepted(s, PostStart(j, a)) && !a.more && !s.jobs[j].Stops()
    ensures Fell(s, Next(s, PostStart(j, a)), PostStart(j, a))
  {
    hide BeginStop;
    var live := Activate(s, j, s.jobs[j].(status := Running, phase := BrowserStarting, provisioning := a.more, waiting := Nobody));
    var r := Spawn(live, Start(j, Provision, s.current, true));
    StopLeavesControl(r, j, a);
    StopContext(r, j, a);
  }

  lemma StopContext(s: State, j: Id, a: Answer)
    requires j in s.jobs
    ensures BeginStop(s, j, a).context == s.context && BeginStop(s, j, a).active == s.active
    ensures j in BeginStop(s, j, a).jobs && BeginStop(s, j, a).jobs[j].phase == s.jobs[j].phase
  {
    hide BeginStop;
    StopControl(s, j, a);
    if s.jobs[j].Stops() || !a.saved {
      UnsavedRecord(s, j, a);
    } else {
      StopRecord(s, j, a);
    }
  }

  lemma ReturnFalls(s: State, j: Id, a: Answer)
    requires Referenced(s) && s.next !in s.threads && Accepted(s, PostAnswer(j, a)) && !(a.more && !s.closing)
    ensures Fell(s, Next(s, PostAnswer(j, a)), PostAnswer(j, a))
  {
    hide Fails; hide SpawnTimed; hide Opened; hide SameJobs; hide Caught;
    var th := Handoff(j, s.epoch, false, ReadTarget, s.current, false);
    OpenedNow(s, th);
    SpawnedCatches(s, SpawnTimed(s, th), th, a);
  }

  /** For the catch block it does not matter that the request has only just begun. */
  lemma SpawnedCatches(s: State, m: State, th: Thread, a: Answer)
    requires th.Handoff? && th.job in s.jobs && s.next in m.threads && m.threads[s.next] == th && th.job in m.jobs
    requires m.jobs[th.job].stopper == s.jobs[th.job].stopper && m.jobs[th.job].rpc == s.jobs[th.job].rpc
    requires m.active == s.active && m.closing == s.closing && m.epoch == s.epoch && m.current == s.current
    ensures Caught(s, Fails(m, s.next, a), s.next, th, a)
  {
    hide Fails;
    FailsCatches(m, s.next, a);
  }

  lemma ResumeFalls(s: State, e: Event)
    requires Referenced(s) && s.next !in s.threads && e.PostResume? && Accepted(s, e) && !Smooth(s, e)
    ensures Fell(s, Next(s, e), e)
  {
    hide Fails; hide SpawnTimed; hide Caught;
    var th := Handoff(e.job, s.epoch, true, SameIdle, s.current, false);
    OpenedNow(s, th);
    var m := WithJob(SpawnTimed(s, th), e.job, s.jobs[e.job].(phase := GivingBack, waiting := Nobody));
    SpawnedCatches(s, m, th, e.answer);
    ResumedPhase(m, s.next, e.answer);
  }

  /** A resume that fails at once is not left to the operator, so its phase stays. */
  lemma ResumedPhase(s: State, t: Id, a: Answer)
    requires t in s.threads && s.threads[t].Handoff? && s.threads[t].again && !s.threads[t].canWait && s.threads[t].job in s.jobs
    ensures var r := Fails(s, t, a); s.threads[t].job in r.jobs && r.jobs[s.threads[t].job].phase == s.jobs[s.threads[t].job].phase
  {
    hide BeginStop; hide Revoke;
    var j := s.threads[t].job;
    RevokeFacts(s, j, a);
    StopContext(Revoke(s, j, a), j, a);
    StopLeavesControl(Revoke(s, j, a), j, a);
  }

  lemma PauseFalls(s: State, e: Event)
    requires Referenced(s) && s.next !in s.threads && e.TakeControl? && Accepted(s, e) && !Smooth(s, e)
    ensures Fell(s, Next(s, e), e)
  {
    hide BeginStop; hide Revoke;
    var m := Spawn(RaiseEpoch(WithJob(s, e.job, s.jobs[e.job].(phase := Pausing, waiting := Nobody))), Pause(e.job, CancellingPi));
    RevokeFacts(m, e.job, e.answer);
    RevokeFrame(m, e.job, e.answer);
    StopLeavesControl(Revoke(m, e.job, e.answer), e.job, e.answer);
    StopContext(Revoke(m, e.job, e.answer), e.job, e.answer);
  }

  lemma UploadedNeverStopped(s: State, j: Id)
    requires Inv(s) && j in s.jobs && s.jobs[j].status == Uploaded
    ensures !s.jobs[j].Stops()
  {
    assert JobOk(s, j);
  }

  lemma AcceptedRequestFalls(s: State, e: Event)
    requires Inv(s) && Referenced(s) && Accepted(s, e) && !Smooth(s, e)
    ensures Fell(s, Next(s, e), e)
  {
    NextIsFree(s);
    if e.PostStart? {
      UploadedNeverStopped(s, e.job);
    }
    hide Inv; hide Fell; hide Next; hide Referenced; hide Accepts;
    if e.PostStart? {
      StartFalls(s, e.job, e.answer);
    } else if e.PostAnswer? {
      ReturnFalls(s, e.job, e.answer);
    } else if e.PostResume? {
      ResumeFalls(s, e);
    } else {
      PauseFalls(s, e);
    }
  }

  /** In every run a request changes nothing unless it is accepted; accepted, it begins or ends as it must. */
  lemma RequestsTakeEffect(es: seq<Event>, e: Event)
    ensures Referenced(Run(es))
    ensures var s, r := Run(es), Run(es + [e]);
            if !Accepted(s, e) then r == s else if Smooth(s, e) then Begins(s, r, e) else Fell(s, r, e)
  {
    hide Run; hide Inv; hide Next; hide Accepted; hide Smooth; hide Begins; hide Fell; hide Referenced;
    RunSnoc(es, e);
    if !Accepted(Run(es), e) {
      Refused(Run(es), e);
    } else if Smooth(Run(es), e) {
      AcceptedRequestBegins(Run(es), e);
    } else {
      AcceptedRequestFalls(Run(es), e);
    }
  }
}
