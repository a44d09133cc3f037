// The log is honest: it only grows, and nothing puts a browser into the agent's hands without an entry.
module ControllerHistory {
  import opened Wrappers
  import opened ControllerState
  import opened ControllerMoves
  import opened JobController
  import opened ControllerSafety

  /** From `s` to `r` the log grew, jobs stayed, and whatever job `j` gained for the agent is on record. */
  predicate Lengthens(s: State, r: State, j: Id) {
    && s.log <= r.log && s.jobs.Keys <= r.jobs.Keys
    && (Holds(r.current, j) && !Holds(s.current, j) ==> Granted(j, true) in r.log[|s.log|..])
    && (j in s.jobs && r.jobs[j].owner == Agent && s.jobs[j].owner != Agent ==> Granted(j, false) in r.log[|s.log|..])
  }

  /** ... and `busy` was not left behind by a request that threw. */
  predicate Grows(s: State, r: State, j: Id) {
    Lengthens(s, r, j) && (Wedged in r.log ==> Wedged in s.log)
  }

  /** ... and no generation was committed. */
  predicate Tracks(s: State, r: State, j: Id) {
    Grows(s, r, j) && r.context.generation == s.context.generation
  }

  lemma LengthensTrans(s: State, m: State, r: State, j: Id)
    requires Lengthens(s, m, j) && Lengthens(m, r, j)
    ensures Lengthens(s, r, j)
  {
    assert r.log[|s.log|..] == m.log[|s.log|..] + r.log[|m.log|..];
  }

  lemma GrowsTrans(s: State, m: State, r: State, j: Id)
    requires Grows(s, m, j) && Grows(m, r, j)
    ensures Grows(s, r, j)
  {
    LengthensTrans(s, m, r, j);
  }

  lemma Trans(s: State, m: State, r: State, j: Id)
    requires Tracks(s, m, j) && Tracks(m, r, j)
    ensures Tracks(s, r, j)
  {
    GrowsTrans(s, m, r, j);
  }

  /** A change that adds at most one entry and gives the agent nothing. */
  lemma Plainly(s: State, r: State, j: Id)
    requires s.jobs.Keys <= r.jobs.Keys && (r.log == s.log || exists e :: e != Wedged && r.log == s.log + [e])
    requires r.context.generation == s.context.generation
    requires r.current == s.current || r.current.owner != Agent
    requires j in s.jobs ==> r.jobs[j].owner == s.jobs[j].owner || r.jobs[j].owner != Agent
    ensures Tracks(s, r, j)
  {
  }

  lemma RevokeTracks(s: State, k: Id, a: Answer, j: Id)
    requires k in s.jobs
    ensures Tracks(s, Revoke(s, k, a), j) && Revoke(s, k, a).threads == s.threads && Revoke(s, k, a).jobs.Keys == s.jobs.Keys
    ensures Revoke(s, k, a).log == s.log
  {
  }

  lemma MarkTracks(s: State, k: Id, stopper: Stopper, a: Answer, j: Id)
    requires k in s.jobs
    ensures Tracks(s, SecureIf(MarkStopping(s, k, stopper), k, a), j)
    ensures SecureIf(MarkStopping(s, k, stopper), k, a).threads == s.threads && SecureIf(MarkStopping(s, k, stopper), k, a).jobs.Keys == s.jobs.Keys
  {
    Plainly(s, MarkStopping(s, k, stopper), j);
    hide Tracks;
    var m := MarkStopping(s, k, stopper);
    SecureTracks(m, k, a, j);
    Trans(s, m, SecureIf(m, k, a), j);
  }

  lemma BeginStopTracks(s: State, k: Id, a: Answer, j: Id)
    requires k in s.jobs
    ensures Tracks(s, BeginStop(s, k, a), j) && BeginStop(s, k, a).threads == s.threads && BeginStop(s, k, a).jobs.Keys == s.jobs.Keys
  {
    hide Revoke; hide MarkStopping; hide SecureIf;
    var halted := WithJob(s, k, s.jobs[k].(status := Stopping, waiting := Nobody, pauseId := None));
    var revoked := Revoke(halted, k, a.OfStop());
    RevokeTracks(halted, k, a.OfStop(), j);
    var stopper := if s.jobs[k].rpc then Cancelling else AwaitingBrowser;
    MarkTracks(revoked, k, stopper, a.OfStop(), j);
    Plainly(s, halted, j);
    Trans(s, halted, revoked, j);
    Trans(s, revoked, SecureIf(MarkStopping(revoked, k, stopper), k, a.OfStop()), j);
    Plainly(s, s, j);
  }

  lemma SecureTracks(s: State, k: Id, a: Answer, j: Id)
    ensures Tracks(s, SecureIf(s, k, a), j)
  {
    var own := if a.jobFile then Note(s, Secured(k, false)) else s;
    Plainly(s, own, j);
    Plainly(own, SecureIf(s, k, a), j);
    hide Tracks;
    Trans(s, own, SecureIf(s, k, a), j);
  }

  /** Of the later segments of a stop only the second revocation enters anything. */
  lemma StopSegments(s: State, k: Id, a: Answer)
    requires k in s.jobs
    ensures var r := StepStop(s, k, a);
            if s.jobs[k].stopper == AwaitingBrowser && !s.jobs[k].provisioning then
              var v := Revoke(s, k, a); r == SecureIf(WithJob(v, k, v.jobs[k].(stopper := Cleaning)), k, a)
            else
              && r.log == s.log && r.context == s.context && r.jobs.Keys == s.jobs.Keys && r.current == s.current
              && (r.active == s.active || r.active.None?) && (forall j <- s.jobs :: r.jobs[j].owner == s.jobs[j].owner)
  {
    hide Revoke; hide SecureIf;
  }

  lemma StepStopTracks(s: State, k: Id, a: Answer, j: Id)
    requires k in s.jobs
    ensures Tracks(s, StepStop(s, k, a), j)
  {
    StopSegments(s, k, a);
    hide Revoke; hide SecureIf; hide Tracks; hide StepStop;
    if s.jobs[k].stopper == AwaitingBrowser && !s.jobs[k].provisioning {
      var r := Revoke(s, k, a);
      RevokeTracks(s, k, a, j);
      var c := WithJob(r, k, r.jobs[k].(stopper := Cleaning));
      Plainly(r, c, j);
      SecureTracks(c, k, a, j);
      Trans(s, r, c, j);
      Trans(s, c, SecureIf(c, k, a), j);
    } else {
      Plainly(s, StepStop(s, k, a), j);
    }
  }

  lemma StopAndLeaveTracks(s: State, t: Id, a: Answer, j: Id)
    requires t in s.threads && s.threads[t].Handoff? && s.threads[t].job in s.jobs
    ensures Tracks(s, StopAndLeave(s, t, a), j)
  {
    hide BeginStop;
    BeginStopTracks(s, s.threads[t].job, a, j);
    Plainly(BeginStop(s, s.threads[t].job, a), StopAndLeave(s, t, a), j);
    Trans(s, BeginStop(s, s.threads[t].job, a), StopAndLeave(s, t, a), j);
  }

  lemma FailsTracks(s: State, t: Id, a: Answer, j: Id)
    requires t in s.threads && s.threads[t].Handoff? && s.threads[t].job in s.jobs
    ensures Tracks(s, Fails(s, t, a), j)
  {
    hide StopAndLeave; hide Revoke;
    var k := s.threads[t].job;
    StopAndLeaveTracks(s, t, a, j);
    var r := Revoke(s, k, a);
    RevokeTracks(s, k, a, j);
    StopAndLeaveTracks(r, t, a, j);
    Trans(s, r, StopAndLeave(r, t, a), j);
    Plainly(r, Move(r, t, Retain), j);
    Trans(s, r, Move(r, t, Retain), j);
    Plainly(r, End(Waits(r, k, Setup), t), j);
    Trans(s, r, End(Waits(r, k, Setup), t), j);
    Plainly(s, End(s, t), j);
  }

  lemma WriteTracks(s: State, file: Runtime, j: Id)
    ensures Tracks(s, WriteShared(s, file), j)
  {
  }

  lemma UndoTracks(s: State, t: Id, a: Answer, j: Id)
    requires t in s.threads && s.threads[t].Handoff?
    ensures Tracks(s, Undo(s, t, a), j)
  {
    Plainly(s, Undo(s, t, a), j);
  }

  lemma GrantedTracks(s: State, k: Id, j: Id)
    requires k in s.jobs
    ensures Tracks(s, Note(WithJob(s, k, s.jobs[k].(owner := Agent)), Granted(k, false)), j)
  {
  }

  lemma PromptTracks(s: State, t: Id, j: Id)
    requires t in s.threads && s.threads[t].Handoff?
    ensures var k := s.threads[t].job; var r := Note(Move(s, t, Prompting), Prompted(t, k));
            Tracks(s, r, j) && Tracks(s, Note(r, FirstPrompt(k)), j)
  {
    var k := s.threads[t].job;
    var r := Note(Move(s, t, Prompting), Prompted(t, k));
    Plainly(s, r, j);
    Plainly(r, Note(r, FirstPrompt(k)), j);
    Trans(s, r, Note(r, FirstPrompt(k)), j);
  }

  lemma ResumedTracks(s: State, k: Id, j: Id)
    requires k in s.jobs
    ensures Tracks(s, s, j) && Tracks(s, Resumed(s, k), j) && Resumed(s, k).threads == s.threads && Resumed(s, k).jobs.Keys == s.jobs.Keys
  {
    Plainly(s, s, j);
    Plainly(s, Resumed(s, k), j);
  }

  lemma LaunchTracks(s: State, t: Id, a: Answer, j: Id)
    requires t in s.threads && s.threads[t].Handoff? && s.threads[t].job in s.jobs
    ensures Tracks(s, Launch(s, t, a), j)
  {
    hide Fails; hide Tracks; hide Evidence; hide Resumed;
    var th := s.threads[t];
    var k := th.job;
    var live := if th.again then s else WithJob(s, k, s.jobs[k].(status := Running, phase := Executing, waiting := Nobody));
    FailsTracks(live, t, a, j);
    Plainly(s, live, j);
    var granted := Note(WithJob(live, k, live.jobs[k].(owner := Agent)), Granted(k, false));
    GrantedTracks(live, k, j);
    Trans(s, live, granted, j);
    FailsTracks(granted, t, a, j);
    var executing := if th.again then Resumed(granted, k) else granted;
    ResumedTracks(granted, k, j);
    Trans(s, granted, executing, j);
    FailsTracks(executing, t, a, j);
    PromptTracks(executing, t, j);
    if a.reach == 0 {
      Trans(s, live, Launch(s, t, a), j);
    } else if a.reach == 1 || (th.again && !Evidence(granted, k, Agent)) {
      Trans(s, granted, Launch(s, t, a), j);
    } else {
      Trans(s, executing, Launch(s, t, a), j);
    }
  }

  lemma ThreadTracks(s: State, t: Id, j: Id)
    ensures forall th :: Tracks(s, WithThread(s, t, th), j)
  {
    forall th
      ensures Tracks(s, WithThread(s, t, th), j)
    {
      Plainly(s, WithThread(s, t, th), j);
    }
  }

  lemma EndTracks(s: State, t: Id, j: Id)
    ensures Tracks(s, End(s, t), j) && Tracks(s, Drop(s, t), j) && Tracks(s, EndClear(s, t), j) && Tracks(s, s, j)
  {
    Plainly(s, End(s, t), j);
    Plainly(s, Drop(s, t), j);
    Plainly(s, EndClear(s, t), j);
    Plainly(s, s, j);
  }

  lemma WrittenTracks(s: State, t: Id, file: Runtime, at: HandoffPoint, j: Id)
    requires t in s.threads && s.threads[t].Handoff?
    ensures Tracks(s, Move(WriteShared(s, file), t, at), j)
  {
    WriteTracks(s, file, j);
    ThreadTracks(WriteShared(s, file), t, j);
    Trans(s, WriteShared(s, file), Move(WriteShared(s, file), t, at), j);
  }

  lemma StepToGrantTracks(s: State, t: Id, a: Answer, j: Id)
    requires t in s.threads && s.threads[t].Handoff? && s.threads[t].job in s.jobs
    ensures Tracks(s, StepToGrant(s, t, a), j)
  {
    hide Fails; hide Undo; hide Cancelled; hide Transits; hide WriteShared; hide Tracks; hide WithThread;
    FailsTracks(s, t, a, j);
    UndoTracks(s, t, a, j);
    ThreadTracks(s, t, j);
    var th := s.threads[t];
    WrittenTracks(s, t, th.seen, SelectRead, j);
    WrittenTracks(s, t, th.seen, BeforeSafety, j);
    WrittenTracks(s, t, s.current.(owner := Returning), Locate, j);
    WrittenTracks(s, t, s.current.(owner := Locating), Confirm, j);
    WriteTracks(Move(s, t, Login), s.current.(owner := Agent), j);
    Trans(s, Move(s, t, Login), WriteShared(Move(s, t, Login), s.current.(owner := Agent)), j);
  }

  lemma EditTracks(s: State, k: Id, job: Job, j: Id)
    requires k in s.jobs && (job.owner == s.jobs[k].owner || job.owner != Agent)
    ensures Tracks(s, WithJob(s, k, job), j)
  {
    Plainly(s, WithJob(s, k, job), j);
  }

  lemma WaitsTracks(s: State, t: Id, k: Id, w: Waiting, j: Id)
    requires k in s.jobs
    ensures Tracks(s, Waits(s, k, w), j) && Tracks(s, End(Waits(s, k, w), t), j) && Tracks(s, Drop(Waits(s, k, w), t), j)
  {
    Plainly(s, Waits(s, k, w), j);
    Plainly(s, End(Waits(s, k, w), t), j);
    Plainly(s, Drop(Waits(s, k, w), t), j);
  }

  lemma WaitsFrame(s: State, k: Id, w: Waiting)
    requires k in s.jobs
    ensures Waits(s, k, w).threads == s.threads && Waits(s, k, w).jobs.Keys == s.jobs.Keys
  {
  }

  lemma StepAfterGrantTracks(s: State, t: Id, a: Answer, j: Id)
    requires t in s.threads && s.threads[t].Handoff? && s.threads[t].job in s.jobs
    ensures Tracks(s, StepAfterGrant(s, t, a), j)
  {
    hide Fails; hide Undo; hide Cancelled; hide Launch; hide StopAndLeave; hide Tracks; hide WithThread; hide Waits; hide End; hide LaunchPi;
    FailsTracks(s, t, a, j);
    UndoTracks(s, t, a, j);
    ThreadTracks(s, t, j);
    LaunchTracks(s, t, a, j);
    StopAndLeaveTracks(s, t, a, j);
    EndTracks(s, t, j);
    var k := s.threads[t].job;
    var job := s.jobs[k];
    WaitsTracks(s, t, k, Operator, j);
    LaunchPiTracks(s, t, j);
    EditedFailsTracks(s, t, a, job.(owner := User, status := PreparationFailed), j);
    EditedFailsTracks(s, t, a, job.(status := PreparationFailed), j);
  }

  lemma LaunchPiTracks(s: State, t: Id, j: Id)
    requires t in s.threads && s.threads[t].Handoff? && s.threads[t].job in s.jobs
    ensures Tracks(s, LaunchPi(s, t, s.jobs[s.threads[t].job].(rpc := true, owner := User, status := Preparing)), j)
  {
    Plainly(s, LaunchPi(s, t, s.jobs[s.threads[t].job].(rpc := true, owner := User, status := Preparing)), j);
  }

  lemma EditedFailsTracks(s: State, t: Id, a: Answer, job: Job, j: Id)
    requires t in s.threads && s.threads[t].Handoff? && s.threads[t].job in s.jobs
    requires job.owner == s.jobs[s.threads[t].job].owner || job.owner != Agent
    ensures Tracks(s, Fails(WithJob(s, s.threads[t].job, job), t, a), j)
  {
    hide Fails;
    var r := WithJob(s, s.threads[t].job, job);
    EditTracks(s, s.threads[t].job, job, j);
    FailsTracks(r, t, a, j);
    Trans(s, r, Fails(r, t, a), j);
  }

  lemma StartFailsTracks(s: State, t: Id, a: Answer, j: Id)
    requires t in s.threads && s.threads[t].Start? && s.threads[t].job in s.jobs
    ensures Tracks(s, StartFails(s, t, a), j)
  {
    hide BeginStop;
    BeginStopTracks(s, s.threads[t].job, a, j);
    Plainly(BeginStop(s, s.threads[t].job, a), StartFails(s, t, a), j);
    Trans(s, BeginStop(s, s.threads[t].job, a), StartFails(s, t, a), j);
  }

  lemma SettleBrowserTracks(s: State, t: Id, good: bool, j: Id)
    requires t in s.threads && s.threads[t].Start? && s.threads[t].job in s.jobs
    ensures Tracks(s, SettleBrowser(s, t, good), j)
    ensures var seen := s.threads[t].seen; Tracks(s, SettleBrowser(s.(current := seen.(owner := User)), t, good), j)
  {
    Plainly(s, SettleBrowser(s, t, good), j);
    Plainly(s, SettleBrowser(s.(current := s.threads[t].seen.(owner := User)), t, good), j);
  }

  lemma WritingTracks(s: State, t: Id, j: Id)
    requires t in s.threads && s.threads[t].Start? && s.threads[t].job in s.jobs
    ensures Tracks(s, StartAt(s.(current := Runtime(Some(s.threads[t].job), Bootstrapping)), t, Observing), j)
  {
    Plainly(s, StartAt(s.(current := Runtime(Some(s.threads[t].job), Bootstrapping)), t, Observing), j);
  }

  lemma StepStartTracks(s: State, t: Id, a: Answer, j: Id)
    requires t in s.threads && s.threads[t].Start? && s.threads[t].job in s.jobs
    ensures Tracks(s, StepStart(s, t, a), j)
  {
    hide StartFails; hide SettleBrowser; hide Tracks; hide WithThread; hide End; hide Waits;
    var k := s.threads[t].job;
    StartFailsTracks(s, t, a, j);
    SettleBrowserTracks(s, t, false, j);
    SettleBrowserTracks(s, t, s.threads[t].good, j);
    WritingTracks(s, t, j);
    ThreadTracks(s, t, j);
    EndTracks(s, t, j);
    var ready := WithJob(s, k, s.jobs[k].(owner := User));
    EditTracks(s, k, ready.jobs[k], j);
    WaitsTracks(ready, t, k, Setup, j);
    Trans(s, ready, Waits(ready, k, Setup), j);
    Trans(s, ready, End(Waits(ready, k, Setup), t), j);
    WaitsFrame(ready, k, Setup);
    StartFailsTracks(Waits(ready, k, Setup), t, a, j);
    Trans(s, Waits(ready, k, Setup), StartFails(Waits(ready, k, Setup), t, a), j);
  }

  lemma PauseFailsTracks(s: State, t: Id, a: Answer, j: Id)
    requires t in s.threads && s.threads[t].Pause? && s.threads[t].job in s.jobs
    ensures Tracks(s, PauseFails(s, t, a), j)
  {
    hide BeginStop;
    if s.jobs[s.threads[t].job].Stops() {
      Plainly(s, End(s, t), j);
    } else {
      BeginStopTracks(s, s.threads[t].job, a, j);
      Plainly(BeginStop(s, s.threads[t].job, a), PauseFails(s, t, a), j);
      Trans(s, BeginStop(s, s.threads[t].job, a), PauseFails(s, t, a), j);
    }
  }

  lemma StepPauseTracks(s: State, t: Id, a: Answer, j: Id)
    requires t in s.threads && s.threads[t].Pause? && s.threads[t].job in s.jobs
    ensures Tracks(s, StepPause(s, t, a), j)
  {
    hide PauseFails; hide Tracks; hide Waits; hide Paused; hide WithThread; hide Evidence; hide End;
    var k := s.threads[t].job;
    PauseFailsTracks(s, t, a, j);
    EndTracks(s, t, j);
    ThreadTracks(s, t, j);
    PausedTracks(s, t, k, j);
    var r := Waits(Paused(s, k), k, Operator);
    PauseFailsTracks(r, t, a, j);
    Trans(s, r, PauseFails(r, t, a), j);
  }

  lemma PausedTracks(s: State, t: Id, k: Id, j: Id)
    requires k in s.jobs
    ensures k in Paused(s, k).jobs
    ensures var r := Waits(Paused(s, k), k, Operator);
            && Tracks(s, r, j) && Tracks(s, End(r, t), j) && Tracks(s, Drop(r, t), j)
            && r.threads == s.threads && r.jobs.Keys == s.jobs.Keys
  {
    Plainly(s, Waits(Paused(s, k), k, Operator), j);
    Plainly(s, End(Waits(Paused(s, k), k, Operator), t), j);
    Plainly(s, Drop(Waits(Paused(s, k), k, Operator), t), j);
  }

  lemma StopAndDropTracks(s: State, t: Id, k: Id, a: Answer, j: Id)
    requires k in s.jobs
    ensures Tracks(s, StopAndDrop(s, t, k, a), j)
  {
    hide BeginStop;
    BeginStopTracks(s, k, a, j);
    EndTracks(BeginStop(s, k, a), t, j);
    Trans(s, BeginStop(s, k, a), StopAndDrop(s, t, k, a), j);
  }

  lemma StepSettleTracks(s: State, t: Id, a: Answer, j: Id)
    requires t in s.threads && s.threads[t].Settle? && s.threads[t].job in s.jobs
    ensures Tracks(s, StepSettle(s, t, a), j)
  {
    hide StopAndDrop; hide Tracks; hide Waits; hide Paused; hide WithThread; hide Evidence; hide Drop; hide Revoke;
    var k := s.threads[t].job;
    StopAndDropTracks(s, t, k, a, j);
    EndTracks(s, t, j);
    ThreadTracks(s, t, j);
    PausedTracks(s, t, k, j);
    var waiting := Waits(Paused(s, k), k, Operator);
    StopAndDropTracks(waiting, t, k, a, j);
    Trans(s, waiting, StopAndDrop(waiting, t, k, a), j);
    var pausing := WithJob(s, k, s.jobs[k].(phase := Pausing, waiting := Nobody));
    EditTracks(s, k, pausing.jobs[k], j);
    var r := Revoke(pausing, k, a);
    RevokeTracks(pausing, k, a, j);
    Trans(s, pausing, r, j);
    ThreadTracks(r, t, j);
    Trans(s, r, WithThread(r, t, s.threads[t].(settleAt := Retaining)), j);
    StopAndDropTracks(r, t, k, a, j);
    Trans(s, r, StopAndDrop(r, t, k, a), j);
  }

  /** The two kinds of thread that commit a generation. */
  predicate Commits(th: Thread) {
    th.Upload? || th.Clear?
  }

  lemma StepUploadGrows(s: State, t: Id, a: Answer, j: Id)
    requires t in s.threads && s.threads[t].Upload?
    ensures Grows(s, StepUpload(s, t, a), j)
  {
  }

  lemma ClearPriorTracks(s: State, prior: Option<Id>, j: Id)
    requires prior.Some? ==> prior.value in s.jobs
    ensures Tracks(s, ClearPrior(s, prior), j)
  {
    Plainly(s, ClearPrior(s, prior), j);
  }

  lemma CommittedGrows(s: State, t: Id, j: Id)
    ensures Grows(s, EndClear(Commit(s, None, ClearCommitted(t)), t), j)
  {
  }

  lemma StepClearGrows(s: State, t: Id, a: Answer, j: Id)
    requires t in s.threads && s.threads[t].Clear? && JobKnown(s, t)
    ensures Grows(s, StepClear(s, t, a), j)
  {
    hide Grows; hide ClearPrior; hide EndClear; hide Commit; hide WithThread;
    var prior := ClearPrior(s, s.threads[t].prior);
    ClearPriorTracks(s, s.threads[t].prior, j);
    EndTracks(s, t, j);
    EndTracks(prior, t, j);
    ThreadTracks(s, t, j);
    CommittedGrows(prior, t, j);
    GrowsTrans(s, prior, EndClear(prior, t), j);
    GrowsTrans(s, prior, EndClear(Commit(prior, None, ClearCommitted(t)), t), j);
  }

  lemma StepSaveTracks(s: State, t: Id, a: Answer, j: Id)
    requires t in s.threads && s.threads[t].Save?
    ensures Tracks(s, StepSave(s, t, a), j)
  {
    Plainly(s, StepSave(s, t, a), j);
  }

  lemma StepSteerTracks(s: State, t: Id, a: Answer, j: Id)
    requires t in s.threads && s.threads[t].Steer?
    ensures Tracks(s, StepSteer(s, t, a), j)
  {
    Plainly(s, StepSteer(s, t, a), j);
  }

  lemma StepThreadTracks(s: State, t: Id, a: Answer, j: Id)
    requires t in s.threads && JobKnown(s, t)
    ensures var r := StepThread(s, t, a); Grows(s, r, j) && (!Commits(s.threads[t]) ==> Tracks(s, r, j))
  {
    hide StepStart; hide StepPause; hide StepUpload; hide StepSave; hide StepClear; hide StepSteer; hide StepSettle;
    hide StepToGrant; hide StepAfterGrant; hide Grows;
    match s.threads[t]
    case Start(_, _, _, _) => StepStartTracks(s, t, a, j);
    case Handoff(_, _, _, _, _, _) => StepToGrantTracks(s, t, a, j); StepAfterGrantTracks(s, t, a, j);
    case Pause(_, _) => StepPauseTracks(s, t, a, j);
    case Settle(_, _) => StepSettleTracks(s, t, a, j);
    case Upload(_) => StepUploadGrows(s, t, a, j);
    case Save(_, _, _) => StepSaveTracks(s, t, a, j);
    case Clear(_, _, _, _) => StepClearGrows(s, t, a, j);
    case Steer(_) => StepSteerTracks(s, t, a, j);
  }

  lemma BeginReturnTracks(s: State, k: Id, a: Answer, j: Id)
    ensures Tracks(s, BeginReturn(s, k, a), j)
  {
    hide Fails;
    var r := SpawnTimed(s, Handoff(k, s.epoch, false, ReadTarget, s.current, false));
    Plainly(s, s, j);
    Plainly(s, r, j);
    if k in s.jobs {
      FailsTracks(r, s.next, a, j);
      Trans(s, r, Fails(r, s.next, a), j);
    }
  }

  lemma WedgeLengthens(s: State, j: Id)
    ensures Lengthens(s, Wedge(s), j) && Wedged in Wedge(s).log
  {
    assert Wedge(s).log[|s.log|] == Wedged;
  }

  lemma BeginResumeTracks(s: State, k: Id, pauseId: Option<Id>, a: Answer, j: Id)
    ensures var r := BeginResume(s, k, pauseId, a);
            && Lengthens(s, r, j) && r.context.generation == s.context.generation
            && (if MayResume(s, k, pauseId, a) && a.reach == 0 then Wedged in r.log else Tracks(s, r, j))
  {
    hide Fails;
    Plainly(s, s, j);
    if k in s.jobs {
      var given := s.jobs[k].(phase := GivingBack, waiting := Nobody);
      Plainly(s, WithJob(s, k, given), j);
      WedgeLengthens(WithJob(s, k, given), j);
      LengthensTrans(s, WithJob(s, k, given), Wedge(WithJob(s, k, given)), j);
      var r := WithJob(SpawnTimed(s, Handoff(k, s.epoch, true, SameIdle, s.current, false)), k, given);
      Plainly(s, r, j);
      FailsTracks(r, s.next, a, j);
      Trans(s, r, Fails(r, s.next, a), j);
    }
  }

  lemma BeginStartTracks(s: State, k: Id, a: Answer, j: Id)
    ensures Tracks(s, BeginStart(s, k, a), j)
  {
    hide StartFails;
    Plainly(s, s, j);
    if k in s.jobs {
      var live := Activate(s, k, s.jobs[k].(status := Running, phase := BrowserStarting, provisioning := a.more, waiting := Nobody));
      var r := Spawn(live, Start(k, Provision, s.current, true));
      Plainly(s, r, j);
      Plainly(s, r.(context := r.context.(job := Some(k))), j);
      StartFailsTracks(r, s.next, a, j);
      Trans(s, r, StartFails(r, s.next, a), j);
    }
  }

  lemma BeginPauseTracks(s: State, k: Id, generation: Option<Id>, a: Answer, j: Id)
    ensures var r := BeginPause(s, k, generation, a);
            && Lengthens(s, r, j) && r.context.generation == s.context.generation
            && (if MayPause(s, k, generation, a) && a.reach == 0 then Wedged in r.log else Tracks(s, r, j))
  {
    hide PauseFails; hide Revoke; hide Lengthens;
    Plainly(s, s, j);
    if k in s.jobs {
      var r := RaiseEpoch(WithJob(s, k, s.jobs[k].(phase := Pausing, waiting := Nobody)));
      RaisedPausing(s, k, j);
      WedgeLengthens(r, j);
      LengthensTrans(s, r, Wedge(r), j);
      var p := Spawn(r, Pause(k, CancellingPi));
      SpawnTracks(r, Pause(k, CancellingPi), j);
      Trans(s, r, p, j);
      RevokeTracks(p, k, a, j);
      Trans(s, p, Revoke(p, k, a), j);
      PauseFailsTracks(Revoke(p, k, a), s.next, a, j);
      Trans(s, Revoke(p, k, a), PauseFails(Revoke(p, k, a), s.next, a), j);
    }
  }

  lemma RaisedPausing(s: State, k: Id, j: Id)
    requires k in s.jobs
    ensures Tracks(s, RaiseEpoch(WithJob(s, k, s.jobs[k].(phase := Pausing, waiting := Nobody))), j)
  {
    Plainly(s, RaiseEpoch(WithJob(s, k, s.jobs[k].(phase := Pausing, waiting := Nobody))), j);
  }

  lemma BeginClearTracks(s: State, generation: Option<Id>, prepare: bool, replace: bool, requested: Option<Id>, a: Answer, j: Id)
    ensures Tracks(s, BeginClear(s, generation, prepare, replace, requested, a), j)
  {
    hide BeginStop; hide Tracks;
    var id := if replace || requested.None? then s.context.job else requested;
    Plainly(s, s, j);
    if MayClear(s, generation, replace, requested, id) {
      var r := RaiseEpoch(s);
      Plainly(s, r, j);
      Plainly(r, Spawn(r, Clear(generation, prepare, id, Draining)), j);
      Trans(s, r, Spawn(r, Clear(generation, prepare, id, Draining)), j);
      if s.active.Some? {
        var stopping := BeginStop(r, s.active.value, a);
        BeginStopTracks(r, s.active.value, a, j);
        Trans(s, r, stopping, j);
        var th := Clear(generation, prepare, s.active, AwaitingStop(s.active.value));
        Plainly(stopping, Spawn(stopping, th), j);
        Trans(s, stopping, Spawn(stopping, th), j);
      }
    }
  }

  lemma StopLiveTracks(s: State, m: State, a: Answer, j: Id)
    requires Tracks(s, m, j) && (m.active.Some? ==> m.active.value in m.jobs)
    ensures Tracks(s, StopLive(m, m.active, a), j)
  {
    hide BeginStop;
    if m.active.Some? {
      BeginStopTracks(m, m.active.value, a, j);
      Trans(s, m, BeginStop(m, m.active.value, a), j);
    }
  }

  /** The one kind of step that commits a generation. */
  predicate CommitStep(s: State, e: Event) {
    e.Continue? && e.thread in s.threads && Commits(s.threads[e.thread])
  }

  /** The requests that may start a thread of a job. */
  predicate Request(e: Event) {
    e.PostJob? || e.PostStart? || e.PostAnswer? || e.PostResume? || e.TakeControl? || e.PostClear? || e.PostSteer?
  }

  lemma RequestTracks(s: State, e: Event, j: Id)
    requires Inv(s) && Referenced(s)
    requires Request(e)
    ensures var r := Next(s, e);
            && Lengthens(s, r, j) && r.context.generation == s.context.generation
            && (if Wedges(s, e) then Wedged in r.log else Tracks(s, r, j))
  {
    hide Inv; hide Referenced; hide BeginStart; hide BeginReturn; hide BeginResume; hide BeginPause; hide BeginClear;
    hide Lengthens; hide MayResume; hide MayPause; hide CreateJob; hide SpawnTimed; hide Spawn;
    EndTracks(s, 0, j);
    match e
    case PostJob(_, source, _) => CreatedTracks(s, source, j);
    case PostStart(k, a) => BeginStartTracks(s, k, a, j);
    case PostAnswer(k, a) => BeginReturnTracks(s, k, a, j);
    case PostResume(k, pauseId, a) => BeginResumeTracks(s, k, pauseId, a, j);
    case TakeControl(k, generation, a) => BeginPauseTracks(s, k, generation, a, j);
    case PostClear(generation, prepare, replace, requested, a) => BeginClearTracks(s, generation, prepare, replace, requested, a, j);
    case PostSteer(k, _) => SpawnTracks(s, Steer(k), j);
  }

  lemma OtherTracks(s: State, e: Event, j: Id)
    requires Inv(s) && Referenced(s) && !Request(e) && !e.Continue?
    ensures Tracks(s, Next(s, e), j) && !Wedges(s, e)
  {
    InvIdle(s);
    hide Inv; hide Referenced; hide BeginSettle; hide BeginStop; hide StepStop; hide StopLive; hide Tracks; hide SpawnTimed;
    EndTracks(s, 0, j);
    match e
    case UploadWorkbook(_, _) => SpawnTracks(s, Upload(s.epoch), j);
    case SaveWorkbook(generation, workbook, _) => SpawnTracks(s, Save(s.epoch, generation, workbook), j);
    case StopAll(a) =>
      RaisedTracks(s, j);
      StopLiveTracks(s, RaiseEpoch(s), a, j);
    case Shutdown(a) =>
      RaisedTracks(s, j);
      StopLiveTracks(s, Close(s), a, j);
    case AgentSettled(k, _) => SettleTracks(s, k, j);
    case ContinueStop(k, a) =>
      if k in s.jobs {
        StepStopTracks(s, k, a, j);
      }
    case PostStop(k, a) =>
      if s.active == Some(k) {
        BeginStopTracks(s, k, a, j);
      }
    case Trouble(k, a) =>
      if s.active == Some(k) {
        BeginStopTracks(s, k, a, j);
      }
  }

  lemma ContinueTracks(s: State, e: Event, j: Id)
    requires Inv(s) && Referenced(s) && e.Continue?
    ensures Grows(s, Next(s, e), j) && !Wedges(s, e)
    ensures !CommitStep(s, e) ==> Tracks(s, Next(s, e), j)
  {
    hide Tracks; hide Grows; hide StepThread; hide Inv; hide Referenced;
    if e.thread in s.threads {
      InvThread(s, e.thread);
      StepThreadTracks(s, e.thread, e.answer, j);
    } else {
      EndTracks(s, 0, j);
      TracksGrows(s, s, j);
    }
  }

  lemma TracksGrows(s: State, r: State, j: Id)
    requires Tracks(s, r, j)
    ensures Grows(s, r, j)
  {
  }

  /** Every step. */
  lemma NextTracks(s: State, e: Event, j: Id)
    requires Inv(s)
    ensures Referenced(s) && Lengthens(s, Next(s, e), j)
    ensures if Wedges(s, e) then Wedged in Next(s, e).log else Grows(s, Next(s, e), j)
    ensures !CommitStep(s, e) ==> Next(s, e).context.generation == s.context.generation
  {
    InvIdle(s);
    hide Inv; hide Referenced; hide Next; hide Lengthens; hide Wedges;
    if e.Continue? {
      ContinueTracks(s, e, j);
    } else if Request(e) {
      RequestTracks(s, e, j);
    } else {
      OtherTracks(s, e, j);
    }
  }

  lemma CreatedTracks(s: State, source: Option<Id>, j: Id)
    requires Inv(s)
    ensures Tracks(s, CreateJob(s, source), j)
  {
    assert s.next !in s.jobs;
    hide Inv;
    Plainly(s, CreateJob(s, source), j);
  }

  lemma RaisedTracks(s: State, j: Id)
    ensures Tracks(s, RaiseEpoch(s), j) && Tracks(s, Close(s), j)
  {
    Plainly(s, RaiseEpoch(s), j);
    Plainly(s, Close(s), j);
  }

  lemma SpawnTracks(s: State, th: Thread, j: Id)
    ensures Tracks(s, Spawn(s, th), j) && Tracks(s, SpawnTimed(s, th), j)
  {
    Plainly(s, Spawn(s, th), j);
    Plainly(s, SpawnTimed(s, th), j);
  }

  lemma SettleTracks(s: State, k: Id, j: Id)
    ensures Tracks(s, BeginSettle(s, k), j)
  {
    Plainly(s, BeginSettle(s, k), j);
  }
}
