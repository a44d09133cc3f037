// No prompt without every check: what a run must contain before a handoff's prompt reaches Pi.
module ControllerTrace {
  import opened Wrappers
  import opened ControllerState
  import opened ControllerMoves
  import opened JobController
  import opened ControllerSafety
  import opened ControllerHistory
  import opened ControllerTheorems
  import opened ControllerStops
  import opened ControllerSteps
  import opened ControllerRequests

  /** From `s` to `r` no thread but `u` changed and no prompt was sent. */
  ghost predicate Apart(s: State, r: State, u: Id) {
    && (forall v :: v != u ==> (v in s.threads <==> v in r.threads) && (v in s.threads ==> r.threads[v] == s.threads[v]))
    && s.log <= r.log && forall k | |s.log| <= k < |r.log| :: !r.log[k].Prompted?
  }

  lemma ApartTrans(s: State, m: State, r: State, u: Id)
    requires Apart(s, m, u) && Apart(m, r, u)
    ensures Apart(s, r, u)
  {
    forall k | |s.log| <= k < |r.log|
      ensures !r.log[k].Prompted?
    {
      if k < |m.log| {
        assert r.log[k] == m.log[k];
      }
    }
  }

  lemma SilentlyApart(s: State, r: State, u: Id)
    requires r.log == s.log
    requires r.threads == s.threads || r.threads == s.threads - {u} || (u in r.threads && r.threads == s.threads[u := r.threads[u]])
    ensures Apart(s, r, u)
  {
  }

  lemma BeginStopApart(s: State, j: Id, a: Answer, u: Id)
    requires j in s.jobs
    ensures Apart(s, BeginStop(s, j, a), u)
  {
    hide Apart;
    SilentlyApart(s, s, u);
    if !s.jobs[j].Stops() {
      var halted := Halt(s, j);
      SilentlyApart(s, halted, u);
      RevokeApart(halted, j, a.OfStop(), u);
      var revoked := Revoke(halted, j, a.OfStop());
      hide Revoke;
      MarkApart(revoked, j, if s.jobs[j].rpc then Cancelling else AwaitingBrowser, a.OfStop(), u);
      ApartTrans(s, halted, revoked, u);
      ApartTrans(s, revoked, SecureIf(MarkStopping(revoked, j, if s.jobs[j].rpc then Cancelling else AwaitingBrowser), j, a.OfStop()), u);
    }
  }

  lemma RevokeApart(s: State, j: Id, a: Answer, u: Id)
    requires j in s.jobs
    ensures Apart(s, Revoke(s, j, a), u) && Revoke(s, j, a).jobs.Keys == s.jobs.Keys && Revoke(s, j, a).threads == s.threads
  {
  }

  lemma MarkApart(s: State, j: Id, stopper: Stopper, a: Answer, u: Id)
    requires j in s.jobs
    ensures Apart(s, SecureIf(MarkStopping(s, j, stopper), j, a), u)
  {
  }

  lemma LeaveApart(s: State, t: Id, a: Answer)
    requires t in s.threads && s.threads[t].Handoff? && s.threads[t].job in s.jobs
    ensures Apart(s, StopAndLeave(s, t, a), t)
  {
    hide BeginStop; hide Apart;
    var m := BeginStop(s, s.threads[t].job, a);
    BeginStopApart(s, s.threads[t].job, a, t);
    StopLeavesControl(s, s.threads[t].job, a);
    SilentlyApart(m, StopAndLeave(s, t, a), t);
    ApartTrans(s, m, StopAndLeave(s, t, a), t);
  }

  lemma FailsApart(s: State, t: Id, a: Answer)
    requires t in s.threads && s.threads[t].Handoff? && s.threads[t].job in s.jobs
    ensures Apart(s, Fails(s, t, a), t)
  {
    hide StopAndLeave; hide Revoke; hide Waits; hide Apart;
    var j := s.threads[t].job;
    var r := Revoke(s, j, a);
    RevokeApart(s, j, a, t);
    RevokeFacts(s, j, a);
    LeaveApart(r, t, a);
    ApartTrans(s, r, StopAndLeave(r, t, a), t);
    LeaveApart(s, t, a);
    WaitsFacts(r, j, Setup);
    WaitsLog(r, j, Setup);
    SilentlyApart(s, End(s, t), t);
    SilentlyApart(r, Move(r, t, Retain), t);
    ApartTrans(s, r, Move(r, t, Retain), t);
    SilentlyApart(r, End(Waits(r, j, Setup), t), t);
    ApartTrans(s, r, End(Waits(r, j, Setup), t), t);
  }

  lemma WaitsLog(s: State, k: Id, w: Waiting)
    requires k in s.jobs
    ensures Waits(s, k, w).log == s.log
  {
  }

  lemma UndoApart(s: State, t: Id, a: Answer)
    requires t in s.threads && s.threads[t].Handoff?
    ensures Apart(s, Undo(s, t, a), t)
  {
  }

  /** A step without a prompt, or one that sends it. */
  ghost predicate Sends(s: State, r: State, t: Id, th: Thread)
    requires th.Handoff?
  {
    && t in r.threads && r.threads[t] == th.(at := Prompting) && s.log <= r.log
    && (forall v :: v != t ==> (v in s.threads <==> v in r.threads) && (v in s.threads ==> r.threads[v] == s.threads[v]))
    && forall k | |s.log| <= k < |r.log| && r.log[k].Prompted? :: r.log[k] == Prompted(t, th.job)
  }

  lemma EditedApart(s: State, m: State, t: Id, a: Answer)
    requires t in s.threads && s.threads[t].Handoff? && s.threads[t].job in m.jobs && m.threads == s.threads
    requires Apart(s, m, t)
    ensures Apart(s, Fails(m, t, a), t)
  {
    hide Fails; hide Apart;
    FailsApart(m, t, a);
    ApartTrans(s, m, Fails(m, t, a), t);
  }

  lemma LaunchApart(s: State, t: Id, a: Answer)
    requires t in s.threads && s.threads[t].Handoff? && s.threads[t].job in s.jobs && s.threads[t].at == Final
    requires s.threads[t].again ==> Holds(s.current, s.threads[t].job)
    ensures a.reach < 3 ==> Apart(s, Launch(s, t, a), t)
    ensures a.reach >= 3 ==> Sends(s, Launch(s, t, a), t, s.threads[t])
  {
    hide Fails;
    var th := s.threads[t];
    var k := th.job;
    var live := if th.again then s else WithJob(s, k, s.jobs[k].(status := Running, phase := Executing, waiting := Nobody));
    var granted := Note(WithJob(live, k, live.jobs[k].(owner := Agent)), Granted(k, false));
    var executing := if th.again then Resumed(granted, k) else granted;
    if a.reach < 3 {
      EditedApart(s, live, t, a);
      EditedApart(s, granted, t, a);
      EditedApart(s, executing, t, a);
    }
  }

  lemma WrittenApart(s: State, file: Runtime, u: Id)
    ensures Apart(s, WriteShared(s, file), u) && WriteShared(s, file).threads == s.threads
  {
  }

  lemma ToGrantApart(s: State, t: Id, a: Answer)
    requires t in s.threads && s.threads[t].Handoff? && s.threads[t].job in s.jobs && Ungranted(s.threads[t].at)
    ensures Apart(s, StepToGrant(s, t, a), t)
  {
    hide Fails; hide Undo; hide Transits; hide WriteShared; hide Apart; hide Evidence;
    var th := s.threads[t];
    FailsApart(s, t, a);
    UndoApart(s, t, a);
    var file, r := SharedAfter(s, th, a.more), StepToGrant(s, t, a);
    WrittenApart(s, file, t);
    var w := WriteShared(s, file);
    if th.at == Confirm {
      SilentlyApart(s, Move(s, t, Login), t);
      WrittenApart(Move(s, t, Login), file, t);
      ApartTrans(s, Move(s, t, Login), WriteShared(Move(s, t, Login), file), t);
    } else if t in r.threads && r.log == w.log && r.threads == w.threads[t := r.threads[t]] {
      SilentlyApart(w, r, t);
      ApartTrans(s, w, r, t);
    }
    if r.log == s.log && t in r.threads && r.threads == s.threads[t := r.threads[t]] {
      SilentlyApart(s, r, t);
    }
  }

  lemma AfterGrantApart(s: State, t: Id, a: Answer)
    requires t in s.threads && s.threads[t].Handoff? && s.threads[t].job in s.jobs && !Ungranted(s.threads[t].at)
    requires s.threads[t].at != Final
    ensures Apart(s, StepAfterGrant(s, t, a), t)
  {
    hide Fails; hide Undo; hide Launch; hide StopAndLeave; hide Waits; hide Apart; hide Evidence;
    var th := s.threads[t];
    var k := th.job;
    FailsApart(s, t, a);
    UndoApart(s, t, a);
    LeaveApart(s, t, a);
    WaitsFacts(s, k, Operator);
    WaitsLog(s, k, Operator);
    var lost, failed := WithJob(s, k, s.jobs[k].(owner := User, status := PreparationFailed)), WithJob(s, k, s.jobs[k].(status := PreparationFailed));
    SilentlyApart(s, lost, t);
    SilentlyApart(s, failed, t);
    EditedApart(s, lost, t, a);
    EditedApart(s, failed, t, a);
    var r := StepAfterGrant(s, t, a);
    if r.log == s.log && (r.threads == s.threads || r.threads == s.threads - {t} || (t in r.threads && r.threads == s.threads[t := r.threads[t]])) {
      SilentlyApart(s, r, t);
    }
  }

  lemma StepHandoffApart(s: State, t: Id, a: Answer)
    requires t in s.threads && s.threads[t].Handoff? && s.threads[t].job in s.jobs
    ensures var r := StepHandoff(s, t, a);
            Apart(s, r, t) || (s.threads[t].at == Final && !Thrown(s, s.threads[t], a) && Sends(s, r, t, s.threads[t]))
  {
    hide Fails; hide StepToGrant; hide Launch; hide Apart; hide Sends;
    var th := s.threads[t];
    if Ungranted(th.at) {
      ToGrantApart(s, t, a);
    } else if th.at != Final {
      hide StepAfterGrant;
      AfterGrantApart(s, t, a);
    } else {
      FailsApart(s, t, a);
      if a.ok && !Cancelled(s, th) && (th.again ==> Holds(s.current, th.job)) {
        LaunchApart(s, t, a);
      }
    }
  }

  lemma OwnStep(s: State, m: State, r: State, u: Id)
    requires Apart(s, m, u) && r.log == m.log
    requires r.threads == m.threads || r.threads == m.threads - {u} || (u in r.threads && r.threads == m.threads[u := r.threads[u]])
    ensures Apart(s, r, u)
  {
    hide Apart;
    SilentlyApart(m, r, u);
    ApartTrans(s, m, r, u);
  }

  lemma StartFailsApart(s: State, t: Id, a: Answer)
    requires t in s.threads && s.threads[t].Start? && s.threads[t].job in s.jobs
    ensures Apart(s, StartFails(s, t, a), t)
  {
    hide BeginStop; hide Apart;
    BeginStopApart(s, s.threads[t].job, a, t);
    OwnStep(s, BeginStop(s, s.threads[t].job, a), StartFails(s, t, a), t);
  }

  lemma BootingApart(s: State, t: Id, a: Answer)
    requires t in s.threads && s.threads[t].Start? && s.threads[t].job in s.jobs && s.threads[t].startAt != Provisioned
    ensures Apart(s, StepStart(s, t, a), t)
  {
    hide StartFails; hide Waits;
  }

  lemma ProvisionedApart(s: State, t: Id, a: Answer)
    requires t in s.threads && s.threads[t].Start? && s.threads[t].job in s.jobs && s.threads[t].startAt == Provisioned
    ensures Apart(s, StepStart(s, t, a), t)
  {
    hide StartFails; hide Waits; hide Apart; hide SettleBrowser; hide StartAt;
    var j := s.threads[t].job;
    StartFailsApart(s, t, a);
    var m := WithJob(s, j, s.jobs[j].(owner := User));
    WaitsFacts(m, j, Setup);
    WaitsLog(m, j, Setup);
    var w := Waits(m, j, Setup);
    SilentlyApart(s, w, t);
    StartFailsApart(w, t, a);
    ApartTrans(s, w, StartFails(w, t, a), t);
    SilentlyApart(s, End(w, t), t);
  }

  lemma StepStartApart(s: State, t: Id, a: Answer)
    requires t in s.threads && s.threads[t].Start? && s.threads[t].job in s.jobs
    ensures Apart(s, StepStart(s, t, a), t)
  {
    hide StepStart; hide Apart;
    if s.threads[t].startAt == Provisioned {
      ProvisionedApart(s, t, a);
    } else {
      BootingApart(s, t, a);
    }
  }

  lemma PauseFailsApart(s: State, t: Id, a: Answer)
    requires t in s.threads && s.threads[t].Pause? && s.threads[t].job in s.jobs
    ensures Apart(s, PauseFails(s, t, a), t)
  {
    hide BeginStop; hide Apart;
    SilentlyApart(s, s, t);
    BeginStopApart(s, s.threads[t].job, a, t);
    OwnStep(s, if s.jobs[s.threads[t].job].Stops() then s else BeginStop(s, s.threads[t].job, a), PauseFails(s, t, a), t);
  }

  lemma PausedLog(s: State, j: Id)
    requires j in s.jobs
    ensures Waits(Paused(s, j), j, Operator).log == s.log && Waits(Paused(s, j), j, Operator).threads == s.threads
  {
  }

  lemma StepPauseApart(s: State, t: Id, a: Answer)
    requires t in s.threads && s.threads[t].Pause? && s.threads[t].job in s.jobs
    ensures Apart(s, StepPause(s, t, a), t)
  {
    hide PauseFails; hide Waits; hide Apart; hide Paused; hide Evidence;
    var j := s.threads[t].job;
    PauseFailsApart(s, t, a);
    PausedFacts(s, j);
    PausedLog(s, j);
    WaitsFacts(Paused(s, j), j, Operator);
    var w := Waits(Paused(s, j), j, Operator);
    SilentlyApart(s, w, t);
    PauseFailsApart(w, t, a);
    ApartTrans(s, w, PauseFails(w, t, a), t);
    var r := StepPause(s, t, a);
    if r.log == s.log && (r.threads == s.threads || r.threads == s.threads - {t} || (t in r.threads && r.threads == s.threads[t := r.threads[t]])) {
      SilentlyApart(s, r, t);
    }
  }

  lemma DropApart(s: State, t: Id, j: Id, a: Answer)
    requires j in s.jobs
    ensures Apart(s, StopAndDrop(s, t, j, a), t)
  {
    hide BeginStop; hide Apart;
    BeginStopApart(s, j, a, t);
    OwnStep(s, BeginStop(s, j, a), StopAndDrop(s, t, j, a), t);
  }

  lemma CostedApart(s: State, t: Id, a: Answer)
    requires t in s.threads && s.threads[t].Settle? && s.threads[t].job in s.jobs && s.threads[t].settleAt == Costing
    ensures Apart(s, StepSettle(s, t, a), t)
  {
    hide StopAndDrop; hide Waits; hide Apart; hide Paused; hide Evidence; hide Revoke;
    var j := s.threads[t].job;
    DropApart(s, t, j, a);
    var m := WithJob(s, j, s.jobs[j].(phase := Pausing, waiting := Nobody));
    SilentlyApart(s, m, t);
    RevokeFacts(m, j, a);
    RevokeApart(m, j, a, t);
    var v := Revoke(m, j, a);
    ApartTrans(s, m, v, t);
    DropApart(v, t, j, a);
    ApartTrans(s, v, StopAndDrop(v, t, j, a), t);
    var r := StepSettle(s, t, a);
    if r.log == s.log && (r.threads == s.threads - {t} || (t in r.threads && r.threads == s.threads[t := r.threads[t]])) {
      SilentlyApart(s, r, t);
    }
  }

  lemma RetainedApart(s: State, t: Id, a: Answer)
    requires t in s.threads && s.threads[t].Settle? && s.threads[t].job in s.jobs && s.threads[t].settleAt != Costing
    ensures Apart(s, StepSettle(s, t, a), t)
  {
    hide StopAndDrop; hide Waits; hide Apart; hide Paused; hide Evidence; hide Revoke;
    var j := s.threads[t].job;
    DropApart(s, t, j, a);
    PausedFacts(s, j);
    PausedLog(s, j);
    WaitsFacts(Paused(s, j), j, Operator);
    var w := Waits(Paused(s, j), j, Operator);
    SilentlyApart(s, w, t);
    DropApart(w, t, j, a);
    ApartTrans(s, w, StopAndDrop(w, t, j, a), t);
    var r := StepSettle(s, t, a);
    if r.log == s.log && r.threads == s.threads - {t} {
      SilentlyApart(s, r, t);
    }
  }

  lemma StepSettleApart(s: State, t: Id, a: Answer)
    requires t in s.threads && s.threads[t].Settle? && s.threads[t].job in s.jobs
    ensures Apart(s, StepSettle(s, t, a), t)
  {
    hide StepSettle; hide Apart;
    if s.threads[t].settleAt == Costing {
      CostedApart(s, t, a);
    } else {
      RetainedApart(s, t, a);
    }
  }

  lemma OtherThreadApart(s: State, t: Id, a: Answer)
    requires t in s.threads && JobKnown(s, t)
    requires var th := s.threads[t]; th.Upload? || th.Save? || th.Clear? || th.Steer?
    ensures Apart(s, StepThread(s, t, a), t)
  {
  }

  lemma StepThreadApart(s: State, t: Id, a: Answer)
    requires t in s.threads && JobKnown(s, t)
    ensures var r := StepThread(s, t, a); var th := s.threads[t];
            Apart(s, r, t) || (th.Handoff? && th.at == Final && !Thrown(s, th, a) && Sends(s, r, t, th))
  {
    hide Apart; hide Sends; hide Thrown; hide StepStart; hide StepHandoff; hide StepPause; hide StepSettle;
    var th := s.threads[t];
    if th.Start? {
      StepStartApart(s, t, a);
    } else if th.Handoff? {
      StepHandoffApart(s, t, a);
    } else if th.Pause? {
      StepPauseApart(s, t, a);
    } else if th.Settle? {
      StepSettleApart(s, t, a);
    } else {
      OtherThreadApart(s, t, a);
    }
  }

  // ---- Requests -----------------------------------------------------------------------------------------------------

  lemma SpawnApart(s: State, th: Thread)
    requires s.next !in s.threads
    ensures Apart(s, Spawn(s, th), s.next) && Apart(s, SpawnTimed(s, th), s.next)
  {
  }

  lemma BeginStartApart(s: State, j: Id, a: Answer)
    requires s.next !in s.threads
    ensures Apart(s, BeginStart(s, j, a), s.next)
  {
    hide StartFails; hide Apart; hide Spawn;
    SilentlyApart(s, s, s.next);
    if j in s.jobs {
      var live := Activate(s, j, s.jobs[j].(status := Running, phase := BrowserStarting, provisioning := a.more, waiting := Nobody));
      SilentlyApart(s, live, s.next);
      var th := Start(j, Provision, s.current, true);
      SpawnApart(live, th);
      StartSpawned(live, th);
      var r := Spawn(live, th);
      ApartTrans(s, live, r, s.next);
      var c := r.(context := r.context.(job := Some(j)));
      SilentlyApart(r, c, s.next);
      ApartTrans(s, r, c, s.next);
      StartFailsApart(r, s.next, a);
      ApartTrans(s, r, StartFails(r, s.next, a), s.next);
    }
  }

  lemma StartSpawned(s: State, th: Thread)
    ensures s.next in Spawn(s, th).threads && Spawn(s, th).threads[s.next] == th && Spawn(s, th).jobs == s.jobs
    ensures s.next in SpawnTimed(s, th).threads && SpawnTimed(s, th).threads[s.next] == th && SpawnTimed(s, th).jobs == s.jobs
  {
  }

  lemma BeginReturnApart(s: State, j: Id, a: Answer)
    requires s.next !in s.threads
    ensures Apart(s, BeginReturn(s, j, a), s.next)
  {
    hide Fails; hide Apart; hide SpawnTimed;
    SilentlyApart(s, s, s.next);
    if j in s.jobs {
      var th := Handoff(j, s.epoch, false, ReadTarget, s.current, false);
      SpawnApart(s, th);
      StartSpawned(s, th);
      var r := SpawnTimed(s, th);
      FailsApart(r, s.next, a);
      ApartTrans(s, r, Fails(r, s.next, a), s.next);
    }
  }

  lemma BeginResumeApart(s: State, j: Id, pauseId: Option<Id>, a: Answer)
    requires s.next !in s.threads
    ensures Apart(s, BeginResume(s, j, pauseId, a), s.next)
  {
    hide Fails; hide Apart; hide SpawnTimed; hide Evidence;
    SilentlyApart(s, s, s.next);
    if j in s.jobs {
      var given := s.jobs[j].(phase := GivingBack, waiting := Nobody);
      WedgeApart(s, j, given);
      var th := Handoff(j, s.epoch, true, SameIdle, s.current, false);
      SpawnApart(s, th);
      StartSpawned(s, th);
      var n := SpawnTimed(s, th);
      var r := WithJob(n, j, given);
      SilentlyApart(n, r, s.next);
      ApartTrans(s, n, r, s.next);
      FailsApart(r, s.next, a);
      ApartTrans(s, r, Fails(r, s.next, a), s.next);
    }
  }

  lemma WedgeApart(s: State, j: Id, job: Job)
    ensures Apart(s, Wedge(WithJob(s, j, job)), s.next) && Apart(s, Wedge(RaiseEpoch(WithJob(s, j, job))), s.next)
    ensures Apart(s, RaiseEpoch(WithJob(s, j, job)), s.next)
  {
  }

  lemma BeginPauseApart(s: State, j: Id, generation: Option<Id>, a: Answer)
    requires s.next !in s.threads
    ensures Apart(s, BeginPause(s, j, generation, a), s.next)
  {
    hide PauseFails; hide Apart; hide Spawn; hide Revoke; hide Evidence; hide Wedge; hide RaiseEpoch;
    SilentlyApart(s, s, s.next);
    if j in s.jobs {
      var job := s.jobs[j].(phase := Pausing, waiting := Nobody);
      WedgeApart(s, j, job);
      var r := RaiseEpoch(WithJob(s, j, job));
      RaisedFrame(WithJob(s, j, job));
      var th := Pause(j, CancellingPi);
      SpawnApart(r, th);
      StartSpawned(r, th);
      var n := Spawn(r, th);
      ApartTrans(s, r, n, s.next);
      RevokeApart(n, j, a, s.next);
      var p := Revoke(n, j, a);
      ApartTrans(s, n, p, s.next);
      PauseFailsApart(p, s.next, a);
      ApartTrans(s, p, PauseFails(p, s.next, a), s.next);
    }
  }

  lemma RaisedFrame(s: State)
    ensures RaiseEpoch(s).threads == s.threads && RaiseEpoch(s).next == s.next && RaiseEpoch(s).jobs == s.jobs
    ensures RaiseEpoch(s).active == s.active && Close(s).active == s.active && Close(s).jobs == s.jobs && Close(s).threads == s.threads
    ensures Apart(s, RaiseEpoch(s), s.next) && Apart(s, Close(s), s.next)
  {
  }

  lemma BeginClearApart(s: State, generation: Option<Id>, prepare: bool, replace: bool, requested: Option<Id>, a: Answer)
    requires s.next !in s.threads
    ensures Apart(s, BeginClear(s, generation, prepare, replace, requested, a), s.next)
  {
    hide BeginStop; hide Apart; hide Spawn; hide RaiseEpoch;
    SilentlyApart(s, s, s.next);
    RaisedFrame(s);
    var r := RaiseEpoch(s);
    var id := if replace || requested.None? then s.context.job else requested;
    SpawnApart(r, Clear(generation, prepare, id, Draining));
    ApartTrans(s, r, Spawn(r, Clear(generation, prepare, id, Draining)), s.next);
    if s.active.Some? && s.active.value in s.jobs {
      BeginStopApart(r, s.active.value, a, s.next);
      StopLeavesControl(r, s.active.value, a);
      var m := BeginStop(r, s.active.value, a);
      ApartTrans(s, r, m, s.next);
      var th := Clear(generation, prepare, s.active, AwaitingStop(s.active.value));
      SpawnApart(m, th);
      ApartTrans(s, m, Spawn(m, th), s.next);
    }
  }

  lemma HaltApart(s: State, m: State, a: Answer)
    requires Apart(s, m, s.next) && m.jobs == s.jobs && (m.active.Some? ==> m.active.value in m.jobs)
    ensures Apart(s, StopLive(m, m.active, a), s.next)
  {
    hide BeginStop; hide Apart;
    if m.active.Some? {
      BeginStopApart(m, m.active.value, a, s.next);
      ApartTrans(s, m, BeginStop(m, m.active.value, a), s.next);
    }
  }

  lemma QuietApart(s: State, e: Event)
    requires Referenced(s) && s.next !in s.threads
    requires e.PostJob? || e.UploadWorkbook? || e.SaveWorkbook? || e.AgentSettled? || e.PostSteer?
    ensures Apart(s, Next(s, e), s.next)
  {
    hide Apart; hide Spawn; hide SpawnTimed; hide Referenced; hide Selected;
    SilentlyApart(s, s, s.next);
    if e.PostJob? {
      SilentlyApart(s, CreateJob(s, e.source), s.next);
    } else if e.UploadWorkbook? {
      SpawnApart(s, Upload(s.epoch));
    } else if e.SaveWorkbook? {
      SpawnApart(s, Save(s.epoch, e.generation, e.workbook));
    } else if e.PostSteer? {
      SpawnApart(s, Steer(e.job));
    } else if e.job in s.jobs {
      var m := WithJob(s, e.job, s.jobs[e.job].(settling := true));
      SilentlyApart(s, m, s.next);
      SpawnApart(m, Settle(e.job, Costing));
      ApartTrans(s, m, Spawn(m, Settle(e.job, Costing)), s.next);
    }
  }

  lemma StepStopApart(s: State, j: Id, a: Answer, u: Id)
    requires j in s.jobs
    ensures Apart(s, StepStop(s, j, a), u)
  {
    StopSegments(s, j, a);
    StepStopRecord(s, j, a);
    hide Apart; hide SecureIf; hide StepStop; hide Revoke;
    if s.jobs[j].stopper == AwaitingBrowser && !s.jobs[j].provisioning {
      RevokeApart(s, j, a, u);
      var r := Revoke(s, j, a);
      var c := WithJob(r, j, r.jobs[j].(stopper := Cleaning));
      SilentlyApart(r, c, u);
      SecureApart(c, j, a, u);
      ApartTrans(s, r, c, u);
      ApartTrans(s, c, SecureIf(c, j, a), u);
    } else {
      SilentlyApart(s, StepStop(s, j, a), u);
    }
  }

  lemma SecureApart(s: State, j: Id, a: Answer, u: Id)
    ensures Apart(s, SecureIf(s, j, a), u)
  {
  }

  /** Every event but the return of a thread's own await leaves the threads there are as they are. */
  lemma RequestApart(s: State, e: Event)
    requires Referenced(s) && s.next !in s.threads && !e.Continue?
    ensures Apart(s, Next(s, e), s.next)
  {
    hide Apart; hide BeginStart; hide BeginReturn; hide BeginResume; hide BeginPause; hide BeginClear; hide BeginStop; hide StepStop;
    hide StopLive; hide RaiseEpoch; hide Close;
    SilentlyApart(s, s, s.next);
    RaisedFrame(s);
    if e.PostStart? {
      BeginStartApart(s, e.job, e.answer);
    } else if e.PostAnswer? {
      BeginReturnApart(s, e.job, e.answer);
    } else if e.PostResume? {
      BeginResumeApart(s, e.job, e.pauseId, e.answer);
    } else if e.TakeControl? {
      BeginPauseApart(s, e.job, e.generation, e.answer);
    } else if e.PostClear? {
      BeginClearApart(s, e.generation, e.prepare, e.replace, e.requested, e.answer);
    } else if e.StopAll? || e.Shutdown? {
      HaltApart(s, if e.StopAll? then RaiseEpoch(s) else Close(s), e.answer);
    } else if e.ContinueStop? {
      if e.job in s.jobs {
        StepStopApart(s, e.job, e.answer, s.next);
      }
    } else if e.PostStop? || e.Trouble? {
      if s.active == Some(e.job) {
        BeginStopApart(s, e.job, e.answer, s.next);
      }
    } else {
      QuietApart(s, e);
    }
  }

  // ---- The way to the prompt ------------------------------------------------------------------------------------------

  function Rank(at: HandoffPoint): nat {
    match at
    case SameIdle => 0
    case ReadTarget => 1
    case TargetRead => 2
    case SelectRead => 3
    case SelectWrite => 4
    case BeforeSafety => 5
    case Safety => 6
    case Assign => 7
    case Take => 8
    case Locate => 9
    case Confirm => 10
    case Login => 11
    case Resolved => 12
    case Bound => 13
    case Prepare => 14
    case Reverify => 14
    case Session => 15
    case Recheck => 15
    case Relogin => 16
    case Final => 17
    case _ => 18
  }

  /** Before the first prompt of a job. */
  const FIRST: set<HandoffPoint> :=
    {ReadTarget, TargetRead, BeforeSafety, Safety, Assign, Take, Locate, Confirm, Login, Resolved, Bound, Prepare, Session, Relogin, Final}

  /** Before the prompt that resumes it. */
  const AGAIN: set<HandoffPoint> :=
    {SameIdle, ReadTarget, TargetRead, BeforeSafety, Safety, Assign, Take, Locate, Confirm, Login, Resolved, Bound, Reverify, Recheck, Final}

  /** The points at which nothing may have been closed, stopped, replaced or raised since the handoff began. */
  const GUARDED: set<HandoffPoint> :=
    {SameIdle, BeforeSafety, Safety, Take, Confirm, Login, Resolved, Bound, Prepare, Session, Relogin, Recheck, Final}

  /** Event `i` is the successful return of the thread's await at this point, with its checks. */
  ghost predicate PassedAt(es: seq<Event>, t: Id, at: HandoffPoint, i: nat)
    requires i < |es|
  {
    var s := Run(es[..i]);
    && es[i].Continue? && es[i].thread == t && es[i].answer.ok
    && t in s.threads && s.threads[t].Handoff? && s.threads[t].at == at && s.threads[t].job in s.jobs
    && (at in GUARDED ==> Intact(s, s.threads[t]))
    && (at == SameIdle ==> BothUsers(s, s.threads[t].job))
    && (at == TargetRead ==> s.threads[t].seen.browser == Some(s.threads[t].job))
    && (at == Take ==> StillSeen(s, s.threads[t].seen, {User, Agent}))
    && (at == Confirm ==> StillSeen(s, s.threads[t].seen, {Returning, Locating}))
  }

  ghost predicate Passed(es: seq<Event>, t: Id, at: HandoffPoint) {
    exists i: nat :: i < |es| && PassedAt(es, t, at, i)
  }

  lemma PassedStill(es: seq<Event>, e: Event, t: Id, at: HandoffPoint)
    requires Passed(es, t, at)
    ensures Passed(es + [e], t, at)
  {
    var i: nat :| i < |es| && PassedAt(es, t, at, i);
    hide PassedAt;
    SamePassing(es, e, t, at, i);
  }

  lemma SamePassing(es: seq<Event>, e: Event, t: Id, at: HandoffPoint, i: nat)
    requires i < |es| && PassedAt(es, t, at, i)
    ensures PassedAt(es + [e], t, at, i)
  {
    hide Run;
    assert (es + [e])[..i] == es[..i];
  }

  lemma PassedNow(es: seq<Event>, e: Event, t: Id)
    requires var s := Run(es); t in s.threads && s.threads[t].Handoff? && s.threads[t].job in s.jobs
    requires e.Continue? && e.thread == t && OnItsWay(Run(es).threads[t].at)
    requires !Thrown(Run(es), Run(es).threads[t], e.answer) && !GivenBack(Run(es), Run(es).threads[t], e.answer)
    ensures Passed(es + [e], t, Run(es).threads[t].at)
  {
    hide Run;
    assert (es + [e])[..|es|] == es;
    assert PassedAt(es + [e], t, Run(es).threads[t].at, |es|);
  }

  /** The thread is still on its way, or its prompt has been sent. */
  ghost predicate Heading(s: State, t: Id) {
    t in s.threads && s.threads[t].Handoff? && (OnItsWay(s.threads[t].at) || s.threads[t].at == Prompting)
  }

  /** Every check that comes before its point has passed. */
  ghost predicate Checked(es: seq<Event>, t: Id, th: Thread)
    requires th.Handoff?
  {
    forall p :: p in (if th.again then AGAIN else FIRST) && Rank(p) < Rank(th.at) ==> Passed(es, t, p)
  }

  lemma CheckedStill(es: seq<Event>, e: Event, t: Id, th: Thread)
    requires th.Handoff? && Checked(es, t, th)
    ensures Checked(es + [e], t, th)
  {
    hide Passed; hide Rank;
    forall p | p in (if th.again then AGAIN else FIRST) && Rank(p) < Rank(th.at)
      ensures Passed(es + [e], t, p)
    {
      PassedStill(es, e, t, p);
    }
  }

  /** No check lies between a point and the next. */
  lemma NextInOrder(th: Thread, more: bool, p: HandoffPoint)
    requires th.Handoff? && OnItsWay(th.at) && p in (if th.again then AGAIN else FIRST) && Rank(p) < Rank(After(th.at, th.again, more))
    requires th.at in {Prepare, Session, Relogin} ==> !th.again
    requires th.at in {SameIdle, Reverify, Recheck} ==> th.again
    ensures Rank(p) < Rank(th.at) || p == th.at
  {
  }

  /** A handoff that goes on. */
  lemma AdvancedChecked(es: seq<Event>, e: Event, t: Id)
    requires Heading(Run(es), t) && Checked(es, t, Run(es).threads[t])
    requires e.Continue? && e.thread == t && Heading(Run(es + [e]), t)
    ensures Checked(es + [e], t, Run(es + [e]).threads[t])
  {
    hide Run; hide Inv; hide Next; hide Passed; hide Thrown; hide GivenBack; hide Caught; hide Referenced; hide Rank; hide After; hide HandoffEnded;
    RunSnoc(es, e);
    var s, r := Run(es), Run(es + [e]);
    var th := s.threads[t];
    if OnItsWay(th.at) {
      HandoffProceeds(s, t, e.answer);
      NotCaught(s, r, t, th, e.answer);
      OrderOfPoints(s, t);
      PassedNow(es, e, t);
      forall p | p in (if th.again then AGAIN else FIRST) && Rank(p) < Rank(r.threads[t].at)
        ensures Passed(es + [e], t, p)
      {
        NextInOrder(th, e.answer.more, p);
        if p != th.at {
          PassedStill(es, e, t, p);
        }
      }
    } else {
      HandoffEnds(s, t, e.answer);
      NotEnded(s, r, t, th, e.answer);
    }
  }

  lemma OrderOfPoints(s: State, t: Id)
    requires Inv(s) && t in s.threads && s.threads[t].Handoff?
    ensures var th := s.threads[t];
            && (th.at in {Prepare, Session, Relogin} ==> !th.again) && (th.at in {SameIdle, Reverify, Recheck} ==> th.again)
  {
    assert ThreadOk(s, t);
    hide Inv;
  }

  /** Who is still heading for the prompt was neither caught nor given back. */
  lemma NotCaught(s: State, r: State, t: Id, th: Thread, a: Answer)
    requires th.Handoff? && th.job in s.jobs && OnItsWay(th.at) && HandoffStepped(s, r, t, th, a) && Heading(r, t)
    ensures !Thrown(s, th, a) && !GivenBack(s, th, a)
    ensures r.threads[t] == th.(at := After(th.at, th.again, a.more), canWait := th.canWait || th.at == SameIdle,
                                seen := if th.at in {ReadTarget, SelectRead, Assign} then s.current else th.seen)
  {
    hide Thrown; hide GivenBack; hide NotLeft; hide After;
  }

  lemma NotEnded(s: State, r: State, t: Id, th: Thread, a: Answer)
    requires th.Handoff? && th.job in s.jobs && th.at == Prompting && HandoffEnded(s, r, t, th, a)
    ensures !Heading(r, t)
  {
    hide NotLeft;
  }

  /** A thread that has just begun has no check behind it. */
  lemma BornUnchecked(s: State, e: Event, es: seq<Event>)
    requires Inv(s) && Referenced(s) && !e.Continue? && Heading(Next(s, e), s.next)
    ensures Checked(es, s.next, Next(s, e).threads[s.next])
  {
    hide Inv; hide Next; hide Accepted; hide Smooth; hide Begins; hide Fell; hide Heading; hide Passed; hide Referenced;
    NextIsFree(s);
    var r := Next(s, e);
    if !Accepted(s, e) {
      Refused(s, e);
      NotThere(s);
    } else if Smooth(s, e) {
      AcceptedRequestBegins(s, e);
      BegunAtFirst(s, r, e);
      HeadingThread(r, s.next);
      AtFirst(es, s.next, r.threads[s.next]);
    } else {
      AcceptedRequestFalls(s, e);
      FellElsewhere(s, r, e);
    }
  }

  lemma NotThere(s: State)
    requires s.next !in s.threads
    ensures !Heading(s, s.next)
  {
  }

  lemma AtFirst(es: seq<Event>, t: Id, th: Thread)
    requires th.Handoff? && th.at == (if th.again then SameIdle else ReadTarget)
    ensures Checked(es, t, th)
  {
    hide Passed;
  }

  lemma StoppedThreads(s: State, e: Event)
    requires Referenced(s) && e.ContinueStop? && e.job in s.jobs
    ensures Next(s, e).threads == s.threads
  {
    hide StepStop;
    StepStopRecord(s, e.job, e.answer);
  }

  lemma BegunAtFirst(s: State, r: State, e: Event)
    requires Referenced(s) && Accepted(s, e) && Smooth(s, e) && Begins(s, r, e) && s.next !in s.threads && !e.Continue?
    requires r == Next(s, e)
    ensures Heading(r, s.next) ==> r.threads[s.next].at == (if r.threads[s.next].again then SameIdle else ReadTarget)
  {
    hide Smooth;
    if e.ContinueStop? {
      StoppedThreads(s, e);
    }
    hide Next;
  }

  lemma FellElsewhere(s: State, r: State, e: Event)
    requires Referenced(s) && Accepted(s, e) && !Smooth(s, e) && Fell(s, r, e) && s.next !in s.threads
    ensures !Heading(r, s.next)
  {
    hide NotLeft;
  }

  /** In every run: a handoff is only where it is because every check before that point has passed. */
  lemma {:induction false} ChecksPassed(es: seq<Event>, t: Id)
    requires Heading(Run(es), t)
    ensures Checked(es, t, Run(es).threads[t])
  {
    hide Inv; hide Next; hide Referenced; hide Checked; hide Heading; hide Apart; hide Sends;
    if es == [] {
      NotHeadingAtFirst(t);
    } else {
      var init, e := es[..|es| - 1], es[|es| - 1];
      assert es == init + [e];
      hide Run;
      RunSnoc(init, e);
      var s, r := Run(init), Run(es);
      if Heading(s, t) {
        ChecksPassed(init, t);
      }
      if e.Continue? && e.thread == t {
        KeepsHeading(s, t, e.answer);
        AdvancedChecked(init, e, t);
      } else if t in s.threads {
        Untouched(s, e, t);
        HeadingSame(s, r, t);
        CheckedStill(init, e, t, s.threads[t]);
      } else {
        Untouched(s, e, t);
        HeadingThread(r, t);
        BornUnchecked(s, e, es);
      }
    }
  }

  lemma NotHeadingAtFirst(t: Id)
    ensures !Heading(Run([]), t)
  {
  }

  lemma HeadingSame(s: State, r: State, t: Id)
    requires t in s.threads && t in r.threads && r.threads[t] == s.threads[t]
    ensures (Heading(r, t) <==> Heading(s, t)) && (Heading(s, t) ==> s.threads[t].Handoff?)
  {
  }

  /** Only its own events change a thread. */
  lemma Untouched(s: State, e: Event, t: Id)
    requires Inv(s) && Referenced(s) && !(e.Continue? && e.thread == t)
    ensures t in s.threads ==> t in Next(s, e).threads && Next(s, e).threads[t] == s.threads[t]
    ensures t !in s.threads && t in Next(s, e).threads ==> t == s.next && !e.Continue?
  {
    NextIsFree(s);
    hide Inv; hide StepThread; hide Thrown;
    if e.Continue? {
      if e.thread in s.threads {
        assert JobKnown(s, e.thread);
        StepThreadApart(s, e.thread, e.answer);
      }
    } else {
      hide Next;
      RequestApart(s, e);
    }
  }

  lemma HeadingThread(s: State, t: Id)
    requires Heading(s, t)
    ensures t in s.threads && s.threads[t].Handoff?
  {
  }

  /** A handoff on its way was on its way before. */
  lemma KeepsHeading(s: State, t: Id, a: Answer)
    requires Referenced(s) && Heading(Next(s, Continue(t, a)), t)
    ensures Heading(s, t)
  {
    hide NotLeft; hide Thrown; hide GivenBack; hide StepThread;
    if t in s.threads {
      var th, r := s.threads[t], Next(s, Continue(t, a));
      assert JobKnown(s, t);
      if th.Handoff? {
        if !OnItsWay(th.at) {
          HandoffEnds(s, t, a);
          hide Next;
          EndedElsewhere(s, r, t, th, a);
        }
      } else if th.Start? {
        StartProceeds(s, t, a);
      } else if th.Pause? {
        PauseProceeds(s, t, a);
      } else if th.Settle? {
        SettleProceeds(s, t, a);
      } else if th.Clear? {
        ClearProceeds(s, t, a);
      } else if th.Steer? {
        SteerProceeds(s, t, a);
      } else if th.Upload? {
        UploadProceeds(s, t, a);
      } else {
        SaveProceeds(s, t, a);
      }
    }
  }

  lemma EndedElsewhere(s: State, r: State, t: Id, th: Thread, a: Answer)
    requires th.Handoff? && th.job in s.jobs && !OnItsWay(th.at) && t in s.threads && s.threads[t] == th && HandoffEnded(s, r, t, th, a)
    ensures !Heading(r, t)
  {
    hide NotLeft; hide Thrown;
  }

  /**
   * No prompt reaches Pi in any run before every check of its handoff has returned well: for the first prompt of a job
   * and for the one that resumes it.
   */
  lemma {:induction false} PromptedAfterEveryCheck(es: seq<Event>, t: Id, j: Id)
    requires Prompted(t, j) in Run(es).log
    ensures (forall p <- FIRST :: Passed(es, t, p)) || (forall p <- AGAIN :: Passed(es, t, p))
  {
    hide Inv; hide Next; hide Referenced; hide Passed; hide Thrown; hide Rank;
    var init, e := es[..|es| - 1], es[|es| - 1];
    assert es == init + [e];
    hide Run;
    RunSnoc(init, e);
    var s, r := Run(init), Run(es);
    if Prompted(t, j) in s.log {
      PromptedAfterEveryCheck(init, t, j);
      forall p | Passed(init, t, p)
        ensures Passed(es, t, p)
      {
        PassedStill(init, e, t, p);
      }
    } else {
      SentNow(s, e, t, j);
      ChecksPassed(es, t);
      AllBehind(es, t, r.threads[t]);
    }
  }

  lemma AllBehind(es: seq<Event>, t: Id, th: Thread)
    requires th.Handoff? && th.at == Prompting && Checked(es, t, th)
    ensures (forall p <- FIRST :: Passed(es, t, p)) || (forall p <- AGAIN :: Passed(es, t, p))
  {
    hide Passed;
    assert forall p <- FIRST + AGAIN :: Rank(p) < Rank(Prompting);
  }

  /** A new prompt is that of a handoff that has just passed its last check. */
  lemma SentNow(s: State, e: Event, t: Id, j: Id)
    requires Inv(s) && Referenced(s) && Prompted(t, j) !in s.log && Prompted(t, j) in Next(s, e).log
    ensures var r := Next(s, e); Heading(r, t) && r.threads[t].at == Prompting && r.threads[t].job == j
  {
    NextIsFree(s);
    hide Inv; hide StepThread; hide Thrown;
    if e.Continue? {
      assert JobKnown(s, e.thread);
      StepThreadApart(s, e.thread, e.answer);
    } else {
      hide Next;
      RequestApart(s, e);
    }
  }
}
