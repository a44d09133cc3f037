// The `busy` flag that a pause or resume leaves behind when it cannot save the job's new phase.
module ControllerWedge {
  import opened Wrappers
  import opened ControllerState
  import opened ControllerMoves
  import opened JobController
  import opened ControllerSafety
  import opened ControllerHistory
  import opened ControllerTheorems
  import opened ControllerWitness

  /** `busy` is left behind exactly by a pause or resume that passes its guards and cannot save the record. */
  lemma WedgesExactlyWhen(es: seq<Event>, e: Event)
    requires Wedged !in Run(es).log
    ensures Wedged in Run(es + [e]).log <==> Wedges(Run(es), e)
  {
    hide Run; hide Inv; hide Next; hide Lengthens; hide Wedges; hide Referenced;
    RunSnoc(es, e);
    NextTracks(Run(es), e, 0);
  }

  predicate Harmless(e: Entry) {
    e.Bump? || e.Closed? || e.StopBegan? || e.Secured?
  }

  /** Nothing but stopping goes on: no grant, prompt, steer, commit, save, beginning, new job or new live job. */
  predicate Meek(s: State, r: State) {
    && s.log <= r.log && (forall k :: |s.log| <= k < |r.log| ==> Harmless(r.log[k]))
    && r.context == s.context && r.jobs.Keys == s.jobs.Keys && (r.active == s.active || r.active.None?)
  }

  lemma MeekTrans(s: State, m: State, r: State)
    requires Meek(s, m) && Meek(m, r)
    ensures Meek(s, r)
  {
    forall k | |s.log| <= k < |r.log|
      ensures Harmless(r.log[k])
    {
      if k < |m.log| {
        assert r.log[k] == m.log[k];
      }
    }
  }

  lemma SilentlyMeek(s: State, r: State)
    requires r.log == s.log && r.context == s.context && r.jobs.Keys == s.jobs.Keys && (r.active == s.active || r.active.None?)
    ensures Meek(s, r)
  {
  }

  lemma BeginStopMeek(s: State, j: Id, a: Answer)
    requires j in s.jobs
    ensures Meek(s, BeginStop(s, j, a))
  {
    hide Meek;
    var job := s.jobs[j];
    SilentlyMeek(s, s);
    if !job.Stops() {
      var halted := WithJob(s, j, job.(status := Stopping, waiting := Nobody, pauseId := None));
      SilentlyMeek(s, halted);
      RevokeMeek(halted, j, a.OfStop());
      var revoked := Revoke(halted, j, a.OfStop());
      hide Revoke;
      MarkMeek(revoked, j, if job.rpc then Cancelling else AwaitingBrowser, a.OfStop());
      MeekTrans(s, halted, revoked);
      MeekTrans(s, revoked, SecureIf(MarkStopping(revoked, j, if job.rpc then Cancelling else AwaitingBrowser), j, a.OfStop()));
    }
  }

  lemma RevokeMeek(s: State, j: Id, a: Answer)
    requires j in s.jobs
    ensures Meek(s, Revoke(s, j, a)) && Revoke(s, j, a).jobs.Keys == s.jobs.Keys
  {
  }

  lemma MarkMeek(s: State, j: Id, stopper: Stopper, a: Answer)
    requires j in s.jobs
    ensures Meek(s, SecureIf(MarkStopping(s, j, stopper), j, a))
  {
  }

  lemma SecureMeek(s: State, j: Id, a: Answer)
    ensures Meek(s, SecureIf(s, j, a))
  {
  }

  lemma StepStopMeek(s: State, j: Id, a: Answer)
    requires j in s.jobs
    ensures Meek(s, StepStop(s, j, a))
  {
    StopSegments(s, j, a);
    hide Meek; hide SecureIf; hide StepStop; hide Revoke;
    if s.jobs[j].stopper == AwaitingBrowser && !s.jobs[j].provisioning {
      RevokeMeek(s, j, a);
      var r := Revoke(s, j, a);
      var c := WithJob(r, j, r.jobs[j].(stopper := Cleaning));
      SilentlyMeek(r, c);
      SecureMeek(c, j, a);
      MeekTrans(s, r, c);
      MeekTrans(s, c, SecureIf(c, j, a));
    } else {
      SilentlyMeek(s, StepStop(s, j, a));
    }
  }

  lemma StopAndDropMeek(s: State, t: Id, j: Id, a: Answer)
    requires j in s.jobs
    ensures Meek(s, StopAndDrop(s, t, j, a))
  {
    hide BeginStop;
    BeginStopMeek(s, j, a);
    SilentlyMeek(BeginStop(s, j, a), StopAndDrop(s, t, j, a));
    MeekTrans(s, BeginStop(s, j, a), StopAndDrop(s, t, j, a));
  }

  lemma StepSettleMeek(s: State, t: Id, a: Answer)
    requires t in s.threads && s.threads[t].Settle? && s.threads[t].job in s.jobs
    ensures Meek(s, StepSettle(s, t, a))
  {
    hide StopAndDrop; hide Meek; hide Revoke; hide Evidence;
    var j := s.threads[t].job;
    StopAndDropMeek(s, t, j, a);
    SilentlyMeek(s, Drop(s, t));
    SilentlyMeek(s, WithThread(s, t, s.threads[t].(settleAt := Reading)));
    var waiting := Waits(Paused(s, j), j, Operator);
    SilentlyMeek(s, waiting);
    SilentlyMeek(s, Drop(waiting, t));
    StopAndDropMeek(waiting, t, j, a);
    MeekTrans(s, waiting, StopAndDrop(waiting, t, j, a));
    var pausing := WithJob(s, j, s.jobs[j].(phase := Pausing, waiting := Nobody));
    SilentlyMeek(s, pausing);
    RevokeMeek(pausing, j, a);
    var r := Revoke(pausing, j, a);
    MeekTrans(s, pausing, r);
    SilentlyMeek(r, WithThread(r, t, s.threads[t].(settleAt := Retaining)));
    MeekTrans(s, r, WithThread(r, t, s.threads[t].(settleAt := Retaining)));
    StopAndDropMeek(r, t, j, a);
    MeekTrans(s, r, StopAndDrop(r, t, j, a));
  }

  lemma StepThreadMeek(s: State, t: Id, a: Answer)
    requires t in s.threads && JobKnown(s, t) && s.busy && !s.threads[t].Holder()
    ensures Meek(s, StepThread(s, t, a))
  {
    if s.threads[t].Settle? {
      hide StepSettle; hide Meek;
      StepSettleMeek(s, t, a);
    } else {
      SilentlyMeek(s, StepThread(s, t, a));
    }
  }

  lemma BeginClearMeek(s: State, generation: Option<Id>, prepare: bool, replace: bool, requested: Option<Id>, a: Answer)
    ensures Meek(s, BeginClear(s, generation, prepare, replace, requested, a))
  {
    hide BeginStop; hide Meek;
    var id := if replace || requested.None? then s.context.job else requested;
    SilentlyMeek(s, s);
    if MayClear(s, generation, replace, requested, id) {
      var r := RaiseEpoch(s);
      RaisedMeek(s);
      SilentlyMeek(r, Spawn(r, Clear(generation, prepare, id, Draining)));
      MeekTrans(s, r, Spawn(r, Clear(generation, prepare, id, Draining)));
      if s.active.Some? {
        BeginStopMeek(r, s.active.value, a);
        var stopping := BeginStop(r, s.active.value, a);
        var th := Clear(generation, prepare, s.active, AwaitingStop(s.active.value));
        SilentlyMeek(stopping, Spawn(stopping, th));
        MeekTrans(s, r, stopping);
        MeekTrans(s, stopping, Spawn(stopping, th));
      }
    }
  }

  lemma RaisedMeek(s: State)
    ensures Meek(s, RaiseEpoch(s)) && Meek(s, Close(s))
  {
  }

  lemma StopLiveMeek(s: State, m: State, a: Answer)
    requires Meek(s, m) && (m.active.Some? ==> m.active.value in m.jobs)
    ensures Meek(s, StopLive(m, m.active, a))
  {
    hide BeginStop; hide Meek;
    if m.active.Some? {
      BeginStopMeek(m, m.active.value, a);
      MeekTrans(s, m, BeginStop(m, m.active.value, a));
    }
  }

  lemma WedgedIsBusy(s: State)
    requires Inv(s) && Wedged in s.log
    ensures s.busy && forall t <- s.threads :: !s.threads[t].Holder()
  {
    assert Exclusive(s.threads, s.busy, s.resetting, Wedged in s.log);
    hide Inv;
  }

  lemma ContinueMeek(s: State, e: Event)
    requires Inv(s) && Wedged in s.log && Referenced(s) && e.Continue?
    ensures Meek(s, Next(s, e))
  {
    hide StepThread; hide Meek; hide Inv; hide Referenced; hide JobKnown;
    WedgedIsBusy(s);
    if e.thread in s.threads {
      InvThread(s, e.thread);
      StepThreadMeek(s, e.thread, e.answer);
    } else {
      SilentlyMeek(s, s);
    }
  }

  lemma NextMeek(s: State, e: Event)
    requires Inv(s) && Wedged in s.log
    ensures Referenced(s) && Meek(s, Next(s, e))
  {
    InvIdle(s);
    WedgedIsBusy(s);
    hide Inv; hide Referenced; hide StepThread; hide BeginClear; hide BeginStop; hide StepStop; hide StopLive; hide Meek; hide BeginSettle;
    SilentlyMeek(s, s);
    if e.Continue? {
      hide Next;
      ContinueMeek(s, e);
    } else if e.PostClear? {
      BeginClearMeek(s, e.generation, e.prepare, e.replace, e.requested, e.answer);
    } else if e.StopAll? || e.Shutdown? {
      RaisedMeek(s);
      StopLiveMeek(s, if e.StopAll? then RaiseEpoch(s) else Close(s), e.answer);
    } else if e.AgentSettled? {
      SettleMeek(s, e.job);
    } else if e.ContinueStop? {
      if e.job in s.jobs {
        StepStopMeek(s, e.job, e.answer);
      }
    } else if (e.PostStop? || e.Trouble?) && s.active == Some(e.job) {
      BeginStopMeek(s, e.job, e.answer);
    }
  }

  lemma SettleMeek(s: State, j: Id)
    requires s.busy
    ensures Meek(s, BeginSettle(s, j))
  {
    hide Meek;
    SilentlyMeek(s, BeginSettle(s, j));
  }

  /**
   * Once left behind, `busy` is never cleared: in every continuation no request ever holds it, and no start, return,
   * pause, resume, upload, save, steer or Clear ever takes effect again. Only stops still do.
   */
  lemma {:induction false} WedgedForGood(es: seq<Event>, later: seq<Event>)
    requires Wedged in Run(es).log
    ensures var s, r := Run(es), Run(es + later);
            Meek(s, r) && Wedged in r.log && r.busy && forall t <- r.threads :: !r.threads[t].Holder()
  {
    hide Run; hide Inv; hide Next; hide Meek; hide Referenced;
    if later == [] {
      assert es + later == es;
      RunKeeps(es);
      SilentlyMeek(Run(es), Run(es));
      WedgedIsBusy(Run(es));
    } else {
      var init, last := later[..|later| - 1], later[|later| - 1];
      WedgedForGood(es, init);
      assert es + later == (es + init) + [last];
      RunSnoc(es + init, last);
      var m, r := Run(es + init), Run(es + later);
      NextMeek(m, last);
      MeekTrans(Run(es), m, r);
      assert m.log <= r.log by {
        MeekExtends(m, r);
      }
      WedgedIsBusy(r);
    }
  }

  lemma MeekExtends(s: State, r: State)
    requires Meek(s, r)
    ensures s.log <= r.log
  {
  }
}
