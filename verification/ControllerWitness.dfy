// A concrete run in which a Stop that cannot save its record is overtaken by the prompt of the handoff in flight.
module ControllerWitness {
  import opened Wrappers
  import opened ControllerState
  import opened ControllerMoves
  import opened JobController
  import opened ControllerSafety
  import opened ControllerTheorems

  const FINE := Answer(true, true, true, true, true, 3, true, true, true)
  const PLAIN := FINE.(more := false)
  const UNSAVED := FINE.(saved := false)

  /** Job 0 is uploaded and started by thread 1. */
  const STARTING := [PostJob(None, None, FINE), PostStart(0, FINE)]

  /** The handoff, thread 2, has reached `at`. */
  predicate Poised(s: State, at: HandoffPoint) {
    && 0 in s.jobs && 2 in s.threads && s.threads[2].Handoff? && s.active == Some(0) && !s.closing && !s.jobs[0].Stops()
    && !s.resetting && s.context.generation.None? && !s.jobs[0].settling && (!Prelaunch(at) ==> s.jobs[0].rpc)
    && var th := s.threads[2];
       && th.job == 0 && !th.again && th.epoch == s.epoch && th.at == at
       && s.current.browser == Some(0) && th.seen.browser == Some(0)
       && s.current.owner == (if at in {Locate, Confirm} then Returning else if Ungranted(at) then User else Agent)
       && (Prelaunch(at) ==> !s.jobs[0].rpc)
  }

  /** The way of the handoff to its last check. */
  const WAY := [ReadTarget, TargetRead, BeforeSafety, Safety, Assign, Take, Locate, Confirm, Login, Resolved, Bound, Prepare, Session, Relogin, Final]

  function AnswerAt(n: nat): Answer {
    if n == 11 then FINE else PLAIN
  }

  lemma HandoffReads(s: State, n: nat)
    requires 0 <= n < 5 && Poised(s, WAY[n])
    ensures Poised(StepHandoff(s, 2, AnswerAt(n)), WAY[n + 1])
  {
    hide Fails; hide Undo; hide WriteShared;
  }

  lemma HandoffTakes(s: State, n: nat)
    requires 5 <= n < 8 && Poised(s, WAY[n])
    ensures Poised(StepHandoff(s, 2, AnswerAt(n)), WAY[n + 1])
  {
    hide Fails; hide Undo; hide Launch; hide LaunchPi; hide StopAndLeave; hide Waits; hide StepAfterGrant;
  }

  lemma HandoffVerifies(s: State, n: nat)
    requires 8 <= n < 11 && Poised(s, WAY[n])
    ensures Poised(StepHandoff(s, 2, AnswerAt(n)), WAY[n + 1])
  {
    hide Fails; hide Undo; hide Launch; hide LaunchPi; hide StopAndLeave; hide Waits; hide Evidence;
  }

  lemma HandoffLaunches(s: State, n: nat)
    requires 11 <= n < 14 && Poised(s, WAY[n])
    ensures Poised(StepHandoff(s, 2, AnswerAt(n)), WAY[n + 1])
  {
    hide Fails; hide Undo; hide Launch; hide StopAndLeave; hide Waits; hide Evidence; hide StepToGrant;
  }

  /** Thread 1 is starting the browser of job 0. */
  predicate Booting(s: State, at: StartPoint) {
    && 0 in s.jobs && 1 in s.threads && s.threads[1].Start? && s.active == Some(0)
    && !s.closing && !s.resetting && s.next == 2 && !s.jobs[0].Stops() && !s.jobs[0].rpc && s.context.generation.None?
    && var th := s.threads[1];
       && th.job == 0 && th.startAt == at && th.good && (at != Provision && at != Writing ==> s.current.browser == Some(0))
       && (at == Reread ==> th.seen.browser == Some(0)) && (at == Provisioned ==> s.current.owner == User)
  }

  const BOOT := [Provision, Writing, Observing, Reread, Provisioned]

  lemma BootAdvances(s: State, n: nat)
    requires n < 4 && Booting(s, BOOT[n])
    ensures Booting(StepStart(s, 1, FINE), BOOT[n + 1])
  {
    hide StartFails;
  }

  /** The operator has signed in and is about to return control. */
  predicate SignedIn(s: State) {
    && Idle(s, 0) && !s.closing && s.next == 2 && !s.jobs[0].rpc && s.context.generation.None? && !s.jobs[0].settling
    && s.jobs[0].phase == AwaitingInput && s.jobs[0].waiting == Setup && s.current == Runtime(Some(0), User)
  }

  lemma BootFinishes(s: State)
    requires Booting(s, Provisioned)
    ensures SignedIn(StepStart(s, 1, FINE))
  {
    hide StartFails;
  }

  lemma ReturnBegins(s: State)
    requires SignedIn(s)
    ensures Poised(BeginReturn(s, 0, FINE), ReadTarget)
  {
    hide Fails;
  }

  lemma StartBegins()
    ensures var s := CreateJob(INITIAL, None); Booting(BeginStart(s, 0, FINE), Provision)
  {
    hide StartFails;
  }

  /** The run up to the n-th step of the starting browser. */
  function Boot(n: nat): seq<Event> {
    if n == 0 then STARTING else Boot(n - 1) + [Continue(1, FINE)]
  }

  /** The run up to the n-th step of the handoff. */
  function Handing(n: nat): seq<Event> {
    if n == 0 then Boot(5) + [PostAnswer(0, FINE)] else Handing(n - 1) + [Continue(2, AnswerAt(n - 1))]
  }

  lemma {:induction false} Boots(n: nat)
    requires n <= 4
    ensures Booting(Run(Boot(n)), BOOT[n])
  {
    hide Inv; hide Run; hide StepStart; hide BeginStart; hide Booting;
    if n == 0 {
      RunEmpty();
      RunSnoc([], PostJob(None, None, FINE));
      RunSnoc([PostJob(None, None, FINE)], PostStart(0, FINE));
      assert [] + [PostJob(None, None, FINE)] == [PostJob(None, None, FINE)];
      assert [PostJob(None, None, FINE)] + [PostStart(0, FINE)] == STARTING;
      StartBegins();
    } else {
      Boots(n - 1);
      RunSnoc(Boot(n - 1), Continue(1, FINE));
      BootThread(Run(Boot(n - 1)), BOOT[n - 1]);
      BootAdvances(Run(Boot(n - 1)), n - 1);
    }
  }

  lemma RunEmpty()
    ensures Run([]) == INITIAL
  {
  }

  lemma BootThread(s: State, at: StartPoint)
    requires Booting(s, at) && Referenced(s)
    ensures 1 in s.threads && s.threads[1].Start? && s.threads[1].job in s.jobs && Next(s, Continue(1, FINE)) == StepStart(s, 1, FINE)
  {
    hide StepStart;
  }

  lemma HandoffThread(s: State, at: HandoffPoint, a: Answer)
    requires Poised(s, at) && Referenced(s)
    ensures 2 in s.threads && s.threads[2].Handoff? && s.threads[2].job in s.jobs && Next(s, Continue(2, a)) == StepHandoff(s, 2, a)
  {
    hide StepHandoff;
  }

  lemma {:induction false} HandsOver(n: nat)
    requires n <= 14
    ensures Poised(Run(Handing(n)), WAY[n])
  {
    hide Inv; hide Run; hide StepStart; hide StepHandoff; hide BeginReturn; hide Booting; hide Poised; hide Next; hide SignedIn; hide Referenced;
    if n == 0 {
      Boots(4);
      var s := Run(Boot(4));
      RunSnoc(Boot(4), Continue(1, FINE));
      BootThread(s, Provisioned);
      BootFinishes(s);
      var w := Run(Boot(5));
      RunSnoc(Boot(5), PostAnswer(0, FINE));
      ReturnBegins(w);
      AnswerBegins(w);
    } else {
      HandsOver(n - 1);
      var s := Run(Handing(n - 1));
      RunSnoc(Handing(n - 1), Continue(2, AnswerAt(n - 1)));
      HandoffThread(s, WAY[n - 1], AnswerAt(n - 1));
      if n - 1 < 5 {
        HandoffReads(s, n - 1);
      } else if n - 1 < 8 {
        HandoffTakes(s, n - 1);
      } else if n - 1 < 11 {
        HandoffVerifies(s, n - 1);
      } else {
        HandoffLaunches(s, n - 1);
      }
    }
  }

  lemma AnswerBegins(s: State)
    requires Referenced(s)
    ensures Next(s, PostAnswer(0, FINE)) == BeginReturn(s, 0, FINE)
  {
  }

  lemma PoisedIsLive(s: State)
    requires Poised(s, Final)
    ensures 2 in s.threads && s.threads[2].Handoff? && s.threads[2].at == Final && JobKnown(s, 2) && s.threads[2].job == 0
    ensures !Cancelled(s, s.threads[2]) && !s.threads[2].again
  {
  }

  /** In this run the operator's Stop comes first and the execution prompt is sent all the same. */
  lemma StopOvertaken()
    ensures var s := Run(Handing(14)); var r := Run(Handing(14) + [PostStop(0, UNSAVED), Continue(2, FINE)]);
            s.active == Some(0) && s.log <= r.log && Prompted(2, 0) in r.log[|s.log|..]
  {
    HandsOver(14);
    PoisedIsLive(Run(Handing(14)));
    hide Inv; hide Run; hide Handing; hide Poised;
    PromptAfterStopIffUnsaved(Handing(14), 2, UNSAVED, FINE);
  }

  // ---- The same run, prompted and then wedged by Take Control --------------------------------------------------------

  /** Pi is executing and nothing is in flight but, possibly, the answer to the prompt. */
  predicate Working(s: State) {
    && 0 in s.jobs && s.active == Some(0) && !s.closing && !s.resetting && s.context.generation.None?
    && !s.jobs[0].Stops() && s.jobs[0].rpc && s.jobs[0].phase == Executing && !s.jobs[0].settling
  }

  lemma PromptIsSent(s: State)
    requires Poised(s, Final)
    ensures var r := StepHandoff(s, 2, FINE); Working(r) && 2 in r.threads && r.threads[2].Handoff? && r.threads[2].at == Prompting && r.threads[2].job == 0
  {
    hide Fails;
  }

  lemma PromptIsAnswered(s: State)
    requires Working(s) && 2 in s.threads && s.threads[2].Handoff? && s.threads[2].at == Prompting && s.threads[2].job == 0
    ensures var r := StepHandoff(s, 2, FINE); Working(r) && !r.busy
  {
    hide Fails;
  }

  const RECORD_LOST := FINE.(reach := 0)

  lemma PauseWedges(s: State)
    requires Working(s) && !s.busy && Referenced(s)
    ensures Wedged in Next(s, TakeControl(0, None, RECORD_LOST)).log
  {
    var r := BeginPause(s, 0, None, RECORD_LOST);
    assert r.log[|r.log| - 1] == Wedged;
  }

  /** The whole run: the build executes, and Take Control cannot save the job's record. */
  function Wedging(): seq<Event> {
    Handing(14) + [Continue(2, FINE)] + [Continue(2, FINE)] + [TakeControl(0, None, RECORD_LOST)]
  }

  lemma BusyIsLeftBehind()
    ensures Wedged in Run(Wedging()).log
  {
    hide Inv; hide Run; hide Handing; hide Poised; hide Working; hide Next; hide StepHandoff; hide Referenced;
    HandsOver(14);
    var es := Handing(14);
    RunSnoc(es, Continue(2, FINE));
    HandoffThread(Run(es), Final, FINE);
    PromptIsSent(Run(es));
    var fs := es + [Continue(2, FINE)];
    RunSnoc(fs, Continue(2, FINE));
    StillHandoff(Run(fs));
    PromptIsAnswered(Run(fs));
    var gs := fs + [Continue(2, FINE)];
    RunSnoc(gs, TakeControl(0, None, RECORD_LOST));
    PauseWedges(Run(gs));
  }

  lemma StillHandoff(s: State)
    requires 2 in s.threads && s.threads[2].Handoff? && Referenced(s)
    ensures s.threads[2].job in s.jobs && Next(s, Continue(2, FINE)) == StepHandoff(s, 2, FINE)
  {
    hide StepHandoff;
  }
}
