// The job controller (app/rr-connection.mjs) with the handoff steps it awaits (app/server.mjs) as a state machine.
// An event is a request, a background trigger, or the return of one awaited call; everything between two awaits is
// one step. The answers of Pi, Cvent, the browser and the file system are the adversary's.
module JobController {
  import opened Wrappers
  import opened ControllerState
  import opened ControllerMoves

  /**
   * How the outside answers in one step: did the awaited call return and every check this model does not look into
   * pass, is the optional branch taken, can each runtime file be rewritten, is no uncertainty evidence present, and
   * how far does a sequence of local writes get; and, for a stop that begins in the step, is its record saved and
   * can it rewrite each runtime file.
   */
  datatype Answer = Answer(ok: bool, more: bool, jobFile: bool, sharedFile: bool, evidence: bool, reach: nat,
                           saved: bool, stopJobFile: bool, stopSharedFile: bool)
  {
    /** The answers to a stop's own writes. */
    function OfStop(): Answer {
      this.(jobFile := stopJobFile, sharedFile := stopSharedFile)
    }
  }

  datatype Event =
    | PostJob(generation: Option<Id>, source: Option<Id>, answer: Answer)
    | PostStart(job: Id, answer: Answer)
    | PostAnswer(job: Id, answer: Answer)
    | PostResume(job: Id, pauseId: Option<Id>, answer: Answer)
    | TakeControl(job: Id, generation: Option<Id>, answer: Answer)
    | UploadWorkbook(generation: Option<Id>, answer: Answer)
    | SaveWorkbook(generation: Option<Id>, workbook: Id, answer: Answer)
    | PostClear(generation: Option<Id>, prepare: bool, replace: bool, requested: Option<Id>, answer: Answer)
    | PostStop(job: Id, answer: Answer)
    | StopAll(answer: Answer)
    | Shutdown(answer: Answer)
    | Trouble(job: Id, answer: Answer) // Pi fault, tripped failure guard, activity while paused, failed cost poll
    | AgentSettled(job: Id, answer: Answer)
    | PostSteer(job: Id, answer: Answer)
    | Continue(thread: Id, answer: Answer)
    | ContinueStop(job: Id, answer: Answer)

  /** `revokeJobBrowser`: both copies, each write on its own. */
  function Revoke(s: State, j: Id, a: Answer): State
    requires j in s.jobs
  {
    var own := if a.jobFile then WithJob(s, j, s.jobs[j].(owner := User)) else s;
    if a.sharedFile && s.current.browser == Some(j) then own.(current := s.current.(owner := User)) else own
  }

  predicate Revokes(a: Answer) {
    a.jobFile && a.sharedFile
  }

  /** A stop keeps account of the revocations that succeeded. */
  function SecureIf(s: State, j: Id, a: Answer): State {
    var own := if a.jobFile then Note(s, Secured(j, false)) else s;
    if a.sharedFile then Note(own, Secured(j, true)) else own
  }

  /** The first segment of `stop`, up to its first await. A record that cannot be saved throws before `stopping` is set. */
  function BeginStop(s: State, j: Id, a: Answer): State
    requires j in s.jobs
  {
    var job := s.jobs[j];
    if job.Stops() then s
    else
      var halted := WithJob(s, j, job.(status := Stopping, waiting := Nobody, pauseId := None));
      if !a.saved then halted
      else SecureIf(MarkStopping(Revoke(halted, j, a.OfStop()), j, if job.rpc then Cancelling else AwaitingBrowser), j, a.OfStop())
  }

  /** The later segments of `stop`. */
  function StepStop(s: State, j: Id, a: Answer): State
    requires j in s.jobs
  {
    var job := s.jobs[j];
    match job.stopper
    case Cancelling => WithJob(s, j, job.(stopper := AwaitingBrowser))
    case AwaitingBrowser =>
      if job.provisioning then s
      else
        var r := Revoke(s, j, a);
        SecureIf(WithJob(r, j, r.jobs[j].(stopper := Cleaning)), j, a)
    case Cleaning =>
      if a.saved then Finish(s, j, job.(phase := Settled, status := Ended, stopper := Complete))
      else WithJob(s, j, job.(phase := Settled, status := Ended, stopper := Rejected))
    case _ => s
  }

  predicate Stopped(s: State, j: Id)
    requires j in s.jobs
  {
    s.jobs[j].stopper == Complete || s.jobs[j].stopper == Rejected
  }

  /** `waiting`: the job is handed to the operator. */
  function Waits(s: State, j: Id, w: Waiting): State
    requires j in s.jobs
  {
    if s.jobs[j].Stops() || s.active != Some(j) then s
    else WithJob(s, j, s.jobs[j].(status := Running, phase := AwaitingInput, waiting := w, settling := false))
  }

  /** What `pauseEvidence` reads of the two runtime files. */
  predicate Evidence(s: State, j: Id, owner: Owner)
    requires j in s.jobs
  {
    s.jobs[j].owner == owner && s.current == Runtime(Some(j), owner)
  }

  /** The guard shared by every request that sets `busy` for the live job. */
  predicate Idle(s: State, j: Id) {
    s.active == Some(j) && j in s.jobs && !s.resetting && !s.busy && !s.jobs[j].Stops()
  }

  // ---- Start ------------------------------------------------------------------------------------------------

  predicate StartCancelled(s: State, j: Id)
    requires j in s.jobs
  {
    s.closing || s.jobs[j].Stops() || s.active != Some(j)
  }

  function StartAt(s: State, t: Id, at: StartPoint): State
    requires t in s.threads && s.threads[t].Start?
  {
    WithThread(s, t, s.threads[t].(startAt := at))
  }

  function StartFails(s: State, t: Id, a: Answer): State
    requires t in s.threads && s.threads[t].Start? && s.threads[t].job in s.jobs
  {
    var j := s.threads[t].job;
    var r := BeginStop(s, j, a);
    if r.jobs[j].Stops() then WithThread(r, t, s.threads[t].(startAt := StartLeaving)) else End(r, t)
  }

  function BeginStart(s: State, j: Id, a: Answer): State {
    if s.closing || s.resetting || s.busy || s.active.Some? || !a.ok || j !in s.jobs then s
    else if s.jobs[j].status != Uploaded || s.jobs[j].context != s.context.generation then s
    else if s.context.generation.Some? && s.context.job != Some(j) then s
    else
      var live := Activate(s, j, s.jobs[j].(status := Running, phase := BrowserStarting, provisioning := a.more, waiting := Nobody));
      var r := Spawn(live, Start(j, Provision, s.current, true));
      if a.more then r.(context := r.context.(job := Some(j))) else StartFails(r, s.next, a)
  }

  /** The browser promise settles: Stop may now go on. */
  function SettleBrowser(s: State, t: Id, good: bool): State
    requires t in s.threads && s.threads[t].Start? && s.threads[t].job in s.jobs
  {
    var th := s.threads[t];
    WithThread(WithJob(s, th.job, s.jobs[th.job].(provisioning := false)), t, th.(startAt := Provisioned, good := good))
  }

  function StepStart(s: State, t: Id, a: Answer): State
    requires t in s.threads && s.threads[t].Start? && s.threads[t].job in s.jobs
  {
    var th := s.threads[t];
    var j := th.job;
    match th.startAt
    case Provision => if !a.ok || StartCancelled(s, j) then SettleBrowser(s, t, false) else StartAt(s, t, Writing)
    case Writing =>
      if !a.ok then SettleBrowser(s, t, false)
      else StartAt(s.(current := Runtime(Some(j), Bootstrapping)), t, Observing)
    case Observing =>
      WithThread(s, t, th.(startAt := Reread, seen := s.current, good := a.ok && !StartCancelled(s, j)))
    case Reread =>
      if !a.ok then SettleBrowser(s, t, false)
      else if th.seen.browser == Some(j) then SettleBrowser(s.(current := th.seen.(owner := User)), t, th.good)
      else SettleBrowser(s, t, th.good)
    case Provisioned =>
      if a.ok && th.good && !StartCancelled(s, j) then
        var r := Waits(WithJob(s, j, s.jobs[j].(owner := User)), j, Setup);
        if a.reach == 0 then StartFails(r, t, a) else End(r, t) // `waiting` saves the record, and that may throw
      else StartFails(s, t, a)
    case StartLeaving => if Stopped(s, j) then End(s, t) else s
  }

  // ---- Return to Agent, before the first launch and after a pause -----------------------------------------------

  predicate Cancelled(s: State, th: Thread)
    requires th.Handoff? && th.job in s.jobs
  {
    s.closing || s.jobs[th.job].Stops() || s.active != Some(th.job) || s.epoch != th.epoch
  }

  function Move(s: State, t: Id, at: HandoffPoint): State
    requires t in s.threads && s.threads[t].Handoff?
  {
    WithThread(s, t, s.threads[t].(at := at))
  }

  /** The shared runtime file is read, and the handler suspends again. */
  function See(s: State, t: Id, at: HandoffPoint): State
    requires t in s.threads && s.threads[t].Handoff?
  {
    WithThread(s, t, s.threads[t].(at := at, seen := s.current))
  }

  /** A write of the shared file; whoever makes the agent its owner is on record. */
  function WriteShared(s: State, file: Runtime): State {
    var r := s.(current := file);
    if file.owner == Agent && file.browser.Some? then Note(r, Granted(file.browser.value, true)) else r
  }

  /** `transitionBrowser` compares before it writes. */
  predicate Transits(s: State, expected: Runtime, from: set<Owner>) {
    s.current.browser.Some? && s.current.browser == expected.browser && s.current.owner in from
  }

  function StopAndLeave(s: State, t: Id, a: Answer): State
    requires t in s.threads && s.threads[t].Handoff? && s.threads[t].job in s.jobs
  {
    var j := s.threads[t].job;
    var r := BeginStop(s, j, a);
    if r.jobs[j].Stops() then WithThread(r, t, s.threads[t].(at := Leaving)) else End(r, t)
  }

  /** The catch block of the route. */
  function Fails(s: State, t: Id, a: Answer): State
    requires t in s.threads && s.threads[t].Handoff? && s.threads[t].job in s.jobs
  {
    var th := s.threads[t];
    var j := th.job;
    if s.jobs[j].Stops() then End(s, t)
    else if th.again then
      var retain := th.canWait && th.at != Prompting && !Cancelled(s, th);
      var r := Revoke(s, j, a);
      if retain && Revokes(a) && a.evidence && Evidence(r, j, User) then Move(r, t, Retain) else StopAndLeave(r, t, a)
    else if s.jobs[j].rpc || Cancelled(s, th) then StopAndLeave(s, t, a)
    else
      var r := Revoke(s, j, a);
      if Revokes(a) then End(Waits(r, j, Setup), t) else StopAndLeave(r, t, a)
  }

  /** The catch block of `returnAgent`. */
  function Undo(s: State, t: Id, a: Answer): State
    requires t in s.threads && s.threads[t].Handoff?
  {
    var undone := a.sharedFile && Transits(s, s.threads[t].seen, {User, Agent, Returning, Locating});
    Move(if undone then s.(current := s.current.(owner := User)) else s, t, Undone)
  }

  function BeginReturn(s: State, j: Id, a: Answer): State {
    if !Idle(s, j) || !a.ok then s
    else if s.jobs[j].rpc || s.jobs[j].phase != AwaitingInput || s.jobs[j].waiting != Setup then s
    else
      var th := Handoff(j, s.epoch, false, ReadTarget, s.current, false);
      var r := SpawnTimed(s, th);
      if a.more && !Cancelled(s, th) then r else Fails(r, s.next, a)
  }

  predicate MayResume(s: State, j: Id, pauseId: Option<Id>, a: Answer) {
    && Idle(s, j) && !s.closing && a.ok && s.jobs[j].rpc && s.jobs[j].phase == AwaitingInput && s.jobs[j].waiting == Operator
    && s.jobs[j].pauseId.Some? && pauseId == s.jobs[j].pauseId
  }

  function BeginResume(s: State, j: Id, pauseId: Option<Id>, a: Answer): State {
    if !MayResume(s, j, pauseId, a) then s
    else
      var given := s.jobs[j].(phase := GivingBack, waiting := Nobody);
      if a.reach == 0 then Wedge(WithJob(s, j, given)) // the record could not be saved, outside the try block
      else
        var r := WithJob(SpawnTimed(s, Handoff(j, s.epoch, true, SameIdle, s.current, false)), j, given);
        if a.more && Evidence(s, j, User) then r else Fails(r, s.next, a)
  }

  function Resumed(s: State, j: Id): State
    requires j in s.jobs
  {
    WithJob(s, j, s.jobs[j].(phase := Executing, waiting := Nobody, pauseId := None, settling := false))
  }

  /** The segment that grants the job's copy and prompts Pi. */
  function Launch(s: State, t: Id, a: Answer): State
    requires t in s.threads && s.threads[t].Handoff? && s.threads[t].job in s.jobs
  {
    var th := s.threads[t];
    var j := th.job;
    var live := if th.again then s else WithJob(s, j, s.jobs[j].(status := Running, phase := Executing, waiting := Nobody));
    if a.reach == 0 then Fails(live, t, a)
    else
      var granted := Note(WithJob(live, j, live.jobs[j].(owner := Agent)), Granted(j, false));
      if a.reach == 1 || (th.again && !Evidence(granted, j, Agent)) then Fails(granted, t, a)
      else
        var executing := if th.again then Resumed(granted, j) else granted;
        if a.reach == 2 then Fails(executing, t, a)
        else
          var prompted := Note(Move(executing, t, Prompting), Prompted(t, j));
          if th.again then prompted else Note(prompted, FirstPrompt(j))
  }

  function StepHandoff(s: State, t: Id, a: Answer): State
    requires t in s.threads && s.threads[t].Handoff? && s.threads[t].job in s.jobs
  {
    var th := s.threads[t];
    if Ungranted(th.at) then StepToGrant(s, t, a) else StepAfterGrant(s, t, a)
  }

  /** `prepareTarget` and `returnAgent` up to the grant of the shared file. */
  function StepToGrant(s: State, t: Id, a: Answer): State
    requires t in s.threads && s.threads[t].Handoff? && s.threads[t].job in s.jobs
  {
    var th := s.threads[t];
    var j := th.job;
    match th.at
    case SameIdle =>
      if !a.ok || Cancelled(s, th) || !Evidence(s, j, User) then Fails(s, t, a)
      else WithThread(s, t, th.(at := ReadTarget, canWait := true))
    case ReadTarget => if !a.ok then Fails(s, t, a) else See(s, t, TargetRead)
    case TargetRead =>
      if !a.ok || th.seen.browser != Some(j) then Fails(s, t, a) else Move(s, t, if a.more then SelectRead else BeforeSafety)
    case SelectRead => if !a.ok then Fails(s, t, a) else See(s, t, SelectWrite)
    case SelectWrite =>
      if !a.ok then Fails(s, t, a) else Move(WriteShared(s, th.seen), t, if a.more then SelectRead else BeforeSafety)
    case BeforeSafety => if !a.ok || Cancelled(s, th) then Fails(s, t, a) else Move(s, t, Safety)
    case Safety => if !a.ok || Cancelled(s, th) then Fails(s, t, a) else Move(s, t, Assign)
    case Assign => if !a.ok then Move(s, t, Undone) else See(s, t, Take)
    case Take =>
      if !a.ok || Cancelled(s, th) || !Transits(s, th.seen, {User, Agent}) then Undo(s, t, a)
      else Move(WriteShared(s, s.current.(owner := Returning)), t, Locate)
    case Locate =>
      if !a.ok then Undo(s, t, a)
      else if !a.more then Move(s, t, Confirm)
      else if Cancelled(s, th) || !Transits(s, th.seen, {Returning}) then Undo(s, t, a)
      else Move(WriteShared(s, s.current.(owner := Locating)), t, Confirm)
    case _ =>
      if !a.ok || Cancelled(s, th) || !Transits(s, th.seen, {Returning, Locating}) then Undo(s, t, a)
      else WriteShared(Move(s, t, Login), s.current.(owner := Agent))
  }

  /** The rest of the handoff. */
  function StepAfterGrant(s: State, t: Id, a: Answer): State
    requires t in s.threads && s.threads[t].Handoff? && s.threads[t].job in s.jobs
  {
    var th := s.threads[t];
    var j := th.job;
    match th.at
    case Login => if !a.ok || Cancelled(s, th) then Undo(s, t, a) else Move(s, t, Resolved)
    case Resolved => if !a.ok || Cancelled(s, th) then Fails(s, t, a) else Move(s, t, Bound)
    case Bound => if !a.ok || Cancelled(s, th) then Fails(s, t, a) else Move(s, t, if th.again then Reverify else Prepare)
    case Prepare =>
      if !a.ok || Cancelled(s, th) || s.jobs[j].rpc then Fails(s, t, a)
      else if a.more then LaunchPi(s, t, s.jobs[j].(rpc := true, owner := User, status := Preparing))
      else Fails(WithJob(s, j, s.jobs[j].(owner := User, status := PreparationFailed)), t, a)
    case Session =>
      if s.jobs[j].Stops() then Fails(s, t, a)
      else if !a.ok || s.closing then Fails(WithJob(s, j, s.jobs[j].(status := PreparationFailed)), t, a)
      else if Cancelled(s, th) then Fails(s, t, a)
      else Move(s, t, Relogin)
    case Relogin => if !a.ok || Cancelled(s, th) then Fails(s, t, a) else Move(s, t, Final)
    case Reverify => if !a.ok then Fails(s, t, a) else Move(s, t, Recheck)
    case Recheck => if !a.ok || Cancelled(s, th) then Fails(s, t, a) else Move(s, t, Final)
    case Final =>
      if !a.ok || Cancelled(s, th) || (th.again && !Holds(s.current, j)) then Fails(s, t, a) else Launch(s, t, a)
    case Prompting => if a.ok then End(s, t) else Fails(s, t, a)
    case Undone => Fails(s, t, a)
    case Retain =>
      if a.ok && a.evidence && Evidence(s, j, User) && !Cancelled(s, th) then End(Waits(s, j, Operator), t)
      else if s.jobs[j].Stops() then End(s, t)
      else StopAndLeave(s, t, a)
    case _ => if Stopped(s, j) then End(s, t) else s
  }

  // ---- Take Control ---------------------------------------------------------------------------------------------

  function PauseFails(s: State, t: Id, a: Answer): State
    requires t in s.threads && s.threads[t].Pause? && s.threads[t].job in s.jobs
  {
    var j := s.threads[t].job;
    if s.jobs[j].Stops() then End(s, t)
    else
      var r := BeginStop(s, j, a);
      if r.jobs[j].Stops() then WithThread(r, t, s.threads[t].(pauseAt := PauseLeaving)) else End(r, t)
  }

  predicate MayPause(s: State, j: Id, generation: Option<Id>, a: Answer) {
    && generation == s.context.generation && Idle(s, j) && !s.closing && !s.jobs[j].settling && a.ok
    && s.jobs[j].phase == Executing && s.jobs[j].rpc
  }

  function BeginPause(s: State, j: Id, generation: Option<Id>, a: Answer): State {
    if !MayPause(s, j, generation, a) then s
    else
      var r := RaiseEpoch(WithJob(s, j, s.jobs[j].(phase := Pausing, waiting := Nobody)));
      if a.reach == 0 then Wedge(r) // as for a resume
      else
        var p := Revoke(Spawn(r, Pause(j, CancellingPi)), j, a);
        if Revokes(a) then p else PauseFails(p, s.next, a)
  }

  function StepPause(s: State, t: Id, a: Answer): State
    requires t in s.threads && s.threads[t].Pause? && s.threads[t].job in s.jobs
  {
    var j := s.threads[t].job;
    if s.threads[t].pauseAt == PauseLeaving then (if Stopped(s, j) then End(s, t) else s)
    else if !a.ok || !a.evidence || StartCancelled(s, j) || !Evidence(s, j, User) then PauseFails(s, t, a)
    else if s.threads[t].pauseAt == CancellingPi then WithThread(s, t, s.threads[t].(pauseAt := CheckingIdle))
    else
      var r := Waits(Paused(s, j), j, Operator);
      if a.reach == 0 then PauseFails(r, t, a) else End(r, t)
  }

  /** A fresh pause identity. */
  function Paused(s: State, j: Id): State
    requires j in s.jobs
  {
    WithJob(s, j, s.jobs[j].(pauseId := Some(s.next))).(next := s.next + 1)
  }

  // ---- The end of a native execution ------------------------------------------------------------------------------

  function BeginSettle(s: State, j: Id): State {
    if s.active != Some(j) || j !in s.jobs || s.jobs[j].Stops() || s.jobs[j].settling then s
    else if s.jobs[j].status != Running || s.jobs[j].phase != Executing then s
    else Spawn(WithJob(s, j, s.jobs[j].(settling := true)), Settle(j, Costing))
  }

  function StopAndDrop(s: State, t: Id, j: Id, a: Answer): State
    requires j in s.jobs
  {
    Drop(BeginStop(s, j, a), t)
  }

  function StepSettle(s: State, t: Id, a: Answer): State
    requires t in s.threads && s.threads[t].Settle? && s.threads[t].job in s.jobs
  {
    var j := s.threads[t].job;
    match s.threads[t].settleAt
    case Costing =>
      if !a.ok then StopAndDrop(s, t, j, a)
      else if s.jobs[j].Stops() then Drop(s, t)
      else if !a.more then WithThread(s, t, s.threads[t].(settleAt := Reading))
      else
        var r := Revoke(WithJob(s, j, s.jobs[j].(phase := Pausing, waiting := Nobody)), j, a);
        if Revokes(a) && a.evidence && Evidence(r, j, User) then WithThread(r, t, s.threads[t].(settleAt := Retaining))
        else StopAndDrop(r, t, j, a)
    case Retaining =>
      if !a.ok then StopAndDrop(s, t, j, a)
      else if StartCancelled(s, j) then Drop(s, t)
      else if !a.evidence || !Evidence(s, j, User) then StopAndDrop(s, t, j, a)
      else
        var r := Waits(Paused(s, j), j, Operator);
        if a.reach == 0 then StopAndDrop(r, t, j, a) else Drop(r, t)
    case Reading => StopAndDrop(s, t, j, a) // a stop already begun is simply returned
  }

  // ---- Steering, uploading, saving, clearing --------------------------------------------------------------------

  predicate MaySteer(s: State, j: Id) {
    Idle(s, j) && !s.jobs[j].settling && s.jobs[j].phase == Executing
  }

  function StepSteer(s: State, t: Id, a: Answer): State
    requires t in s.threads && s.threads[t].Steer?
  {
    var j := s.threads[t].job;
    if a.ok && !s.closing && MaySteer(s, j) then Drop(Note(s, Steered(j)), t) else Drop(s, t)
  }

  predicate Vacant(s: State) {
    !s.closing && !s.resetting && !s.busy && s.active.None?
  }

  function StepUpload(s: State, t: Id, a: Answer): State
    requires t in s.threads && s.threads[t].Upload?
  {
    if !a.ok || s.closing || s.epoch != s.threads[t].epoch || !a.more then End(s, t)
    else End(Commit(s, Some(t), Committed(t)), t)
  }

  predicate Selected(s: State, generation: Option<Id>, workbook: Id) {
    && generation == s.context.generation && s.context.generation.Some? && s.context.workbook == Some(workbook)
    && !(s.context.job.Some? && s.context.job.value in s.jobs && s.jobs[s.context.job.value].status == Uploaded)
  }

  function StepSave(s: State, t: Id, a: Answer): State
    requires t in s.threads && s.threads[t].Save?
  {
    var th := s.threads[t];
    if !a.ok || s.closing || s.epoch != th.epoch || !Selected(s, th.generation, th.workbook) then End(s, t)
    else End(Note(s, Saved(t)), t)
  }

  predicate MayClear(s: State, generation: Option<Id>, replace: bool, requested: Option<Id>, id: Option<Id>) {
    && !s.closing && !s.resetting && (!s.busy || replace) && generation == s.context.generation
    && (s.active.Some? ==> s.active == if replace then s.context.job else requested)
    && (s.context.job.Some? ==> id == s.context.job) && (id.Some? ==> id.value in s.jobs)
    && (s.active.Some? ==> s.active.value in s.jobs)
  }

  function BeginClear(s: State, generation: Option<Id>, prepare: bool, replace: bool, requested: Option<Id>, a: Answer): State {
    var id := if replace || requested.None? then s.context.job else requested;
    if !a.ok || !MayClear(s, generation, replace, requested, id) then s
    else
      var r := RaiseEpoch(s);
      if s.active.None? then Spawn(r, Clear(generation, prepare, id, Draining))
      else
        var stopping := BeginStop(r, s.active.value, a);
        if stopping.jobs[s.active.value].Stops() then Spawn(stopping, Clear(generation, prepare, s.active, AwaitingStop(s.active.value)))
        else stopping
  }

  /** An upload that never started leaves with its generation. */
  function ClearPrior(s: State, prior: Option<Id>): State
    requires prior.Some? ==> prior.value in s.jobs
  {
    if prior.Some? && s.jobs[prior.value].status == Uploaded
    then WithJob(s, prior.value, s.jobs[prior.value].(status := Cleared, phase := Settled)) else s
  }

  function StepClear(s: State, t: Id, a: Answer): State
    requires t in s.threads && s.threads[t].Clear? && JobKnown(s, t)
  {
    var th := s.threads[t];
    match th.clearAt
    case AwaitingStop(j) =>
      if s.jobs[j].stopper == Complete then WithThread(s, t, th.(clearAt := Draining))
      else if s.jobs[j].stopper == Rejected then EndClear(s, t)
      else s
    case Draining =>
      if !a.ok then EndClear(s, t) // the drain's deadline
      else if s.busy then s
      else if th.generation != s.context.generation || s.closing || !a.evidence then EndClear(s, t)
      else
        var r := ClearPrior(s, th.prior);
        if th.prepare || !a.more then EndClear(r, t) else EndClear(Commit(r, None, ClearCommitted(t)), t)
  }

  // ---- One step ---------------------------------------------------------------------------------------------------

  function StopLive(s: State, j: Option<Id>, a: Answer): State
    requires j.Some? ==> j.value in s.jobs
  {
    if j.Some? then BeginStop(s, j.value, a) else s
  }

  function StepThread(s: State, t: Id, a: Answer): State
    requires t in s.threads && JobKnown(s, t)
  {
    match s.threads[t]
    case Start(_, _, _, _) => StepStart(s, t, a)
    case Handoff(_, _, _, _, _, _) => StepHandoff(s, t, a)
    case Pause(_, _) => StepPause(s, t, a)
    case Upload(_) => StepUpload(s, t, a)
    case Save(_, _, _) => StepSave(s, t, a)
    case Clear(_, _, _, _) => StepClear(s, t, a)
    case Steer(_) => StepSteer(s, t, a)
    case Settle(_, _) => StepSettle(s, t, a)
  }

  function Next(s: State, e: Event): State
    requires Referenced(s)
  {
    match e
    case PostJob(generation, workbook, a) =>
      if Vacant(s) && a.ok && generation == s.context.generation then CreateJob(s, workbook) else s
    case PostStart(j, a) => BeginStart(s, j, a)
    case PostAnswer(j, a) => BeginReturn(s, j, a)
    case PostResume(j, pauseId, a) => BeginResume(s, j, pauseId, a)
    case TakeControl(j, generation, a) => BeginPause(s, j, generation, a)
    case UploadWorkbook(generation, a) =>
      if Vacant(s) && a.ok && generation == s.context.generation then SpawnTimed(s, Upload(s.epoch)) else s
    case SaveWorkbook(generation, workbook, a) =>
      if Vacant(s) && a.ok && Selected(s, generation, workbook) then SpawnTimed(s, Save(s.epoch, generation, workbook)) else s
    case PostClear(generation, prepare, replace, requested, a) => BeginClear(s, generation, prepare, replace, requested, a)
    case PostStop(j, a) => if s.active == Some(j) then BeginStop(s, j, a) else s
    case StopAll(a) => StopLive(RaiseEpoch(s), s.active, a)
    case Shutdown(a) => StopLive(Close(s), s.active, a)
    case Trouble(j, a) => if s.active == Some(j) then BeginStop(s, j, a) else s
    case AgentSettled(j, a) => BeginSettle(s, j)
    case PostSteer(j, a) =>
      if a.ok && MaySteer(s, j) && s.jobs[j].rpc && s.jobs[j].status == Running then Spawn(s, Steer(j)) else s
    case Continue(t, a) => if t in s.threads then StepThread(s, t, a) else s
    case ContinueStop(j, a) => if j in s.jobs then StepStop(s, j, a) else s
  }

  /** A pause or resume that passed its guards and could not save the job's new phase. */
  predicate Wedges(s: State, e: Event) {
    match e
    case PostResume(j, pauseId, a) => MayResume(s, j, pauseId, a) && a.reach == 0
    case TakeControl(j, generation, a) => MayPause(s, j, generation, a) && a.reach == 0
    case _ => false
  }
}
