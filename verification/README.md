# A verified model of the AI build controller

The repository drives an AI build against a remote Cvent event. The code that carries its risk is small and
concurrent: a controller that starts, hands over, pauses and stops one live job; an adapter that moves a remote
discount to a wanted state by single, rechecked writes, behind a gate that judges every write again; and a number of
bounded protocols (saving, polling, paging, framing, caching, parsing, editing) that must not lose or repeat anything.
This project models that code in Dafny and proves what it is relied on for. `dafny verify dfyconfig.toml` checks
everything.

Everything outside a component is an adversary. Cvent, the browser, Pi, the disk and the clock may answer anything,
take any time and change between any two calls. JavaScript between two `await`s is one atomic step.

## How the files fit together

- **Job controller** (`ControllerState`, `ControllerMoves`, `JobController`, `ControllerSafety`, `ControllerHistory`,
  `ControllerTheorems`, `ControllerStops`, `ControllerSteps`, `ControllerRequests`, `ControllerTrace`, `ControllerWitness`,
  `ControllerWedge`, `BrowserOwnership`). A state machine whose events are requests, background
  triggers and the return of one awaited call. A thread is a handler suspended at an await; any number may be in
  flight. `ControllerState.Inv` is the inductive invariant, `ControllerMoves` shows that each elementary change keeps
  it, `ControllerSafety` that each event does, and `ControllerHistory` that the log of grants and prompts is honest.
  `ControllerTheorems` states what follows for every run, `ControllerWedge` what follows once `busy` is left behind.
  `ControllerStops`, `ControllerSteps` and `ControllerRequests` say what each event must bring about, case by case and
  without the handlers' own functions; `ControllerTrace` that a prompt was preceded by every check.
- **Discounts** (`DiscountBody`, `DiscountFields`, `LinkKeys`, `WriteEvidence`, `Reconcile`, `DiscountUpdate`,
  `DiscountCreate`, `DiscountWitness`). `Remote.Cvent` is the adversary; its ghost state records each write with what was
  last observed, and the evidence recorded, before it. With a script it is a remote that refuses nothing and whose
  catalog changes as scripted, which is how a branch is shown to be reachable. With a world it is a remote that does
  what it is told and nobody else writes to, on which the operations must succeed.
- **Write gate** (`WriteGate`, `GateInterleaving`, `JobBoundary`), **transport** (`Transport`) and **paginator** (`Pagination`).
  `WriteGate` has the gate's tests and its callbacks run one at a time, as a caller that awaits each of them sees it;
  `GateInterleaving` splits the callbacks at their awaits and has any number of them in flight. `JobBoundary` puts the
  adapter behind the gate.
- **Save observer** (`SaveObserver`), **safety ledgers** (`EventSafety`, `HoldLedger`).
- **Parsing and editing** (`CompactList`, `CellReference`, `KeyedList`, `SheetEditor`).
- **Small refinements** (`FailureGuard`, `RpcFraming`, `ProgressCache`).

## Where the code does not do what it is for

Each of these is proved; where a condition decides, it is the exact one.

- A Stop whose first `ledger` write throws has not set `job.stopping`. It takes effect exactly when that write
  succeeds (`StopTakesEffectIffSaved`); otherwise a handoff in flight still prompts (`PromptAfterStopIffUnsaved`), and
  `StopOvertaken` gives a complete run from the empty connection in which it does.
- Take Control and resume save the job's record between setting `busy` and entering their `try` block. `busy` is left
  behind exactly when such a request passes its guards and that write throws (`WedgesExactlyWhen`), a run from the
  empty connection does it (`BusyIsLeftBehind`), and from then on nothing but stopping ever happens again
  (`WedgedForGood`).
- The gate tests a write before the await of its control check and books it after. Two overlapping callbacks for one
  method and path can both be accepted (`CreationIsReplayed`), exactly when one begins while the other is tested but
  not booked (`TwoLiveIffOverlap`, `MayReplayIffTwoLive`, `ReplayNeedsOverlap`). A caller that awaits each callback,
  as the adapter does, never replays (`SerialCallerNeverReplays`).
- Pacing stamps are spaced, fetches need not be: after a request of a kind that passes no guard every other fetch
  starts an interval later in every run, after one that does there is a run in which it does not
  (`FetchesAreSpacedIffUnguarded`). In general the guard's time is all that is lost (`FetchesFollowStamps`).
- A line that does not parse ends the data callback with the rest of the buffer unread, so the emitted events are
  independent of the chunks exactly when no event follows such a line (`ChunkingIsIrrelevantIffClean`). A line holding
  JSON `null` parses and then throws at its field access, which ends the Node process; the model counts it with them.
- The nonce cache alone accepts an assertion again exactly when its entry is still there and the lifetime ends between
  the freshness test and the pruning of that entry (`ReplayIsAcceptedIffExpiringInFlight`,
  `CacheAloneAllowsReacceptance`). The recheck at the pass closes this (`PassesAreBoundAndUnique`).
- The gate expects the finalising body to be the creating one made active and item-scoped, while the adapter builds it
  from the row the remote created. So a complete, linked creation is refused its finalisation, and stays inactive,
  exactly when the remote filled in a note or date that was not asked for (`CreationIsAdmitted`, `FinalBodyIsExpected`);
  `NoteBlocksFinalisation` has one. Every other write of the adapter is admitted, if an updated row names this event
  or none (`Execute`).
- If a discount appears under the wanted code between the two catalog readings of an item configuration, the inner
  configuration updates it, switching it off, and then the operation fails. That branch is taken exactly when the inner
  reading found such a row (`ConfigureItemDiscount`), `SwitchedOff` runs it, and the gate lets that write through in
  every reachable state in which no PUT to that discount was booked (`SwitchOffIsTestedIffUnbooked`).
- Three remembered failures are too few to see every duplicate: one is counted again exactly when at least three
  counted failures came since (`DuplicateIsSeenIffRecent`, `Observe`), and `CountedTwice` runs it.

## Model

| member | source | states |
|---|---|---|
| `ControllerSafety.NextKeeps` | app/rr-connection.mjs:184-755 | the controller's invariant is inductive over every event and every answer of the outside |
| `ControllerTheorems.RunKeeps` | app/rr-connection.mjs:97-102 | every interleaving of events from the empty connection keeps the invariant |
| `ControllerHistory.NextTracks` | app/rr-connection.mjs:184-755 | the log only grows, no step gives a browser to the agent without an entry, and only an upload or a Clear commits a generation |
| `ControllerTheorems.StopIsFinal` | app/rr-connection.mjs:184-247 | once `job.stopping` is set, no later step of any run prompts, steers or grants that job, and no copy of its runtime that is not the agent's becomes the agent's |
| `ControllerTheorems.StopTakesEffectIffSaved` | app/rr-connection.mjs:184-191 | a Stop sets `job.stopping` exactly when the record write before it succeeds |
| `ControllerStops.StopsExactlyWhenCalled` | app/rr-connection.mjs:184-247 | in every run and for every job, a step sets `stopping` exactly if its handler calls `stop` for that job and the record write succeeds; the status and the wait are changed with it, and each runtime file whose write succeeds is no longer the agent's |
| `ControllerStops.LiveJobIsStopped` | app/rr-connection.mjs:752-753 | the operator's Stop, Stop all and Shutdown, and trouble with Pi, stop the live job in every run, exactly if its record can be saved |
| `ControllerStops.StopProceeds` | app/rr-connection.mjs:196-246 | the rest of a stop: Pi, the starting browser, the second revocation, the settled record, and only then no live job |
| `ControllerTheorems.PromptAfterStopIffUnsaved` | app/rr-connection.mjs:464-471 | a handoff at its last check prompts after the operator's Stop exactly when that Stop could not save its record |
| `ControllerWitness.StopOvertaken` | app/rr-connection.mjs:184-197 | a concrete run from upload to prompt in which the unsaved Stop comes first |
| `ControllerTheorems.RevokedFilesStayRevoked` | app/browser-ownership.mjs:26-45 | a runtime file that a stop revoked is never the agent's again in any run |
| `ControllerTheorems.WaitingJobsAreTheOperators` | app/rr-connection.mjs:488-497 | while a job waits for the operator and no request is in flight, the agent owns neither runtime file |
| `ControllerTheorems.GenerationsAreCommittedAlone` | app/rr-connection.mjs:126-131 | a new context generation is committed with no live job and no other start, return, pause, resume, upload, save or clear in flight, and no existing job belongs to it |
| `ControllerRequests.RequestsTakeEffect` | app/rr-connection.mjs:320-575 | in every run a request changes nothing unless it is accepted, which is spelled out for each kind; accepted, it begins the thread, holds `busy` and sets the job's fields as its handler does, or fails as its handler does |
| `ControllerSteps.HandoffProceeds` | app/rr-connection.mjs:424-472 | what each step of a handoff or resume on its way does: at each check it goes on exactly if the answer is good and nothing cancelled it, and the last one grants and prompts |
| `ControllerSteps.HandoffEnds` | app/rr-connection.mjs:473-477 | how a handoff that fell ends: stopped, or waiting for the operator again with the browser revoked |
| `ControllerSteps.StartProceeds` | app/rr-connection.mjs:409-422 | a start ends waiting for the login exactly if the browser came up as assigned and nothing cancelled it, and is stopped otherwise |
| `ControllerSteps.PauseProceeds` | app/rr-connection.mjs:550-568 | a pause ends waiting for the operator exactly if every step passed, and is stopped otherwise |
| `ControllerSteps.SettleProceeds` | app/rr-connection.mjs:637-662 | a settlement stops the job, or retains it for review after a model failure, exactly under the conditions tested |
| `ControllerSteps.SteerProceeds` | app/rr-connection.mjs:672-678 | an instruction is sent exactly if its safety check passed and the job is still executing, with nothing else under way |
| `ControllerSteps.UploadProceeds` | app/rr-connection.mjs:708-714 | a new workbook becomes the context exactly if nothing closed or raised the epoch meanwhile |
| `ControllerSteps.SaveProceeds` | app/rr-connection.mjs:726-734 | an edited workbook is saved exactly if besides it is still the selected one and no upload is bound to it |
| `ControllerSteps.ClearProceeds` | app/rr-connection.mjs:337-351 | a Clear waits for the stop, then for every request in flight, and only then commits, exactly if nothing changed |
| `ControllerTrace.ChecksPassed` | app/rr-connection.mjs:424-472 | in every run a handoff is only where it is because every check before that point returned well |
| `ControllerTrace.PromptedAfterEveryCheck` | app/rr-connection.mjs:439-471 | in no run does a prompt reach Pi before each of the safety checks, the target, the session and the login of its handoff returned well |
| `ControllerTheorems.NothingCommitsAcrossABump` | app/rr-connection.mjs:701-735 | an upload, save or handoff whose wait straddles an epoch bump never commits or prompts |
| `ControllerTheorems.LiveJobIsOfTheCurrentGeneration` | app/rr-connection.mjs:389-407 | the live job always belongs to the current generation |
| `ControllerTheorems.BusyIsOneHolder` | app/rr-connection.mjs:102-110 | `busy` is set exactly while one request holds it, or after it was left behind |
| `ControllerWedge.WedgesExactlyWhen` | app/rr-connection.mjs:546-575 | in any run, an event first leaves `busy` behind exactly if it is a pause or resume that passes its guards and cannot save the job's phase |
| `ControllerWedge.WedgedForGood` | app/rr-connection.mjs:102-110 | once left behind, `busy` stays set in every continuation: no request ever holds it, and nothing is begun, granted, prompted, steered, committed or saved again, no job is added and none becomes live |
| `ControllerWitness.BusyIsLeftBehind` | app/rr-connection.mjs:546-548 | a run from the empty connection to a job at work whose Take Control leaves `busy` behind |
| `ControllerTheorems.ExecutionPromptIsSentOnce` | app/rr-connection.mjs:424-478 | no job receives its execution prompt twice in any run |
| `ControllerTheorems.ShutdownIsFinal` | app/rr-connection.mjs:753 | after shutdown begins nothing is granted, prompted, steered or committed in any continuation (that it stops the live job is `LiveJobIsStopped`) |
| `ControllerSafety.GrantKeeps` | app/server.mjs:213 | the step that makes the agent the owner of the shared browser keeps the invariant: it is lawful, uncancelled, and for the job's own browser |
| `ControllerSafety.LaunchKeeps` | app/rr-connection.mjs:462-471 | the grant of the job's copy and the prompt, in the step of their cancellation check, keep the invariant whichever local write fails in between |
| `ControllerSafety.HandoffBrowser` | app/server.mjs:167-178 | between the read and the write of the event selection the stale copy is of the job's own browser and not in the agent's hands |
| `BrowserOwnership.RuntimeFiles.TransitionBrowser` | app/browser-ownership.mjs:17-25 | the file changes exactly when identity, owner and cancellation allow, and then only its owner |
| `BrowserOwnership.SharedGrantIsOneTransition` | app/server.mjs:190-214 | up to the grant a handoff does not hold the shared browser, and it comes to hold it in one step only, exactly when that one comparison and write goes through |
| `BrowserOwnership.SplitTransitionUndoesStop` | app/browser-ownership.mjs:15-17 | were the write a later step than its comparison, a stop in between that revoked the file would be undone and the invariant lost, in every state in which the comparison passes |
| `BrowserOwnership.RuntimeFiles.RevokeJobBrowser` | app/browser-ownership.mjs:26-45 | both files are attempted independently; without failures neither leaves the job's browser with the agent |
| `DiscountUpdate.UpdateDiscount` | app/cvent-api.mjs:507-560 | against any remote the writes follow the plan: each passed the gate on the observations it names, and none is sent before the one before it was acknowledged, read back and reported; a removal is written only on a baseline with the scope flag set, and with a removal list every write is rechecked after the gate; success means links, row, items and target were read once more as wanted. On a scripted remote the first write is sent exactly when it is due, and is the removal, addition or PUT that comes first; on a remote that does what it is told success is exactly the startable inputs |
| `DiscountUpdate.StartsExactly` | app/cvent-api.mjs:509-516 | the start of an update is accepted exactly if a removal list meets a baseline with the scope flag set and a boolean `active`, the links that would go are exactly those listed, an active discount keeps one, and if none would go none is missing either |
| `DiscountUpdate.ValidInputIs` | app/cvent-api.mjs:400-412 | exactly which inputs are accepted: the listed patch fields, valid items, and removals only for a known discount that is not to be created |
| `DiscountUpdate.PutIsExpected` | app/cvent-api.mjs:517-523 | a PUT of a prepared body leaves, on a remote that replaces the writable fields by it, exactly the row the adapter expects to read back |
| `DiscountUpdate.AwaitRow` | app/cvent-api.mjs:497-506 | the row is read back until it is as expected, each reading is reported, and it is given up exactly after the bounded number of readings or on a refusal |
| `DiscountUpdate.ActiveDiscountIsNeverEmptied` | app/cvent-api.mjs:514-516 | an active discount from which links are removed has links after every write |
| `Reconcile.KeptLinkSurvives` | app/cvent-api.mjs:529-545 | a starting link outside the explicit removal list is present after every prefix of the writes |
| `Reconcile.NoLinkWrittenTwice` | app/cvent-api.mjs:529-545 | no association is written twice, in either direction |
| `Reconcile.NeverEmptied` | app/cvent-api.mjs:516 | every intermediate link set, and every expected set of a removal, is non-empty when one starting link is kept |
| `DiscountUpdate.ExtendPlan` | app/cvent-api.mjs:524-527 | a write sent on the rechecked baseline, in phase and as requested, extends a legal plan |
| `DiscountUpdate.EndsAtDesired` | app/cvent-api.mjs:511-515 | the removals and additions of an accepted start end at exactly the wanted links |
| `DiscountUpdate.StartFacts` | app/cvent-api.mjs:511-516 | what an accepted start guarantees: wanted and removed links are disjoint and cover the starting ones, and an active discount keeps one |
| `DiscountCreate.ConfigureItemDiscount` | app/cvent-api.mjs:582-655 | an update is made exactly when the inner catalog reading found a row of this very code: the prepared inactive update of that row, after which the operation fails; on a remote whose catalog shows such an active row it is sent. Otherwise the writes are one inactive creation, the links in order and one finalisation, success means row and links both equal the request, and a remote that does what it is told gets it |
| `DiscountWitness.SwitchedOff` | app/cvent-api.mjs:582-591 | a complete run with the adapter's own matching and validation: the code comes into existence, in use and linked, between two readings, the one write sent overwrites it and switches it off, and the operation fails |
| `DiscountCreate.FinalisedOnlyWhenComplete` | app/cvent-api.mjs:607-633 | a finalising PUT is sent only after every requested link was sent and the whole set was observed |
| `DiscountCreate.LinkAll` | app/cvent-api.mjs:607-628 | each link is sent on the created row with exactly the earlier links observed |
| `DiscountCreate.PollNewLinks` | app/cvent-api.mjs:618-627 | the links are read back until they are as expected, each reading is reported, and it is given up exactly after the bounded number of readings, on a refusal, or when anything else is linked |
| `DiscountCreate.AwaitCreated` | app/cvent-api.mjs:445-470 | a created row is accepted only when found by its identity and in the whole catalog; it is given up exactly after the bounded number of readings, on a refusal, or when the code has another identity |
| `DiscountCreate.FinalRowIsRequested` | app/cvent-api.mjs:645-652 | an accepted final row carries every requested field, the capacity total with the recorded use, the cleared dates and the item scope |
| `DiscountCreate.ConfigureDiscount` | app/cvent-api.mjs:400-470 | nothing is written on invalid input; an update is made exactly if a row of this code and identity was read and its body can be prepared, and is the prepared one of that row, with the input's lists; success leaves the wanted links and everything else preserved; an overtaken creation, a complete creation or one POST on an absent identity are the other possibilities, each tied to what was read. On a remote that does what it is told updates succeed exactly if startable, and creations do |
| `DiscountCreate.UpdatePreserves` | app/cvent-api.mjs:400-470 | a successful update of the row read keeps every field outside the patch, takes those inside it, and sets the prepared capacity total |
| `DiscountCreate.UpdateRemovesOnlyListed` | app/cvent-api.mjs:408-411 | an update's writes remove only explicitly listed links, every other starting link is there after each of them, and an active discount is never left without any |
| `DiscountCreate.CreationIsRequested` | app/cvent-api.mjs:629-655 | a successful item creation leaves exactly the wanted links and a row with every requested field, capacity included |
| `DiscountCreate.IncludesIs` | app/cvent-api.mjs:86-90 | a readback of a creation is accepted exactly if everything requested is found in its place: the same scalar on every path, any object for an object, a list of the same length for a list |
| `DiscountCreate.ClearedIs` | app/cvent-api.mjs:157 | a date that was to be cleared is gone or null |
| `DiscountBody.PreparedBodyPreserves` | app/cvent-api.mjs:145-219 | each of the thirteen listed fields that is not patched is sent as it is unless it is a null date, a patched one as asked, a cleared date drops only itself, nothing else is sent but the capacity, and that is the total alone, never below recorded use |
| `DiscountBody.FieldsAreListed` | app/cvent-api.mjs:145-147 | exactly the listed fields are carried, and exactly those but type, code and scope flag, and the capacity, may be patched |
| `DiscountBody.PreparesExactly` | app/cvent-api.mjs:209-219 | an update is prepared exactly if every field of the row is known, its capacity has a recorded use, the fields are valid, and the total asked for is in range and not below that use |
| `DiscountFields.DateIs` | app/cvent-api.mjs:206 | the dates accepted are exactly the spellings of the days of the calendar |
| `DiscountFields.LaterIsChronological` | app/cvent-api.mjs:207 | comparing their texts compares the days |
| `DiscountFields.ValidBodyIs` | app/cvent-api.mjs:199-207 | exactly the bodies that pass the validation of names, flags, audience, method, note and dates |
| `DiscountBody.ReadbackPreserves` | app/cvent-api.mjs:517-523 | an accepted readback equals the baseline on every non-audit field outside the patch, the scope flag and the capacity total |
| `LinkKeys.ItemKeysAreDistinct` | app/cvent-api.mjs:561 | accepted item lists have distinct keys |
| `LinkKeys.DisjointItemsHaveDisjointKeys` | app/cvent-api.mjs:408-411 | items with different identities never share a key |
| `LinkKeys.AppendThenSort` | app/cvent-api.mjs:543 | appending and sorting inserts one key and keeps the list strictly ascending |
| `LinkKeys.OrderedUnique` | app/cvent-api.mjs:575-581 | a sorted association list is determined by its members |
| `WriteGate.JobGate.BeforeWrite` | app/cvent-api-cli.mjs:97-129 | run to its end before the next callback begins: a write is accepted exactly if the gate admits it, the references are given, the control check passes and both saves succeed; then its marker is on disk, and the whole trace stays well formed |
| `WriteGate.JobGate.RecordEvidence` | app/cvent-api-cli.mjs:130-136 | likewise: evidence is recorded exactly if intent is durable and the save succeeds, and what the gate knows stays backed by the trace |
| `WriteGate.JobGate.Finish` | app/cvent-api-cli.mjs:137-148 | the run's marker is removed exactly after a verified result, passing control checks and a saved receipt |
| `WriteGate.NoReplay` | app/cvent-api-cli.mjs:118 | on the traces of callbacks that run one at a time no method and path is accepted twice |
| `WriteGate.FinalisedOnceAndLast` | app/cvent-api-cli.mjs:100-104 | a new discount is finalised at most once, never linked afterwards, and only after its identity and every requested link were read back |
| `WriteGate.LearnReflects` | app/cvent-api-cli.mjs:134-135 | the created identity and the verified links always stand for readbacks in the trace, and a known identity never changes |
| `WriteGate.AdmittedIsLegit` | app/cvent-api-cli.mjs:98-118 | a write the gate admits is proper and legitimate after the trace so far, as long as no other write was accepted since its test |
| `WriteGate.AdmittedIsProper` | app/cvent-api-cli.mjs:98-117 | written out over the command and the request: an admitted DELETE removes a listed item that is not wanted, by its link on the named discount, leaving every other key in order and an active discount not empty; the other four kinds likewise |
| `WriteGate.AdmitsExactly` | app/cvent-api-cli.mjs:98-118 | the gate admits exactly the proper writes at the proper time |
| `WriteGate.LeavesOutOnce` | app/cvent-api-cli.mjs:114 | the expected links of a removal are determined: the existing ones without that key, in order |
| `WriteGate.FinalisesTheFirst` | app/cvent-api-cli.mjs:102-104 | the finalising body is the creating one, active as requested, and item-scoped |
| `WriteGate.LearnsOnlyItsOwn` | app/cvent-api-cli.mjs:134-135 | the created identity is learned once, from a matched readback of the type, the name or code and the identity, and links only from matched evidence of it |
| `GateInterleaving.NextKeeps` | app/cvent-api-cli.mjs:97-136 | with any number of callbacks in flight, every step between two awaits keeps the log lawful and ordered and the closure variables true to it |
| `GateInterleaving.AllowedWasLawful` | app/cvent-api-cli.mjs:97-129 | in any interleaving an accepted write is proper, had its marker saved after it was booked, and was booked after a test it passed; what the test relied on was on record by then: the identity and every link read back, nothing of that route booked, nothing finalised |
| `GateInterleaving.MarkerStays` | app/cvent-api-cli.mjs:127-129 | from a saved marker on, between its saving and the acceptance included, only somebody else can take it away |
| `GateInterleaving.DispatchedHasMarker` | app/cvent-api-cli.mjs:127-129 | in every run nobody else interferes with, or from any marked write on, this run's marker is on disk whenever a write was accepted or is about to be |
| `GateInterleaving.RebookedWasInFlight` | app/cvent-api-cli.mjs:118-121 | a second booking of a method and path is of another call that was tested before the first booking |
| `GateInterleaving.LateLinkWasInFlight` | app/cvent-api-cli.mjs:100-102 | a link or finalisation booked after a finalisation was tested before it |
| `GateInterleaving.MayReplayIffTwoLive` | app/cvent-api-cli.mjs:97-129 | in every reachable state, without further callbacks a method and path can come to be accepted twice exactly if two of its calls are in flight or accepted |
| `GateInterleaving.TwoLiveIffOverlap` | app/cvent-api-cli.mjs:118-121 | an event makes them two exactly if it begins an admitted write while one of the same method and path awaits its control check |
| `GateInterleaving.ReplayNeedsOverlap` | app/cvent-api-cli.mjs:118-121 | a run without such an overlap never accepts that method and path twice |
| `GateInterleaving.SerialCallerNeverReplays` | app/cvent-api.mjs:471-476 | a caller that begins no write while a callback is in flight never replays |
| `GateInterleaving.CreationIsReplayed` | app/cvent-api-cli.mjs:99-129 | any creation, begun twice before either is booked, is accepted twice |
| `GateInterleaving.SwitchOffIsTestedIffUnbooked` | app/cvent-api-cli.mjs:105-118 | in every reachable state the gate lets through the PUT that switches off a discount of the named identity, whoever created it, exactly if no PUT to it was booked |
| `JobBoundary.Execute` | app/cvent-api-cli.mjs:97-136 | each write the adapter sends against any remote, with the evidence recorded before it, is admitted by the gate under exactly the stated condition; if all are, the gate driven by the adapter's callbacks, one at a time, accepts exactly these writes in this order |
| `JobBoundary.UpdateIsAdmitted` | app/cvent-api-cli.mjs:105-118 | no update is refused half-way: whatever evidence comes in between, all of its writes are admitted if the row names this event or none, and otherwise none is |
| `JobBoundary.CreationIsAdmitted` | app/cvent-api-cli.mjs:98-104 | the inactive POST and every link of a creation are admitted, and the finalisation exactly when the remote filled in nothing unasked |
| `JobBoundary.FinalBodyIsExpected` | app/cvent-api-cli.mjs:104 | the body built from the created row is the one the gate expects exactly when that row carries no other field |
| `JobBoundary.NoteBlocksFinalisation` | app/cvent-api-cli.mjs:102-104 | a lawful creation, with the adapter's own validation, whose finalisation the gate refuses because of an empty note in the remote's row |
| `JobBoundary.FacingFollows` | app/cvent-api-cli.mjs:125-135 | when the adapter asks for a link or the finalisation, its evidence has made the gate know the identity and every earlier link |
| `JobBoundary.DrivenIsGranted` | app/cvent-api.mjs:471-476 | if each write is admitted in its turn, the run of the gate that awaits each callback is serial and accepts them all |
| `JobBoundary.DrivenNeverReplays` | app/cvent-api-cli.mjs:118 | that run never accepts a method and path twice |
| `Transport.EveryRunIsSerialisedAndPaced` | app/cvent-api.mjs:242-282 | for any number of callers and any delays, requests run one at a time in call order, stamps are an interval apart, and each mutating fetch follows its own guard |
| `Transport.StepMoves` | app/cvent-api.mjs:242-282 | what each step does to its request, its stamp and the log: it pauses until an interval after the last stamp, is stamped, passes its guard if it has one, is fetched, and is released with its own outcome |
| `Transport.TimePasses` | app/cvent-api.mjs:246-250 | when each step happens |
| `Transport.NoDeadlock` | app/cvent-api.mjs:243-281 | while anyone waits, the first unreleased request can move |
| `Transport.StepGuarded` | app/cvent-api.mjs:251-252 | a mutating request passes the guard inside its own turn, straight before its fetch |
| `Transport.FailureReleasesSuccessor` | app/cvent-api.mjs:278-281 | a failing request enables its successor |
| `Transport.FetchesFollowStamps` | app/cvent-api.mjs:248-252 | in every run a later request's fetch starts at least the interval, less the time the earlier request's guard took, after the earlier fetch |
| `Transport.FetchesAreSpacedIffUnguarded` | app/cvent-api.mjs:248-252 | in every run that begins with a request of the kind, later fetches start an interval after its fetch, exactly if the kind passes no guard |
| `Transport.UnguardedFetchesAreSpaced` | app/cvent-api.mjs:251-252 | in every run, fetches after an unguarded request start at least an interval later |
| `Transport.SlowGuard` | app/cvent-api.mjs:250-252 | for every interval, a run in which the fetch after a guarded request starts too early |
| `Pagination.ReadCollection` | app/cvent-api.mjs:335-368 | the conversation is a cursor chain of at most 200 pages without a repeated cursor; a list is returned exactly when it ended, and is the concatenation of all pages; a refusal has its reason in the last page |
| `Pagination.NextIs` | app/cvent-api.mjs:319-366 | exactly when a page ends the collection, and exactly which cursor it asks for next; everything else is refused |
| `Pagination.ChainDeterminesRequests` | app/cvent-api.mjs:337-366 | an ended chain is determined by the server's answers |
| `Pagination.BuiltRequestsAreInScope` | app/cvent-api.mjs:42-50 | a follow-up request changes only the cursor and stays in scope |
| `SaveObserver.SaveOnce` | ego-bridge/save-observer.mjs:138-153 | refused without a click exactly if the options, locator or hooks are bad or the preflight does not pass; otherwise exactly one click, and a visible outcome is that of the one deciding read, after inconclusive ones only, each bracketed by passing checks, with the counters of those reads; an uncertainty ends with what made it one |
| `SaveObserver.ObserveSave` | ego-bridge/save-observer.mjs:91-134 | every continued read and the deciding one are bracketed by passing control checks, the outcome is that of the deciding read, and attempts never exceed the timeout in seconds, rounded up |
| `SaveObserver.TestsAreExact` | ego-bridge/save-observer.mjs:69-124 | the tests of a read, each in terms of what the page shows |
| `SaveObserver.PollOnce` | ego-bridge/save-observer.mjs:100-130 | one turn of the loop, with the time that must have passed before the next |
| `SaveObserver.CountersPartition` | ego-bridge/save-observer.mjs:93-97 | attempts are polls plus transient failures, and polls are the not-ready, pending and outcome-less ones |
| `SaveObserver.DecidingPollIsExtra` | ego-bridge/save-observer.mjs:120-126 | at a returned outcome there is exactly one further poll |
| `EventSafety.SharedEventSafety.Verify` | app/shared-event-safety.mjs:72-87 | a request passes exactly if both readings are in time and their assertion is genuine, bound to its one event, and free of holds for it in all three inventories |
| `EventSafety.SharedEventSafety.Parse` | app/shared-event-safety.mjs:46-71 | an assertion is accepted exactly if it is genuine, fresh, unused and there is room, and then enters cache and history together |
| `EventSafety.WellFormedIsGenuine` | app/shared-event-safety.mjs:53-65 | exactly the assertions that are taken into account at all |
| `EventSafety.UnheldIs` | app/shared-event-safety.mjs:81-86 | an event is free exactly if no hold in any inventory names it or leaves the event open |
| `EventSafety.SharedEventSafety.Prune` | app/shared-event-safety.mjs:67 | exactly expired entries leave the cache |
| `EventSafety.SharedEventSafety.PassesAreBoundAndUnique` | app/shared-event-safety.mjs:72-87 | over every run a request has one event and no assertion serves two requests |
| `EventSafety.CacheAccept` | app/shared-event-safety.mjs:66-69 | an acceptance keeps the cache within its limit, backed by the history and single-use while in force |
| `EventSafety.CachedRecently` | app/shared-event-safety.mjs:55 | an entry that survives pruning was accepted less than 125000 ms before |
| `EventSafety.ReplayIsAcceptedIffExpiringInFlight` | app/shared-event-safety.mjs:53-70 | whatever was accepted since, the time and cache tests accept an assertion again exactly if its entry is still cached and it expires between the freshness test and the pruning of that entry, with room left |
| `EventSafety.CacheAloneAllowsReacceptance` | app/shared-event-safety.mjs:66-70 | for any assertion, the readings of two calls that both accept it |
| `HoldLedger.HoldStore.EventHoldInventory` | app/shared-event-safety.mjs:14-38 | an inventory is complete exactly when everything is accountable and within bounds, and then lists exactly the current hold and the jobs without a record or uncertain and unretired |
| `HoldLedger.HoldStore.PrepareFreshReset` | app/fresh-reset.mjs:46-75 | a receipt covers every blocked job, or none is written |
| `HoldLedger.HoldStore.ResetContext` | app/rr-connection.mjs:126-131 | a committed reset retires exactly the blocked jobs and leaves none holding; an uncommitted one retires nothing |
| `HoldLedger.HoldStore.ExecutionSafety` | app/execution-clearance.mjs:12-54 | cleared, resources cleared and retired each hold under exactly their conditions, and the blockers listed are exactly the ones there are |
| `HoldLedger.RetiredIs` | app/fresh-reset.mjs:30-42 | a job's holds are retired exactly if the saved context refers to a usable receipt that lists the job, by its own record, with its one event and the fingerprint of its files as they are now |
| `HoldLedger.EventOfIs` | app/shared-event-safety.mjs:30-31 | a record is bound to an event exactly if it names no other and nothing malformed |
| `HoldLedger.HoldStore.SelectJob` | app/rr-connection.mjs:117-122 | a later save of the context keeps every retirement |
| `HoldLedger.ChangedEvidenceBlocksAgain` | app/fresh-reset.mjs:16-43 | with an injective hash, a retirement outlives a change of the job's directory exactly when the seven fingerprinted files are unchanged |
| `HoldLedger.FingerprintIsTheEvidence` | app/fresh-reset.mjs:16-24 | equal fingerprints mean equal files, and conversely |
| `HoldLedger.CommittedResetRetiresAll` | app/fresh-reset.mjs:54-67 | after the commit a job is retired exactly when it was blocked, and none holds its event |
| `HoldLedger.InventoryIsEmptyAfterReset` | app/shared-event-safety.mjs:21-34 | the inventory straight after a committed reset is empty |
| `HoldLedger.UncommittedReceiptRetiresNothing` | app/fresh-reset.mjs:34-36 | a receipt the context does not refer to has no effect |
| `CompactList.ParseList` | app/rr-field-values.mjs:47-82 | the index loop computes the parse function |
| `CompactList.ParseAcceptsExactlyTheGrammar` | app/rr-field-values.mjs:47-82 | the parser accepts exactly the texts of the grammar of plain and quoted entries, with exactly its meaning, if that is one to 500 visible, distinct texts of bounded length |
| `CompactList.RoundTrip` | app/rr-field-values.mjs:47-82 | printing and parsing returns the list under either padding option exactly when it is a legal list within the length bound |
| `CompactList.ReprintIsFixedPoint` | app/rr-field-values.mjs:47-82 | whatever was accepted can be printed and read back |
| `Utf16.SpacesAre` | app/rr-field-values.mjs:48 | the characters that `trim` removes, one by one |
| `CompactList.ReadQuotedInverts` | app/rr-field-values.mjs:57-64 | reading a quoted entry undoes the doubling of its quotes |
| `CompactList.FindEscape` | app/rr-field-values.mjs:51 | the escape test finds a backslash before the delimiter exactly if there is one |
| `CellReference.CoordinateRoundTrip` | app/rr-field-values.mjs:13-19 | every coordinate within the sheet limits is read back from its spelling |
| `CellReference.ReadIs` | app/rr-field-values.mjs:13-19 | the references read are exactly the spellings of the places of a sheet, with an absolute mark in none, one or both places |
| `CellReference.BareReferenceIsCanonical` | app/workbook-editor.py:60-62 | a bare reference is the unique spelling of its coordinate |
| `CellReference.ColumnNumberOfName` | app/rr-field-values.mjs:17 | the letter fold inverts bijective base-26 naming |
| `CellReference.ColumnNameOfNumber` | app/rr-field-values.mjs:17 | and the naming inverts the fold |
| `SheetEditor.SheetData.Save` | app/workbook-editor.py:54-110 | a refused edit list changes nothing and is refused for its first fault, an accepted one applies every edit, keeps the order of rows and cells and every formula |
| `SheetEditor.SheetData.Check` | app/workbook-editor.py:57-69 | the validation loop accepts exactly the editable lists, and reports the first fault of any other |
| `SheetEditor.SheetData.EditableIs` | app/workbook-editor.py:58-69 | an edit is accepted exactly if it names, in its one spelling, a place within the limits, not in a merged range but for its first cell, without a formula, and its text is storable |
| `SheetEditor.SheetData.EditOne` | app/workbook-editor.py:90-110 | insertion and replacement in the child lists is the edit function |
| `SheetEditor.ApplyRefinesMapUpdate` | app/workbook-editor.py:90-110 | an edit list is a map update: each edited place reads its text, every other cell is unchanged, rows and cells stay strictly ascending |
| `SheetEditor.EditOrderIsIrrelevant` | app/workbook-editor.py:90-110 | any reordering of an edit list produces the same document |
| `OrderedList.PutGet` | app/workbook-editor.py:93-102 | inserting before the first larger key is a map update |
| `OrderedList.Extensional` | app/workbook-editor.py:93-102 | a strictly ascending list is determined by its lookups |
| `FailureGuard.BrowserFailureGuard.Observe` | app/browser-failure-guard.mjs:28-44 | the list is the last three failures of the full window, the guard trips exactly on uncertainty or a full window, and a repeated call is counted again exactly when three or more counted failures came since |
| `FailureGuard.TruncationIsHarmless` | app/browser-failure-guard.mjs:33-36 | truncating at each failure and pruning later shows the last three of the whole history |
| `FailureGuard.WindowIs` | app/browser-failure-guard.mjs:33 | the window is the end of the history that is at most ten minutes old |
| `FailureGuard.DuplicateIsSeenIffRecent` | app/browser-failure-guard.mjs:34-36 | the short duplicate test sees a call of the window exactly while fewer than three counted failures came after it |
| `FailureGuard.CountedTwice` | app/browser-failure-guard.mjs:28-44 | five observations after which one call has been counted twice within one window |
| `RpcFraming.ChunkingIsIrrelevantIffClean` | app/pi-rpc.mjs:30-51 | any two chunkings of a stream emit the same events exactly when no event follows a line that stops the callback |
| `RpcFraming.AllIsDeliveredIffClean` | app/pi-rpc.mjs:30-51 | every chunking emits every event under the same condition |
| `RpcFraming.ParsableIsClean` | app/pi-rpc.mjs:38-41 | a stream whose lines all parse is never affected by its chunks |
| `RpcFraming.DrainAccounts` | app/pi-rpc.mjs:32-50 | what a callback emits and what it leaves make up the stream |
| `RpcFraming.LineMeaning` | app/pi-rpc.mjs:35-41 | a line means its text, with or without a carriage return at its end |
| `RpcFraming.PiRpc.OnData` | app/pi-rpc.mjs:32-51 | the callback drains its buffer line by line and settles the requests answered, also when a handler of an event issues further requests or a line holding `null` throws |
| `RpcFraming.PiRpc.Exit` | app/pi-rpc.mjs:56-60 | when the process ends, every issued request is settled |
| `RpcFraming.ReceiveAllExtends` | app/pi-rpc.mjs:42-48 | no settled request is settled again and none is lost |
| `ProgressCache.ProgressEvidence.Succeed` | public/progress-evidence.js:16-19 | an answer is kept exactly when it is the latest request of the current generation, replaces only earlier requests, and at most ten are kept |
| `ProgressCache.ProgressEvidence.Begin` | public/progress-evidence.js:9-10 | a load takes a fresh request number and becomes the latest for its key |
| `ProgressCache.ProgressEvidence.Fail` | public/progress-evidence.js:21-25 | after a failure only an answer to the same key from the current generation is shown |
| `ProgressCache.SetFacts` | public/progress-evidence.js:17 | setting a key keeps keys unique and its insertion place |

## Left out

- `WriteGate.JobGate.BeforeWrite`: one callback at a time, which `AdmittedIsLegit` states and `JobGate` enforces by its
  form. `GateInterleaving` has the overlapping ones, on values, since they interleave at awaits.
- `WriteGate.JobGate.RecordEvidence`: likewise.
- `WriteGate.NoReplay`: of those traces only; of overlapping callbacks it is false, and `GateInterleaving` says when.
- `WriteGate.AdmittedIsLegit`: assumes that no write was accepted between a test and its acceptance.
- `GateInterleaving.DispatchedHasMarker`: the adapter's return with callbacks still in flight is not modelled;
  `JobGate.Finish` runs when there are none. The adapter awaits every callback.
- `JobBoundary.Execute`: the control checks of the gate pass and its saves succeed; what happens otherwise is
  `JobGate`'s and `GateInterleaving`'s concern.
- The controller and the transport are state machines over values, not classes: handlers interleave at awaits, which a
  sequential method cannot express. Aliasing of the in-memory job record with its saved copy is not captured; the
  outcome of each record write is an answer of the adversary where the code depends on it.
- `JobController.Next`: `assertSettled`, `assertResettable`, the evidence files of `pauseEvidence`, identity comparisons
  other than the browser's, and the budget checks are answers of the adversary, since they read files of earlier runs.
- The legacy routes `/api/return-agent` and `/api/target`, which shared mode disables, and read-only RPC commands.
- The acknowledgement of a security incident is covered by the repeated read-modify-write of the event selection.
- `DiscountBody.PreparedBodyPreserves`: models the field list of discount codes only. The list of volume discounts
  differs in its fields and has no capacity or scope flag; the write gate models both kinds.
- Validation of names, dates, amounts and enums is a parameter of the discount operations. `DiscountBody.ValidBody` is the
  adapter's, for amounts without fractions; `DiscountFields` says what it accepts, and the witnesses use it.
- Which catalog row carries a code (`discountMatch`) is part of the remote's answer, whose type, level and identity are
  checked; event and catalog snapshots are only compared. A UUID is any text of its length.
- `DiscountUpdate.PutIsExpected`: the remote that does what it is told shows each write at the next reading; slower and
  less faithful ones are among the adversaries.
- `LinkKeys.AppendThenSort`: keys are ordered by Dafny characters, which agrees with the original on the ASCII keys that
  item kinds and UUIDs produce.
- The discount identities a job remembers between commands (app/cvent-api-cli.mjs:84-94).
- `HoldLedger.HoldStore.PrepareFreshReset`: directory contents do not change within one synchronous call, so the second
  reading of a fingerprint is not modelled.
- The inspection of uncertainty files, of process groups and of cleanup receipts is an oracle; so are hashing and JSON.
- The host checks of `saveObserverForHost` are one control check that passes or fails; error texts are classified by
  the adversary.
- The other exports of app/rr-field-values.mjs and app/pi-rpc.mjs: reference resolution, list comparison, session reset,
  pause and termination.
- ZIP and XML parsing, sheet selection and relationships; cells are keyed by column number, which
  `CellReference.BareReferenceIsCanonical` justifies.
- HTTP routing, event streams, OAuth, redaction, container provisioning, signals, deployment scripts and the pages.
- Event-detail, registration and feature writers, and the bulk probe: branch-by-branch checks with little structure
  across functions.
