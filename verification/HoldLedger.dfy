/**
 * Uncertainty holds and their retirement: the inventory of unresolved jobs (app/shared-event-safety.mjs), the
 * all-or-nothing reset receipt (app/fresh-reset.mjs) and the clearance that combines both with resource
 * evidence (app/execution-clearance.mjs). Hashing, parsing and the inspection of one directory are an oracle.
 */
module HoldLedger {
  import opened Wrappers

  type Id = nat

  const MAX_ENTRIES := 1000
  const MAX_HOLDS := 100

  datatype FileName =
    | JobJson | RuntimeJson | SteelCleanup | ApiUncertain | SaveUncertain | UnresolvedChanges | FinalReport
    | Elsewhere(name: string)

  /** A path of a job directory: nothing there, no plain readable file of at most a million bytes, or its text. */
  datatype File = Missing | Unreadable | Content(text: string)

  type Directory = map<FileName, File>

  const FINGERPRINTED := [JobJson, RuntimeJson, SteelCleanup, ApiUncertain, SaveUncertain, UnresolvedChanges, FinalReport]

  /** What the ledgers read of a job's record. An event identity that is not a UUID is None. */
  datatype Record = Record(id: Id, settled: bool, sessionOpen: bool, spendingOpen: bool, cleanupFailed: bool,
                           pidValid: bool, changesListed: bool, statusKnown: bool, events: seq<Option<Id>>)

  datatype Reason = EvidenceUnavailable | Other(kind: nat)

  datatype Blocker =
    | NotSettled | SessionOpen | SpendingOpen | CleanupUnconfirmed | ProcessPresent | OperationOwned | BrowserUnconfirmed
    | ResourceEvidenceUnavailable

  datatype Oracle = Oracle(
    digest: string -> nat,
    combine: seq<Option<nat>> -> nat,
    parse: string -> Option<Record>,
    uncertain: (Directory, bool) -> set<Reason>, // with or without the report files
    operationOwned: Directory -> bool,
    processGone: Record -> bool,
    browserReleased: Directory -> Option<bool>)  // None when the evidence cannot be read

  datatype Hold = Hold(jobId: Id, eventId: Id, fingerprint: nat)

  /** `valid` stands for the version, action, workspace key and disclaimer fields. */
  datatype Receipt = Receipt(valid: bool, holds: seq<Hold>)

  datatype Context = Context(id: Option<Id>, workbookId: Option<Id>, jobId: Option<Id>, freshResetId: Option<Id>)

  datatype Data = Data(jobs: map<Id, Directory>, strays: bool, current: Directory, context: Option<Context>, receipts: map<Id, Receipt>)

  function FileIn(d: Directory, f: FileName): File {
    if f in d then d[f] else Missing
  }

  function RecordOf(o: Oracle, d: Directory): Option<Record> {
    var file := FileIn(d, JobJson);
    if file.Content? then o.parse(file.text) else None
  }

  /** The one event the record is bound to. */
  function EventOf(r: Record): Option<Id> {
    if r.events == [] || exists k | 0 <= k < |r.events| :: r.events[k].None? || r.events[k] != r.events[0] then None
    else r.events[0]
  }

  /** A record is bound to an event exactly if it names no other and nothing malformed. */
  lemma EventOfIs(r: Record, event: Id)
    ensures EventOf(r) == Some(event) <==> r.events != [] && forall e <- r.events :: e == Some(event)
  {
    if EventOf(r) == Some(event) {
      forall e <- r.events
        ensures e == Some(event)
      {
        var k :| 0 <= k < |r.events| && r.events[k] == e;
        assert r.events[k] == r.events[0];
      }
    } else if r.events != [] && forall e <- r.events :: e == Some(event) {
      assert r.events[0] in r.events;
      assert forall k | 0 <= k < |r.events| :: r.events[k] in r.events;
    }
  }

  function Digests(o: Oracle, d: Directory, fs: seq<FileName>): seq<Option<nat>> {
    if fs == [] then []
    else
      var file := FileIn(d, fs[0]);
      [if file.Content? then Some(o.digest(file.text)) else None] + Digests(o, d, fs[1..])
  }

  function Fingerprint(o: Oracle, d: Directory): Option<nat> {
    if exists f | f in FINGERPRINTED :: FileIn(d, f).Unreadable? then None
    else Some(o.combine(Digests(o, d, FINGERPRINTED)))
  }

  ghost predicate Injective(o: Oracle) {
    && (forall a, b | o.digest(a) == o.digest(b) :: a == b)
    && (forall a, b | o.combine(a) == o.combine(b) :: a == b)
  }

  predicate SameEvidence(d: Directory, e: Directory) {
    forall f | f in FINGERPRINTED :: FileIn(d, f) == FileIn(e, f)
  }

  lemma {:induction false} DigestsAgree(o: Oracle, d: Directory, e: Directory, fs: seq<FileName>)
    requires forall f | f in fs :: !FileIn(d, f).Unreadable? && !FileIn(e, f).Unreadable?
    ensures (forall f | f in fs :: FileIn(d, f) == FileIn(e, f)) ==> Digests(o, d, fs) == Digests(o, e, fs)
    ensures Injective(o) && Digests(o, d, fs) == Digests(o, e, fs) ==> forall f | f in fs :: FileIn(d, f) == FileIn(e, f)
  {
    if fs != [] {
      DigestsAgree(o, d, e, fs[1..]);
      var a, b := Digests(o, d, fs), Digests(o, e, fs);
      assert a[1..] == Digests(o, d, fs[1..]) && b[1..] == Digests(o, e, fs[1..]);
      assert a == b ==> a[0] == b[0];
    }
  }

  /** Two directories have the same fingerprint exactly when the seven files are the same. */
  lemma FingerprintIsTheEvidence(o: Oracle, d: Directory, e: Directory)
    requires Injective(o) && Fingerprint(o, d).Some?
    ensures Fingerprint(o, e) == Fingerprint(o, d) <==> SameEvidence(d, e)
  {
    if Fingerprint(o, e).Some? {
      DigestsAgree(o, d, e, FINGERPRINTED);
    } else {
      var f :| f in FINGERPRINTED && FileIn(e, f).Unreadable?;
      assert !FileIn(d, f).Unreadable?;
    }
  }

  // ---- Retirement -------------------------------------------------------------------------------------------------

  predicate Distinct(holds: seq<Hold>) {
    forall i, j | 0 <= i < j < |holds| :: holds[i].jobId != holds[j].jobId
  }

  /** The receipt the saved context refers to, if it can be used. */
  predicate Effective(data: Data) {
    && data.context.Some? && data.context.value.id.Some? && data.context.value.freshResetId.Some?
    && data.context.value.freshResetId.value in data.receipts
    && var receipt := data.receipts[data.context.value.freshResetId.value];
       receipt.valid && |receipt.holds| <= MAX_ENTRIES && Distinct(receipt.holds)
  }

  function EffectiveHolds(data: Data): seq<Hold> {
    if Effective(data) then data.receipts[data.context.value.freshResetId.value].holds else []
  }

  /** `historicalHoldRetired`: the acknowledgement names this job, its event and its evidence as they are now. */
  predicate Acknowledged(o: Oracle, holds: seq<Hold>, d: Directory, id: Id) {
    && RecordOf(o, d).Some? && RecordOf(o, d).value.id == id
    && EventOf(RecordOf(o, d).value).Some? && Fingerprint(o, d).Some?
    && Hold(id, EventOf(RecordOf(o, d).value).value, Fingerprint(o, d).value) in holds
  }

  predicate Retired(o: Oracle, data: Data, id: Id) {
    id in data.jobs && Acknowledged(o, EffectiveHolds(data), data.jobs[id], id)
  }

  /**
   * What retires the holds of a job: the saved context refers to a usable receipt, and that receipt lists the job, by
   * its own record, with the one event it is bound to and the fingerprint of its files as they are now.
   */
  lemma RetiredIs(o: Oracle, data: Data, id: Id)
    ensures Retired(o, data, id) <==>
      && data.context.Some? && data.context.value.id != None && data.context.value.freshResetId.Some?
      && data.context.value.freshResetId.value in data.receipts && Usable(data.receipts[data.context.value.freshResetId.value])
      && id in data.jobs && RecordOf(o, data.jobs[id]).Some? && RecordOf(o, data.jobs[id]).value.id == id
      && exists h <- data.receipts[data.context.value.freshResetId.value].holds ::
           && h.jobId == id && EventOf(RecordOf(o, data.jobs[id]).value) == Some(h.eventId)
           && Fingerprint(o, data.jobs[id]) == Some(h.fingerprint)
  {
    hide EventOf; hide Fingerprint; hide RecordOf;
    if Retired(o, data, id) {
      var record := RecordOf(o, data.jobs[id]).value;
      var h := Hold(id, EventOf(record).value, Fingerprint(o, data.jobs[id]).value);
      assert h in data.receipts[data.context.value.freshResetId.value].holds;
    }
  }

  /** A valid receipt of at most a thousand holds, no two of one job. */
  ghost predicate Usable(receipt: Receipt) {
    && receipt.valid && |receipt.holds| <= 1000
    && forall i, j :: 0 <= i < |receipt.holds| && 0 <= j < |receipt.holds| && receipt.holds[i].jobId == receipt.holds[j].jobId ==> i == j
  }

  /** A retirement outlives a change of the job's directory exactly when the change leaves the seven files alone. */
  lemma ChangedEvidenceBlocksAgain(o: Oracle, data: Data, id: Id, d: Directory)
    requires Injective(o) && Retired(o, data, id)
    ensures Retired(o, data.(jobs := data.jobs[id := d]), id) <==> SameEvidence(data.jobs[id], d)
  {
    var holds := EffectiveHolds(data);
    var was := data.jobs[id];
    assert EffectiveHolds(data.(jobs := data.jobs[id := d])) == holds;
    FingerprintIsTheEvidence(o, was, d);
    hide Fingerprint; hide EventOf;
    assert JobJson in FINGERPRINTED;
    if Acknowledged(o, holds, d, id) {
      var h := Hold(id, EventOf(RecordOf(o, was).value).value, Fingerprint(o, was).value);
      var k := Hold(id, EventOf(RecordOf(o, d).value).value, Fingerprint(o, d).value);
      assert h in holds && k in holds && Distinct(holds);
    }
  }

  /** Saving the context again with the same reset reference keeps every retirement, whatever else it selects. */
  lemma LaterSavesKeepRetirement(o: Oracle, data: Data, id: Id, context: Context)
    requires data.context.Some? && context.freshResetId == data.context.value.freshResetId
    requires context.id.Some? <==> data.context.value.id.Some?
    ensures Retired(o, data.(context := Some(context)), id) <==> Retired(o, data, id)
  {
  }

  /** A receipt that the context does not refer to has no effect. */
  lemma UncommittedReceiptRetiresNothing(o: Oracle, data: Data, id: Id, reset: Id, receipt: Receipt)
    requires data.context.Some? ==> data.context.value.freshResetId != Some(reset)
    ensures Retired(o, data.(receipts := data.receipts[reset := receipt]), id) <==> Retired(o, data, id)
  {
  }

  // ---- Clearance --------------------------------------------------------------------------------------------------

  predicate Blocked(o: Oracle, d: Directory) {
    o.uncertain(d, true) != {}
  }

  /** Every resource condition of `executionSafety`. */
  predicate ResourcesCleared(o: Oracle, data: Data, id: Id) {
    && id in data.jobs && RecordOf(o, data.jobs[id]).Some?
    && var d := data.jobs[id]; var r := RecordOf(o, d).value;
       && r.id == id && r.settled && !r.sessionOpen && !r.spendingOpen && !r.cleanupFailed && r.pidValid && o.processGone(r)
       && !o.operationOwned(d) && !o.operationOwned(data.current) && o.browserReleased(d) == Some(true)
  }

  /** ... and every uncertainty condition, given a settled record. */
  predicate Certain(o: Oracle, data: Data, id: Id) {
    && id in data.jobs && RecordOf(o, data.jobs[id]).Some? && RecordOf(o, data.jobs[id]).value.id == id
    && !Blocked(o, data.jobs[id]) && o.uncertain(data.current, false) == {} && RecordOf(o, data.jobs[id]).value.changesListed
  }

  datatype Safety = Safety(cleared: bool, resourcesCleared: bool, uncertaintyBlocked: bool, historicalHoldRetired: bool,
                           resource: set<Blocker>, uncertainty: set<Reason>)

  /** What stands against clearing the resources of a settled job. */
  ghost predicate Named(b: Blocker, o: Oracle, r: Record, d: Directory, current: Directory) {
    match b
    case NotSettled => false
    case SessionOpen => r.sessionOpen
    case SpendingOpen => r.spendingOpen
    case CleanupUnconfirmed => r.cleanupFailed
    case ProcessPresent => !(r.pidValid && o.processGone(r))
    case OperationOwned => o.operationOwned(d) || o.operationOwned(current)
    case BrowserUnconfirmed => o.browserReleased(d).Some? && !o.browserReleased(d).value
    case ResourceEvidenceUnavailable => o.browserReleased(d).None?
  }

  /** Every blocker of a settled job, and every uncertainty, is named exactly if it is there. */
  ghost predicate Accounts(s: Safety, o: Oracle, r: Record, d: Directory, current: Directory) {
    && (forall b: Blocker :: b in s.resource <==> Named(b, o, r, d, current))
    && s.uncertainty == o.uncertain(d, true) + o.uncertain(current, false)
                        + if r.changesListed && o.browserReleased(d) != None then {} else {EvidenceUnavailable}
  }

  lemma AccountsDecide(s: Safety, o: Oracle, data: Data, id: Id)
    requires id in data.jobs && RecordOf(o, data.jobs[id]).Some? && RecordOf(o, data.jobs[id]).value.id == id
    requires RecordOf(o, data.jobs[id]).value.settled && Accounts(s, o, RecordOf(o, data.jobs[id]).value, data.jobs[id], data.current)
    ensures s.resource == {} <==> ResourcesCleared(o, data, id)
    ensures s.uncertainty == {} && s.resource == {} <==> ResourcesCleared(o, data, id) && Certain(o, data, id)
  {
    var r, d := RecordOf(o, data.jobs[id]).value, data.jobs[id];
    hide RecordOf;
    if ResourcesCleared(o, data, id) {
      assert forall b: Blocker :: !Named(b, o, r, d, data.current);
    } else {
      assert exists b: Blocker :: Named(b, o, r, d, data.current) by {
        SomeBlocker(o, data, id);
      }
    }
  }

  lemma ClearedIsReleased(o: Oracle, data: Data, id: Id)
    requires ResourcesCleared(o, data, id)
    ensures o.browserReleased(data.jobs[id]).Some?
  {
  }

  lemma SomeBlocker(o: Oracle, data: Data, id: Id)
    requires id in data.jobs && RecordOf(o, data.jobs[id]).Some? && RecordOf(o, data.jobs[id]).value.id == id
    requires RecordOf(o, data.jobs[id]).value.settled && !ResourcesCleared(o, data, id)
    ensures exists b: Blocker :: Named(b, o, RecordOf(o, data.jobs[id]).value, data.jobs[id], data.current)
  {
    hide RecordOf;
    var r, d := RecordOf(o, data.jobs[id]).value, data.jobs[id];
    assert || Named(SessionOpen, o, r, d, data.current) || Named(SpendingOpen, o, r, d, data.current)
           || Named(CleanupUnconfirmed, o, r, d, data.current) || Named(ProcessPresent, o, r, d, data.current)
           || Named(OperationOwned, o, r, d, data.current) || Named(BrowserUnconfirmed, o, r, d, data.current)
           || Named(ResourceEvidenceUnavailable, o, r, d, data.current);
  }

  /** Without a settled record of the job's own nothing is cleared. */
  lemma Unknown(o: Oracle, data: Data, id: Id)
    ensures ResourcesCleared(o, data, id) ==> && id in data.jobs && RecordOf(o, data.jobs[id]).Some? && RecordOf(o, data.jobs[id]).value.id == id
                                              && RecordOf(o, data.jobs[id]).value.settled
  {
  }

  // ---- The stores -------------------------------------------------------------------------------------------------

  /** The first entries of an inventory. */
  function CurrentHold(o: Oracle, data: Data): seq<(Option<Id>, Option<Id>)> {
    if o.uncertain(data.current, false) != {} then [(None, None)] else []
  }

  /** A job directory the inventory cannot account for. */
  predicate Unaccountable(o: Oracle, data: Data, id: Id)
    requires id in data.jobs
  {
    var d := data.jobs[id];
    !FileIn(d, JobJson).Missing? && (RecordOf(o, d).None? || RecordOf(o, d).value.id != id || !RecordOf(o, d).value.statusKnown)
  }

  /** A job that holds its event: no record at all, or uncertain evidence that was not retired. */
  predicate Holds(o: Oracle, data: Data, id: Id)
    requires id in data.jobs
  {
    FileIn(data.jobs[id], JobJson).Missing? || (Blocked(o, data.jobs[id]) && !(ResourcesCleared(o, data, id) && Retired(o, data, id)))
  }

  function HoldOf(o: Oracle, data: Data, id: Id): (Option<Id>, Option<Id>)
    requires id in data.jobs
  {
    (Some(id), if RecordOf(o, data.jobs[id]).Some? then EventOf(RecordOf(o, data.jobs[id]).value) else None)
  }

  function JobHolds(o: Oracle, data: Data, ids: seq<Id>): seq<(Option<Id>, Option<Id>)>
    requires forall id | id in ids :: id in data.jobs
  {
    if ids == [] then []
    else
      JobHolds(o, data, ids[..|ids| - 1])
      + if Holds(o, data, ids[|ids| - 1]) then [HoldOf(o, data, ids[|ids| - 1])] else []
  }

  function Acknowledgement(o: Oracle, data: Data, id: Id): Hold
    requires Resettable(o, data, id) && Blocked(o, data.jobs[id])
  {
    Hold(id, EventOf(RecordOf(o, data.jobs[id]).value).value, Fingerprint(o, data.jobs[id]).value)
  }

  /** The acknowledgements of a reset. */
  function ResetHolds(o: Oracle, data: Data, ids: seq<Id>): seq<Hold>
    requires forall id | id in ids :: Resettable(o, data, id)
  {
    if ids == [] then []
    else
      var id := ids[|ids| - 1];
      assert Resettable(o, data, id);
      ResetHolds(o, data, ids[..|ids| - 1]) + if Blocked(o, data.jobs[id]) then [Acknowledgement(o, data, id)] else []
  }

  /** A job a reset can go ahead with: untroubled, or settled, bound to one event and with readable evidence. */
  predicate Resettable(o: Oracle, data: Data, id: Id) {
    && id in data.jobs && RecordOf(o, data.jobs[id]).Some? && RecordOf(o, data.jobs[id]).value.id == id
    && (Blocked(o, data.jobs[id]) ==>
          && EvidenceUnavailable !in o.uncertain(data.jobs[id], true)
          && EventOf(RecordOf(o, data.jobs[id]).value).Some? && Fingerprint(o, data.jobs[id]).Some? && ResourcesCleared(o, data, id))
  }

  ghost predicate Listing(ids: seq<Id>, jobs: map<Id, Directory>) {
    (forall i, j | 0 <= i < j < |ids| :: ids[i] < ids[j]) && forall id :: id in ids <==> id in jobs
  }

  predicate MayReset(o: Oracle, data: Data, ids: seq<Id>) {
    o.uncertain(data.current, false) == {} && |ids| <= MAX_ENTRIES && !data.strays && forall id | id in ids :: Resettable(o, data, id)
  }

  lemma {:induction false} ResetHoldsFacts(o: Oracle, data: Data, ids: seq<Id>)
    requires forall id | id in ids :: Resettable(o, data, id)
    requires forall i, j | 0 <= i < j < |ids| :: ids[i] < ids[j]
    ensures var holds := ResetHolds(o, data, ids);
            && |holds| <= |ids| && Distinct(holds) && (forall h | h in holds :: h.jobId in ids)
            && forall id | id in ids :: Blocked(o, data.jobs[id]) <==> Acknowledged(o, holds, data.jobs[id], id)
    decreases |ids|
  {
    hide Fingerprint; hide EventOf; hide ResourcesCleared; hide RecordOf;
    if ids != [] {
      var init, last := ids[..|ids| - 1], ids[|ids| - 1];
      ResetHoldsFacts(o, data, init);
      var before, holds := ResetHolds(o, data, init), ResetHolds(o, data, ids);
      assert last !in init;
      forall id | id in ids
        ensures Blocked(o, data.jobs[id]) <==> Acknowledged(o, holds, data.jobs[id], id)
      {
        assert Resettable(o, data, id);
        if id != last {
          assert id in init;
        }
      }
    }
  }

  /** A committed reset acknowledges every blocked job and no other, and retires each of them. */
  lemma CommittedResetRetiresAll(o: Oracle, data: Data, ids: seq<Id>, reset: Id, context: Context, id: Id)
    requires Listing(ids, data.jobs) && MayReset(o, data, ids) && id in data.jobs
    requires context.id.Some? && context.freshResetId == Some(reset)
    ensures var after := data.(receipts := data.receipts[reset := Receipt(true, ResetHolds(o, data, ids))], context := Some(context));
            (Retired(o, after, id) <==> Blocked(o, data.jobs[id])) && !Holds(o, after, id)
  {
    ResetHoldsFacts(o, data, ids);
    var after := data.(receipts := data.receipts[reset := Receipt(true, ResetHolds(o, data, ids))], context := Some(context));
    assert EffectiveHolds(after) == ResetHolds(o, data, ids);
    assert Resettable(o, data, id);
    hide Acknowledged; hide Fingerprint;
    assert ResourcesCleared(o, after, id) == ResourcesCleared(o, data, id);
  }

  lemma {:induction false} NoJobHolds(o: Oracle, data: Data, ids: seq<Id>)
    requires forall id | id in ids :: id in data.jobs && !Holds(o, data, id)
    ensures JobHolds(o, data, ids) == []
    decreases |ids|
  {
    if ids != [] {
      NoJobHolds(o, data, ids[..|ids| - 1]);
    }
  }

  /** The inventory straight after a committed reset lists nothing, in any order of the entries. */
  lemma InventoryIsEmptyAfterReset(o: Oracle, data: Data, ids: seq<Id>, listed: seq<Id>, reset: Id, context: Context)
    requires Listing(ids, data.jobs) && MayReset(o, data, ids) && (forall id | id in listed :: id in data.jobs)
    requires context.id.Some? && context.freshResetId == Some(reset)
    ensures var after := data.(receipts := data.receipts[reset := Receipt(true, ResetHolds(o, data, ids))], context := Some(context));
            CurrentHold(o, after) + JobHolds(o, after, listed) == []
  {
    var after := data.(receipts := data.receipts[reset := Receipt(true, ResetHolds(o, data, ids))], context := Some(context));
    forall id | id in listed
      ensures !Holds(o, after, id)
    {
      CommittedResetRetiresAll(o, data, ids, reset, context, id);
    }
    hide Holds; hide MayReset;
    NoJobHolds(o, after, listed);
    assert o.uncertain(data.current, false) == {} by {
      ResetNeedsCertainty(o, data, ids);
    }
  }

  lemma ResetNeedsCertainty(o: Oracle, data: Data, ids: seq<Id>)
    requires MayReset(o, data, ids)
    ensures o.uncertain(data.current, false) == {}
  {
  }

  class HoldStore {
    var jobs: map<Id, Directory>
    var strays: bool // an entry of data/jobs that is no job identity
    var current: Directory
    var context: Option<Context>
    var receipts: map<Id, Receipt>

    function Snapshot(): Data
      reads this
    {
      Data(jobs, strays, current, context, receipts)
    }

    /** What the record itself says against clearing its resources. */
    method RecordBlockers(o: Oracle, r: Record) returns (resource: set<Blocker>)
      ensures SessionOpen in resource <==> r.sessionOpen
      ensures SpendingOpen in resource <==> r.spendingOpen
      ensures CleanupUnconfirmed in resource <==> r.cleanupFailed
      ensures ProcessPresent in resource <==> !(r.pidValid && o.processGone(r))
      ensures resource <= {SessionOpen, SpendingOpen, CleanupUnconfirmed, ProcessPresent}
    {
      resource := {};
      if r.sessionOpen { resource := resource + {SessionOpen}; }
      if r.spendingOpen { resource := resource + {SpendingOpen}; }
      if r.cleanupFailed { resource := resource + {CleanupUnconfirmed}; }
      if !r.pidValid || !o.processGone(r) { resource := resource + {ProcessPresent}; }
    }

    /** ... and what the two directories say. */
    method ResourceBlockers(o: Oracle, r: Record, d: Directory) returns (resource: set<Blocker>)
      ensures forall b: Blocker :: b in resource <==> Named(b, o, r, d, current)
    {
      resource := RecordBlockers(o, r);
      if o.operationOwned(d) { resource := resource + {OperationOwned}; }
      if o.operationOwned(current) { resource := resource + {OperationOwned}; }
      var released := o.browserReleased(d);
      if released.None? {
        resource := resource + {ResourceEvidenceUnavailable};
      } else if !released.value {
        resource := resource + {BrowserUnconfirmed};
      }
    }

    /** `executionSafety`. */
    method ExecutionSafety(o: Oracle, id: Id) returns (s: Safety)
      ensures s.resourcesCleared <==> ResourcesCleared(o, Snapshot(), id)
      ensures s.cleared <==> ResourcesCleared(o, Snapshot(), id) && Certain(o, Snapshot(), id)
      ensures s.historicalHoldRetired <==> ResourcesCleared(o, Snapshot(), id) && Retired(o, Snapshot(), id)
      ensures s.resourcesCleared <==> s.resource == {}
      ensures s.uncertaintyBlocked <==> s.uncertainty != {}
      ensures var known := id in jobs && RecordOf(o, jobs[id]).Some? && RecordOf(o, jobs[id]).value.id == id;
              && (!known ==> s.resource == {ResourceEvidenceUnavailable} && s.uncertainty == {EvidenceUnavailable})
              && (known && !RecordOf(o, jobs[id]).value.settled ==> s.resource == {NotSettled} && s.uncertainty == o.uncertain(jobs[id], true))
              && (known && RecordOf(o, jobs[id]).value.settled ==> Accounts(s, o, RecordOf(o, jobs[id]).value, jobs[id], current))
    {
      hide Retired; hide ResourcesCleared; hide Certain; hide RecordOf; hide Named;
      Unknown(o, Snapshot(), id);
      if id !in jobs || RecordOf(o, jobs[id]).None? || RecordOf(o, jobs[id]).value.id != id {
        return Safety(false, false, true, false, {ResourceEvidenceUnavailable}, {EvidenceUnavailable});
      }
      var d := jobs[id];
      var r := RecordOf(o, d).value;
      if !r.settled {
        var reasons := o.uncertain(d, true);
        return Safety(false, false, reasons != {}, false, {NotSettled}, reasons);
      }
      var resource := ResourceBlockers(o, r, d);
      var uncertainty := o.uncertain(d, true) + o.uncertain(current, false);
      var retired := false;
      if !r.changesListed || o.browserReleased(d).None? { uncertainty := uncertainty + {EvidenceUnavailable}; }
      if o.browserReleased(d).Some? {
        retired := Retired(o, Snapshot(), id);
      }
      s := Safety(resource == {} && uncertainty == {}, resource == {}, uncertainty != {}, resource == {} && retired, resource, uncertainty);
      AccountsDecide(s, o, Snapshot(), id);
      if resource == {} {
        ClearedIsReleased(o, Snapshot(), id);
      }
    }

    /** `eventHoldInventory`: None when the inventory cannot be completed. */
    method EventHoldInventory(o: Oracle, entries: seq<Id>) returns (holds: Option<seq<(Option<Id>, Option<Id>)>>)
      requires forall id :: id in entries <==> id in jobs
      ensures var all := CurrentHold(o, Snapshot()) + JobHolds(o, Snapshot(), entries);
              var readable := !strays && |entries| <= MAX_ENTRIES && forall id | id in entries :: !Unaccountable(o, Snapshot(), id);
              (holds.Some? <==> readable && |all| <= MAX_HOLDS) && (holds.Some? ==> holds.value == all)
    {
      hide ResourcesCleared; hide Retired; hide Blocked; hide Unaccountable; hide Holds; hide JobHolds; hide CurrentHold;
      if strays || |entries| > MAX_ENTRIES {
        return None;
      }
      var found := CurrentHold(o, Snapshot());
      NoEntriesYet(o, Snapshot(), entries);
      for i := 0 to |entries|
        invariant found == CurrentHold(o, Snapshot()) + JobHolds(o, Snapshot(), entries[..i])
        invariant forall id | id in entries[..i] :: !Unaccountable(o, Snapshot(), id)
        invariant |found| <= MAX_HOLDS
      {
        var id := entries[i];
        assert entries[..i + 1] == entries[..i] + [id];
        HoldsGrow(o, Snapshot(), entries, i + 1);
        var held := Inspect(o, id);
        if held.None? {
          return None;
        }
        if held.value {
          found := found + [HoldOf(o, Snapshot(), id)];
          if |found| > MAX_HOLDS {
            return None;
          }
        }
      }
      assert entries[..|entries|] == entries;
      return Some(found);
    }

    /** One entry of the inventory: unaccountable, or whether it holds its event. */
    method Inspect(o: Oracle, id: Id) returns (held: Option<bool>)
      requires id in jobs
      ensures held.None? <==> Unaccountable(o, Snapshot(), id)
      ensures held.Some? ==> (held.value <==> Holds(o, Snapshot(), id))
    {
      hide ResourcesCleared; hide Retired;
      var d := jobs[id];
      if FileIn(d, JobJson).Missing? {
        return Some(true);
      }
      if RecordOf(o, d).None? || RecordOf(o, d).value.id != id || !RecordOf(o, d).value.statusKnown {
        return None;
      }
      if o.uncertain(d, true) == {} {
        return Some(false);
      }
      var s := ExecutionSafety(o, id);
      return Some(!s.historicalHoldRetired);
    }

    /** `prepareFreshReset`: the receipt of all blocked jobs, or nothing. */
    method PrepareFreshReset(o: Oracle, ids: seq<Id>, reset: Id, written: bool) returns (ok: bool)
      requires Listing(ids, jobs)
      modifies this`receipts
      ensures ok <==> old(MayReset(o, Snapshot(), ids)) && written
      ensures receipts == if ok then old(receipts[reset := Receipt(true, ResetHolds(o, Snapshot(), ids))]) else old(receipts)
    {
      hide ResourcesCleared; hide Fingerprint; hide EventOf;
      if o.uncertain(current, false) != {} || |ids| > MAX_ENTRIES || strays {
        return false;
      }
      var holds: seq<Hold> := [];
      for i := 0 to |ids|
        invariant unchanged(this)
        invariant forall id | id in ids[..i] :: Resettable(o, Snapshot(), id)
        invariant holds == ResetHolds(o, Snapshot(), ids[..i])
      {
        var id := ids[i];
        assert ids[..i + 1] == ids[..i] + [id] && ids[..i + 1][..i] == ids[..i];
        var d := jobs[id];
        var record := RecordOf(o, d);
        if record.None? || record.value.id != id {
          return false;
        }
        var reasons := o.uncertain(d, true);
        if reasons != {} {
          var event, before := EventOf(record.value), Fingerprint(o, d);
          if EvidenceUnavailable in reasons || event.None? || before.None? {
            return false;
          }
          var proof := ExecutionSafety(o, id);
          if !proof.resourcesCleared {
            return false;
          }
          holds := holds + [Hold(id, event.value, before.value)];
        }
      }
      assert ids[..|ids|] == ids;
      if !written {
        return false;
      }
      receipts := receipts[reset := Receipt(true, holds)];
      return true;
    }

    /** `resetContext`: the receipt takes effect with the context that refers to it, and with nothing before. */
    method ResetContext(o: Oracle, ids: seq<Id>, reset: Id, generation: Id, workbook: Option<Id>, written: bool, saved: bool)
      returns (committed: bool)
      requires Listing(ids, jobs) && (context.Some? ==> context.value.freshResetId != Some(reset))
      modifies this`receipts, this`context
      ensures committed <==> old(MayReset(o, Snapshot(), ids)) && written && saved
      ensures committed ==> context == Some(Context(Some(generation), workbook, None, Some(reset)))
      ensures committed ==> forall id | id in jobs :: (Retired(o, Snapshot(), id) <==> Blocked(o, jobs[id])) && !Holds(o, Snapshot(), id)
      ensures !committed ==> context == old(context) && forall id :: Retired(o, Snapshot(), id) <==> old(Retired(o, Snapshot(), id))
    {
      hide Retired; hide Blocked; hide Holds; hide MayReset;
      ghost var before := Snapshot();
      committed := PrepareFreshReset(o, ids, reset, written);
      if committed {
        forall id
          ensures Retired(o, Snapshot(), id) <==> Retired(o, before, id)
        {
          UncommittedReceiptRetiresNothing(o, before, id, reset, receipts[reset]);
        }
        committed := saved;
        if saved {
          context := Some(Context(Some(generation), workbook, None, Some(reset)));
          forall id | id in jobs
            ensures (Retired(o, Snapshot(), id) <==> Blocked(o, jobs[id])) && !Holds(o, Snapshot(), id)
          {
            CommittedResetRetiresAll(o, before, ids, reset, context.value, id);
          }
        }
      }
    }

    /** Start and upload save the context again around the fields they change. */
    method SelectJob(o: Oracle, job: Id, workbook: Option<Id>)
      requires context.Some?
      modifies this`context
      ensures var was := old(context).value;
              context == Some(was.(jobId := Some(job), workbookId := if workbook.Some? then workbook else was.workbookId))
      ensures forall id :: Retired(o, Snapshot(), id) <==> old(Retired(o, Snapshot(), id))
    {
      hide Retired;
      ghost var before := Snapshot();
      context := Some(context.value.(jobId := Some(job), workbookId := if workbook.Some? then workbook else context.value.workbookId));
      forall id
        ensures Retired(o, Snapshot(), id) <==> Retired(o, before, id)
      {
        LaterSavesKeepRetirement(o, before, id, context.value);
      }
    }
  }

  lemma NoEntriesYet(o: Oracle, data: Data, ids: seq<Id>)
    requires forall id | id in ids :: id in data.jobs
    ensures ids[..0] == [] && JobHolds(o, data, ids[..0]) == [] && |CurrentHold(o, data)| <= 1
  {
  }

  /** One more entry adds at most its own hold. */
  lemma HoldsGrow(o: Oracle, data: Data, ids: seq<Id>, n: nat)
    requires 0 < n <= |ids| && forall id | id in ids :: id in data.jobs
    ensures var prior := JobHolds(o, data, ids[..n - 1]);
            JobHolds(o, data, ids[..n]) == prior + if Holds(o, data, ids[n - 1]) then [HoldOf(o, data, ids[n - 1])] else []
    ensures |JobHolds(o, data, ids[..n])| <= |JobHolds(o, data, ids)|
    decreases |ids| - n
  {
    hide Holds;
    assert ids[..n][..n - 1] == ids[..n - 1];
    if n < |ids| {
      HoldsGrow(o, data, ids, n + 1);
      assert ids[..n + 1][..n] == ids[..n];
    } else {
      assert ids[..n] == ids;
    }
  }
}
