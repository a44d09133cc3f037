/**
 * Shared event safety: single-use handoff assertions. Every reading of the clock may be later than the one
 * before it, even within one call, so an assertion can expire between the checks that look at it.
 */
module EventSafety {
  import opened Wrappers

  const LIFETIME_MS := 120_000
  const SKEW_MS := 5_000
  const CACHE_LIMIT := 1000

  type Id = string

  predicate Uuid(s: Id) {
    |s| == 36 && forall k | 0 <= k < 36 ::
      if k == 8 || k == 13 || k == 18 || k == 23 then s[k] == '-' else '0' <= s[k] <= '9' || 'a' <= s[k] <= 'f'
  }

  datatype Operation = Answer | Resume | Rpc

  datatype Hold = Hold(jobId: Option<Id>, eventId: Option<Id>)

  datatype Inventory = Inventory(protocolOk: bool, workspace: int, enforced: bool, complete: bool, leasesEnforced: bool, holds: seq<Hold>)

  datatype Lease = Lease(protocolOk: bool, claimId: Id, contextId: Id, eventId: Id, sharedContactTypeCreation: bool)

  datatype Proof = Proof(protocolOk: bool, workspace: int, jobId: Id, operation: Operation, nonce: Id,
                         issuedAt: int, expiresAt: int, inventories: seq<Inventory>, lease: Option<Lease>)

  /** The assertion header: absent, undecodable, or a proof. */
  datatype Header = Absent | Garbled | Carries(proof: Proof)

  datatype Request = Request(id: nat, post: bool, pathJob: Id, operation: Operation, header: Header)

  datatype Record = Record(id: Id, contextId: Option<Id>)

  datatype Target = Target(apiEventId: Id, evtstub: Id)

  datatype Context = Context(proof: Option<Proof>, eventId: Option<Id>)

  predicate GoodHold(h: Hold) {
    (h.jobId.Some? ==> Uuid(h.jobId.value)) && (h.eventId.Some? ==> Uuid(h.eventId.value))
  }

  predicate GoodInventory(i: Inventory, workspace: int) {
    i.protocolOk && i.workspace == workspace && i.enforced && i.complete && |i.holds| <= 100
    && forall k | 0 <= k < |i.holds| :: GoodHold(i.holds[k])
  }

  /** Everything about an assertion that does not depend on the clock. */
  predicate WellFormed(p: Proof, r: Request, record: Record, workspace: int, requireLease: bool) {
    && r.post && Uuid(record.id) && r.pathJob == record.id
    && p.protocolOk && p.workspace == workspace && p.jobId == record.id && p.operation == r.operation && Uuid(p.nonce)
    && p.expiresAt - p.issuedAt == LIFETIME_MS
    && |p.inventories| == 3 && (forall k | 0 <= k < 3 :: GoodInventory(p.inventories[k], k + 1))
    && (requireLease ==>
          && (forall k | 0 <= k < 3 :: p.inventories[k].leasesEnforced)
          && p.lease.Some? && p.lease.value.protocolOk && Uuid(p.lease.value.claimId) && Uuid(p.lease.value.contextId) && Uuid(p.lease.value.eventId)
          && record.contextId == Some(p.lease.value.contextId) && !p.lease.value.sharedContactTypeCreation)
  }

  /** A hold stops an event when it names that event or names none. */
  predicate Blocks(h: Hold, eventId: Id) {
    h.eventId.None? || h.eventId.value == eventId
  }

  predicate Held(p: Proof, eventId: Id) {
    exists i, k | 0 <= i < |p.inventories| && 0 <= k < |p.inventories[i].holds| :: Blocks(p.inventories[i].holds[k], eventId)
  }

  // ---- What an assertion must say, field by field ---------------------------------------------------------------

  /** Five groups of lower-case hexadecimal digits: eight, three times four, and twelve. */
  ghost predicate HexGroups(s: Id) {
    && |s| == 36 && s[8] == '-' && s[13] == '-' && s[18] == '-' && s[23] == '-'
    && forall k :: 0 <= k < 8 || 9 <= k < 13 || 14 <= k < 18 || 19 <= k < 23 || 24 <= k < 36 ==> s[k] in "0123456789abcdef"
  }

  /** The three workspaces, in order, each with a complete and enforced account of at most a hundred holds. */
  ghost predicate Accounted(inventories: seq<Inventory>) {
    && |inventories| == 3 && inventories[0].workspace == 1 && inventories[1].workspace == 2 && inventories[2].workspace == 3
    && forall i <- inventories ::
         && i.protocolOk && i.enforced && i.complete && |i.holds| <= 100
         && forall h <- i.holds :: (h.jobId == None || HexGroups(h.jobId.value)) && (h.eventId == None || HexGroups(h.eventId.value))
  }

  /** A lease of the recorded context, in three workspaces that enforce leases. */
  ghost predicate Leased(p: Proof, record: Record) {
    && (forall i <- p.inventories :: i.leasesEnforced)
    && p.lease.Some? && p.lease.value.protocolOk && !p.lease.value.sharedContactTypeCreation
    && HexGroups(p.lease.value.claimId) && HexGroups(p.lease.value.contextId) && HexGroups(p.lease.value.eventId)
    && record.contextId.Some? && record.contextId.value == p.lease.value.contextId
  }

  /** An assertion for this very request: a POST for this job and operation, of this workspace, with two minutes of life. */
  ghost predicate Genuine(p: Proof, r: Request, record: Record, workspace: int, requireLease: bool) {
    && r.post && HexGroups(record.id) && r.pathJob == record.id
    && p.protocolOk && p.workspace == workspace && p.jobId == record.id && p.operation == r.operation && HexGroups(p.nonce)
    && p.expiresAt == p.issuedAt + 120_000 && Accounted(p.inventories) && (requireLease ==> Leased(p, record))
  }

  lemma UuidIs(s: Id)
    ensures Uuid(s) <==> HexGroups(s)
  {
    if |s| == 36 {
      forall k | 0 <= k < 36
        ensures ('0' <= s[k] <= '9' || 'a' <= s[k] <= 'f') <==> s[k] in "0123456789abcdef"
      {
        HexDigit(s[k]);
      }
    }
  }

  lemma HexDigit(c: char)
    ensures ('0' <= c <= '9' || 'a' <= c <= 'f') <==> c in "0123456789abcdef"
  {
    var digits := "0123456789abcdef";
    if '0' <= c <= '9' {
      assert digits[(c - '0') as int] == c;
    } else if 'a' <= c <= 'f' {
      assert digits[10 + (c - 'a') as int] == c;
    }
  }

  lemma InventoryIs(i: Inventory, workspace: int)
    ensures GoodInventory(i, workspace) <==>
      && i.workspace == workspace && i.protocolOk && i.enforced && i.complete && |i.holds| <= 100
      && forall h <- i.holds :: (h.jobId == None || HexGroups(h.jobId.value)) && (h.eventId == None || HexGroups(h.eventId.value))
  {
    hide Uuid; hide HexGroups;
    forall k | 0 <= k < |i.holds|
      ensures var h := i.holds[k]; GoodHold(h) <==> (h.jobId == None || HexGroups(h.jobId.value)) && (h.eventId == None || HexGroups(h.eventId.value))
    {
      if i.holds[k].jobId.Some? {
        UuidIs(i.holds[k].jobId.value);
      }
      if i.holds[k].eventId.Some? {
        UuidIs(i.holds[k].eventId.value);
      }
    }
  }

  lemma AccountedIs(inventories: seq<Inventory>)
    ensures |inventories| == 3 && (forall k | 0 <= k < 3 :: GoodInventory(inventories[k], k + 1)) <==> Accounted(inventories)
  {
    hide GoodInventory; hide HexGroups;
    if |inventories| == 3 {
      InventoryIs(inventories[0], 1);
      InventoryIs(inventories[1], 2);
      InventoryIs(inventories[2], 3);
    }
  }

  /** Exactly the assertions that are taken into account at all. */
  lemma WellFormedIsGenuine(p: Proof, r: Request, record: Record, workspace: int, requireLease: bool)
    ensures WellFormed(p, r, record, workspace, requireLease) <==> Genuine(p, r, record, workspace, requireLease)
  {
    hide Uuid; hide HexGroups; hide GoodInventory; hide Accounted;
    UuidIs(record.id);
    UuidIs(p.nonce);
    AccountedIs(p.inventories);
    if p.lease.Some? {
      UuidIs(p.lease.value.claimId);
      UuidIs(p.lease.value.contextId);
      UuidIs(p.lease.value.eventId);
    }
    if |p.inventories| == 3 {
      assert (forall k | 0 <= k < 3 :: p.inventories[k].leasesEnforced) <==> forall i <- p.inventories :: i.leasesEnforced;
    }
  }

  /** No hold in any inventory names this event or leaves the event open. */
  ghost predicate Unheld(p: Proof, eventId: Id) {
    forall i <- p.inventories :: forall h <- i.holds :: h.eventId.Some? && h.eventId.value != eventId
  }

  lemma UnheldIs(p: Proof, eventId: Id)
    ensures Unheld(p, eventId) <==> !Held(p, eventId)
  {
    if !Held(p, eventId) {
      forall i <- p.inventories, h <- i.holds
        ensures h.eventId.Some? && h.eventId.value != eventId
      {
        var n :| 0 <= n < |p.inventories| && p.inventories[n] == i;
        var k :| 0 <= k < |i.holds| && i.holds[k] == h;
        assert !Blocks(p.inventories[n].holds[k], eventId);
      }
    }
  }

  // ---- Histories -------------------------------------------------------------------------------------

  /** A nonce entered the cache at `at` on behalf of a request. */
  datatype Acceptance = Acceptance(request: nat, nonce: Id, expiresAt: int, at: int)

  /** A continuation was allowed. */
  datatype Pass = Pass(request: nat, nonce: Id, expiresAt: int, event: Id, at: int)

  ghost predicate SingleUse(accepted: seq<Acceptance>) {
    forall i, j | 0 <= i < j < |accepted| && accepted[i].nonce == accepted[j].nonce :: accepted[i].expiresAt <= accepted[j].at
  }

  ghost predicate OnePerRequest(accepted: seq<Acceptance>) {
    forall i, j | 0 <= i < j < |accepted| :: accepted[i].request != accepted[j].request
  }

  /** Each pass rests on an earlier acceptance for its own request and was still in time. */
  ghost predicate Rests(p: Pass, accepted: seq<Acceptance>) {
    p.at < p.expiresAt
    && exists i :: 0 <= i < |accepted| && accepted[i].request == p.request && accepted[i].nonce == p.nonce
                   && accepted[i].expiresAt == p.expiresAt && accepted[i].at <= p.at
  }

  /**
   * No identical assertion lets two different requests through. The cache alone does not give this: an entry
   * can expire and be pruned while its own replay is being parsed; the recheck at the pass is needed too.
   */
  lemma NoReplay(accepted: seq<Acceptance>, p: Pass, q: Pass)
    requires SingleUse(accepted) && Rests(p, accepted) && Rests(q, accepted)
    requires p.nonce == q.nonce && p.expiresAt == q.expiresAt
    ensures p.request == q.request
  {
    var i :| 0 <= i < |accepted| && accepted[i].request == p.request && accepted[i].nonce == p.nonce
             && accepted[i].expiresAt == p.expiresAt && accepted[i].at <= p.at;
    var j :| 0 <= j < |accepted| && accepted[j].request == q.request && accepted[j].nonce == q.nonce
             && accepted[j].expiresAt == q.expiresAt && accepted[j].at <= q.at;
  }

  /** The cache against the history: what it holds is in force, and what is in force it holds. */
  ghost predicate CacheOk(consumed: map<Id, int>, accepted: seq<Acceptance>, time: int) {
    && |consumed| <= CACHE_LIMIT
    && SingleUse(accepted)
    && (forall i | 0 <= i < |accepted| ::
          && accepted[i].at <= time
          && ((accepted[i].nonce in consumed && consumed[accepted[i].nonce] == accepted[i].expiresAt) || accepted[i].expiresAt <= time))
    && (forall n | n in consumed :: Backed(n, consumed[n], accepted))
  }

  /** Some acceptance, at most a lifetime plus the allowed skew before the expiry, put the entry there. */
  ghost predicate Backed(n: Id, expiresAt: int, accepted: seq<Acceptance>) {
    exists i :: 0 <= i < |accepted| && accepted[i].nonce == n && accepted[i].expiresAt == expiresAt <= accepted[i].at + LIFETIME_MS + SKEW_MS
  }

  ghost predicate ProofOf(c: Context, a: Acceptance) {
    c.proof.Some? && c.proof.value.nonce == a.nonce && c.proof.value.expiresAt == a.expiresAt
  }

  ghost predicate AcceptedFor(id: nat, accepted: seq<Acceptance>) {
    exists i :: 0 <= i < |accepted| && accepted[i].request == id
  }

  /** Requests keep their own proof and, once bound, their event. */
  ghost predicate BoundOk(requests: map<nat, Context>, accepted: seq<Acceptance>, passes: seq<Pass>) {
    && OnePerRequest(accepted)
    && (forall i | 0 <= i < |accepted| :: accepted[i].request in requests && ProofOf(requests[accepted[i].request], accepted[i]))
    && (forall r | r in requests && requests[r].proof.Some? :: AcceptedFor(r, accepted))
    && (forall k | 0 <= k < |passes| ::
          Rests(passes[k], accepted) && passes[k].request in requests && requests[passes[k].request].eventId == Some(passes[k].event))
  }

  lemma CacheLater(consumed: map<Id, int>, accepted: seq<Acceptance>, time: int, later: int)
    requires CacheOk(consumed, accepted, time) && time <= later
    ensures CacheOk(consumed, accepted, later)
  {
    hide SingleUse; hide Backed;
  }

  lemma CacheRemove(consumed: map<Id, int>, accepted: seq<Acceptance>, time: int, n: Id)
    requires CacheOk(consumed, accepted, time) && n in consumed && consumed[n] <= time
    ensures CacheOk(consumed - {n}, accepted, time)
  {
    hide SingleUse; hide Backed;
    var kept := consumed - {n};
    assert kept.Keys == consumed.Keys - {n};
    assert |kept.Keys| < |consumed.Keys|;
  }

  lemma CacheAccept(consumed: map<Id, int>, accepted: seq<Acceptance>, a: Acceptance)
    requires CacheOk(consumed, accepted, a.at) && a.nonce !in consumed && |consumed| < CACHE_LIMIT
    requires a.expiresAt <= a.at + LIFETIME_MS + SKEW_MS
    ensures CacheOk(consumed[a.nonce := a.expiresAt], accepted + [a], a.at)
  {
    var c, all := consumed[a.nonce := a.expiresAt], accepted + [a];
    assert c.Keys == consumed.Keys + {a.nonce};
    hide Backed;
    UsedOnce(consumed, accepted, a);
    forall n | n in c
      ensures Backed(n, c[n], all)
    {
      if n != a.nonce {
        assert Backed(n, consumed[n], accepted);
        BackedStill(n, consumed[n], accepted, a);
      } else {
        BackedNow(accepted, a);
      }
    }
  }

  /** A nonce that is not in the cache was last used in an assertion that has expired. */
  lemma UsedOnce(consumed: map<Id, int>, accepted: seq<Acceptance>, a: Acceptance)
    requires CacheOk(consumed, accepted, a.at) && a.nonce !in consumed
    ensures SingleUse(accepted + [a])
  {
    hide Backed;
  }

  lemma BackedStill(n: Id, expiresAt: int, accepted: seq<Acceptance>, a: Acceptance)
    requires Backed(n, expiresAt, accepted)
    ensures Backed(n, expiresAt, accepted + [a])
  {
    var i :| 0 <= i < |accepted| && accepted[i].nonce == n && accepted[i].expiresAt == expiresAt <= accepted[i].at + LIFETIME_MS + SKEW_MS;
    assert (accepted + [a])[i] == accepted[i];
  }

  lemma BackedNow(accepted: seq<Acceptance>, a: Acceptance)
    requires a.expiresAt <= a.at + LIFETIME_MS + SKEW_MS
    ensures Backed(a.nonce, a.expiresAt, accepted + [a])
  {
    assert (accepted + [a])[|accepted|] == a;
  }

  // ---- One acceptance as a function of the clock readings taken in it ----------------------------------------------

  /** The readings of the two freshness tests and of the pruning of each entry. */
  datatype Readings = Readings(early: int, late: int, prune: map<Id, int>)

  function Survivors(consumed: map<Id, int>, prune: map<Id, int>): map<Id, int>
    requires consumed.Keys <= prune.Keys
  {
    map n | n in consumed && prune[n] < consumed[n] :: consumed[n]
  }

  /** The time and cache part of parsing an assertion: the new cache, or a refusal. */
  function Consume(consumed: map<Id, int>, p: Proof, r: Readings): Option<map<Id, int>>
    requires consumed.Keys <= r.prune.Keys
  {
    if r.early < p.issuedAt - SKEW_MS || r.late >= p.expiresAt then None
    else
      var kept := Survivors(consumed, r.prune);
      if p.nonce in kept || |kept| >= CACHE_LIMIT then None else Some(kept[p.nonce := p.expiresAt])
  }

  /** The clock does not go back within the call. */
  ghost predicate Monotone(r: Readings) {
    r.early <= r.late && forall n | n in r.prune :: r.late <= r.prune[n]
  }

  /**
   * Replaying an assertion that was accepted before: whatever was accepted in between, the cache lets it in again
   * exactly when its entry is still there and the lifetime ends between the freshness test and the pruning of that
   * very entry, with room left.
   */
  lemma ReplayIsAcceptedIffExpiringInFlight(consumed: map<Id, int>, accepted: seq<Acceptance>, time: int, i: nat, p: Proof, r: Readings)
    requires CacheOk(consumed, accepted, time) && consumed.Keys <= r.prune.Keys && time <= r.early && Monotone(r)
    requires i < |accepted| && accepted[i].nonce == p.nonce && accepted[i].expiresAt == p.expiresAt
    ensures Consume(consumed, p, r).Some?
            <==> && p.nonce in consumed && p.issuedAt - SKEW_MS <= r.early
                 && r.late < p.expiresAt <= r.prune[p.nonce] && |Survivors(consumed, r.prune)| < CACHE_LIMIT
  {
    hide SingleUse; hide Backed;
    assert (p.nonce in consumed && consumed[p.nonce] == p.expiresAt) || p.expiresAt <= time;
    if p.nonce !in consumed {
      assert Consume(consumed, p, r).None?;
    } else if p.expiresAt > time {
      assert p.nonce in Survivors(consumed, r.prune) <==> r.prune[p.nonce] < p.expiresAt;
    }
  }

  /** For any assertion, two calls that both accept it: the second reads the clock around the end of its lifetime. */
  lemma CacheAloneAllowsReacceptance(p: Proof) returns (first: Readings, second: Readings)
    requires p.expiresAt - p.issuedAt == LIFETIME_MS
    ensures Monotone(first) && Monotone(second) && first.late <= second.early && first.prune == map[]
    ensures Consume(map[], p, first) == Some(map[p.nonce := p.expiresAt])
    ensures second.prune.Keys == {p.nonce} && Consume(map[p.nonce := p.expiresAt], p, second).Some?
  {
    first := Readings(p.issuedAt, p.issuedAt, map[]);
    second := Readings(p.expiresAt - 1, p.expiresAt - 1, map[p.nonce := p.expiresAt]);
    assert Survivors(map[], map[]) == map[];
    assert Survivors(map[p.nonce := p.expiresAt], second.prune) == map[];
  }

  lemma CachedRecently(consumed: map<Id, int>, accepted: seq<Acceptance>, time: int, n: Id, start: int)
    requires CacheOk(consumed, accepted, time) && n in consumed && start < consumed[n]
    ensures exists i :: 0 <= i < |accepted| && accepted[i].nonce == n && start - accepted[i].at < LIFETIME_MS + SKEW_MS
  {
    hide SingleUse;
    assert Backed(n, consumed[n], accepted);
  }

  lemma BoundAccept(requests: map<nat, Context>, accepted: seq<Acceptance>, passes: seq<Pass>, a: Acceptance, p: Proof)
    requires BoundOk(requests, accepted, passes) && a.request !in requests && ProofOf(Context(Some(p), None), a)
    ensures BoundOk(requests[a.request := Context(Some(p), None)], accepted + [a], passes)
  {
    hide Rests; hide AcceptedFor;
    var all, next := accepted + [a], requests[a.request := Context(Some(p), None)];
    forall k | 0 <= k < |passes|
      ensures Rests(passes[k], all)
    {
      RestsLater(passes[k], accepted, a);
    }
    forall r | r in next && next[r].proof.Some?
      ensures AcceptedFor(r, all)
    {
      AcceptedLater(r, accepted, a);
    }
  }

  lemma RestsLater(p: Pass, accepted: seq<Acceptance>, a: Acceptance)
    requires Rests(p, accepted)
    ensures Rests(p, accepted + [a])
  {
    var i :| 0 <= i < |accepted| && accepted[i].request == p.request && accepted[i].nonce == p.nonce
             && accepted[i].expiresAt == p.expiresAt && accepted[i].at <= p.at;
    assert (accepted + [a])[i] == accepted[i];
  }

  lemma AcceptedLater(id: nat, accepted: seq<Acceptance>, a: Acceptance)
    requires AcceptedFor(id, accepted) || a.request == id
    ensures AcceptedFor(id, accepted + [a])
  {
    assert (accepted + [a])[|accepted|] == a;
    if AcceptedFor(id, accepted) {
      var i :| 0 <= i < |accepted| && accepted[i].request == id;
      assert (accepted + [a])[i] == accepted[i];
    }
  }

  lemma BoundStandalone(requests: map<nat, Context>, accepted: seq<Acceptance>, passes: seq<Pass>, id: nat)
    requires BoundOk(requests, accepted, passes) && id !in requests
    ensures BoundOk(requests[id := Context(None, None)], accepted, passes)
  {
    hide Rests; hide AcceptedFor; hide OnePerRequest;
  }

  lemma BoundEvent(requests: map<nat, Context>, accepted: seq<Acceptance>, passes: seq<Pass>, id: nat, event: Id)
    requires BoundOk(requests, accepted, passes) && id in requests
    requires requests[id].eventId.Some? ==> requests[id].eventId.value == event
    ensures BoundOk(requests[id := requests[id].(eventId := Some(event))], accepted, passes)
  {
    hide Rests; hide AcceptedFor; hide OnePerRequest;
  }

  lemma BoundGrant(consumed: map<Id, int>, requests: map<nat, Context>, accepted: seq<Acceptance>, passes: seq<Pass>, p: Pass)
    requires CacheOk(consumed, accepted, p.at) && BoundOk(requests, accepted, passes) && p.at < p.expiresAt
    requires p.request in requests && requests[p.request].eventId == Some(p.event)
    requires ProofOf(requests[p.request], Acceptance(p.request, p.nonce, p.expiresAt, p.at))
    ensures BoundOk(requests, accepted, passes + [p])
  {
    hide OnePerRequest; hide SingleUse; hide Backed;
    assert AcceptedFor(p.request, accepted);
    var i :| 0 <= i < |accepted| && accepted[i].request == p.request;
    assert ProofOf(requests[p.request], accepted[i]) && accepted[i].at <= p.at;
    assert Rests(p, accepted);
  }

  /** The event a request has been bound to, if any. */
  ghost function Bound(requests: map<nat, Context>, id: nat): Option<Id> {
    if id in requests then requests[id].eventId else None
  }

  class Clock {
    var time: int

    constructor ()
    {
      time := 0;
    }

    method Now() returns (t: int)
      modifies this
      ensures old(time) <= time && t == time
    {
      var passed: int := *;
      time := time + (if passed > 0 then passed else 0);
      t := time;
    }
  }

  /** What every pass needs: the same job, a fresh assertion, one well-formed event, its lease, and no hold on it. */
  ghost predicate Cleared(p: Proof, bound: Option<Id>, record: Record, target: Target, requireLease: bool, early: int, late: int) {
    && Due(p, bound, record, target, requireLease, early, late) && Unheld(p, target.apiEventId)
  }

  /** All but the holds: the request is then bound to the event. */
  ghost predicate Due(p: Proof, bound: Option<Id>, record: Record, target: Target, requireLease: bool, early: int, late: int) {
    && p.jobId == record.id && p.issuedAt - 5_000 <= early && late < p.expiresAt
    && HexGroups(target.apiEventId) && target.evtstub == target.apiEventId && bound in {None, Some(target.apiEventId)}
    && (requireLease ==> p.lease.Some? && p.lease.value.eventId == target.apiEventId)
  }

  class SharedEventSafety {
    const workspace: Option<int>
    const requireLease: bool
    const clock: Clock
    var requests: map<nat, Context>
    var consumed: map<Id, int>
    ghost var accepted: seq<Acceptance>
    ghost var passes: seq<Pass>

    ghost predicate Valid()
      reads this, clock
    {
      CacheOk(consumed, accepted, clock.time) && BoundOk(requests, accepted, passes)
    }

    constructor (workspace: Option<int>, requireLease: bool, clock: Clock)
      requires (workspace.Some? ==> 1 <= workspace.value <= 3) && (requireLease ==> workspace.Some?)
      ensures Valid() && requests == map[] && consumed == map[] && accepted == [] && passes == []
      ensures this.workspace == workspace && this.requireLease == requireLease && this.clock == clock
    {
      this.workspace, this.requireLease, this.clock := workspace, requireLease, clock;
      requests, consumed, accepted, passes := map[], map[], [], [];
    }

    /** Each entry is compared with its own reading of the clock. */
    method Prune() returns (ghost prune: map<Id, int>)
      requires Valid()
      modifies this`consumed, clock
      ensures Valid() && old(clock.time) <= clock.time
      ensures prune.Keys == old(consumed).Keys && consumed == Survivors(old(consumed), prune)
      ensures forall n | n in prune :: old(clock.time) <= prune[n] <= clock.time
      ensures forall n | n in consumed :: n in old(consumed) && consumed[n] == old(consumed)[n] && old(clock.time) < consumed[n]
      ensures forall n | n in old(consumed) && n !in consumed :: old(consumed)[n] <= clock.time
    {
      hide CacheOk; hide BoundOk;
      var left := consumed.Keys;
      ghost var before := consumed;
      prune := map[];
      while left != {}
        invariant Valid() && old(clock.time) <= clock.time
        invariant left <= before.Keys && prune.Keys == before.Keys - left
        invariant consumed == map n | n in before && (n in left || prune[n] < before[n]) :: before[n]
        invariant forall n | n in prune :: old(clock.time) <= prune[n] <= clock.time
        decreases left
      {
        var n :| n in left;
        left := left - {n};
        ghost var time := clock.time;
        var t := clock.Now();
        prune := prune[n := t];
        CacheLater(consumed, accepted, time, t);
        if t >= consumed[n] {
          CacheRemove(consumed, accepted, t, n);
          consumed := consumed - {n};
        }
      }
    }

    /** Parsing an assertion: None is a refusal, `Some(None)` the standalone mode without assertions. */
    method Parse(req: Request, record: Record) returns (parsed: Option<Option<Proof>>, ghost r: Readings)
      requires Valid() && req.id !in requests
      modifies this`consumed, this`accepted, this`requests, clock
      ensures Valid() && old(clock.time) <= clock.time
      ensures parsed.None? ==> requests == old(requests) && accepted == old(accepted)
      ensures parsed.Some? ==> requests == old(requests)[req.id := Context(parsed.value, None)]
      ensures parsed == Some(None) <==> workspace.None? && req.header.Absent?
      ensures parsed == Some(None) ==> accepted == old(accepted) && consumed == old(consumed)
      ensures parsed.Some? && parsed.value.Some? ==>
                var p := parsed.value.value;
                && workspace.Some? && req.header == Carries(p) && Genuine(p, req, record, workspace.value, requireLease)
                && accepted == old(accepted) + [Acceptance(req.id, p.nonce, p.expiresAt, clock.time)]
      // A genuine assertion is judged by the readings of the clock and the cache alone.
      ensures workspace.Some? && req.header.Carries? && Genuine(req.header.proof, req, record, workspace.value, requireLease) ==>
                && r.prune.Keys == old(consumed).Keys && old(clock.time) <= r.early && Monotone(r)
                && var next := Consume(old(consumed), req.header.proof, r);
                (parsed.Some? <==> next.Some?) && (next.Some? ==> consumed == next.value)
    {
      hide WellFormed; hide CacheOk; hide BoundOk; hide Genuine;
      r := Readings(0, 0, map[]);
      if workspace.Some? && req.header.Carries? {
        WellFormedIsGenuine(req.header.proof, req, record, workspace.value, requireLease);
      }
      if workspace.None? {
        if !req.header.Absent? {
          return None, r;
        }
        BoundStandalone(requests, accepted, passes, req.id);
        requests := requests[req.id := Context(None, None)];
        return Some(None), r;
      }
      if !req.header.Carries? || !WellFormed(req.header.proof, req, record, workspace.value, requireLease) {
        return None, r;
      }
      var p := req.header.proof;
      Lifetime(p, req, record, workspace.value, requireLease);
      var t := clock.Now();
      CacheLater(consumed, accepted, old(clock.time), t);
      r := Readings(t, t, map n | n in consumed :: t);
      if t < p.issuedAt - SKEW_MS {
        return None, r;
      }
      var u := clock.Now();
      CacheLater(consumed, accepted, t, u);
      r := Readings(t, u, map n | n in consumed :: u);
      if u >= p.expiresAt {
        return None, r;
      }
      ghost var prune := Prune();
      r := Readings(t, u, prune);
      if p.nonce in consumed || |consumed| >= CACHE_LIMIT {
        return None, r;
      }
      ghost var a := Acceptance(req.id, p.nonce, p.expiresAt, clock.time);
      CacheAccept(consumed, accepted, a);
      BoundAccept(requests, accepted, passes, a, p);
      consumed := consumed[p.nonce := p.expiresAt];
      accepted := accepted + [a];
      requests := requests[req.id := Context(Some(p), None)];
      return Some(Some(p)), r;
    }

    /**
     * One verification. A request passes exactly if its assertion is, or was, accepted and still clears the target at
     * two readings of the clock; it is then bound to that one event.
     */
    method Verify(req: Request, record: Record, target: Target) returns (ok: bool, ghost early: int, ghost late: int)
      requires Valid()
      modifies this, clock
      ensures Valid() && old(clock.time) <= early <= late == clock.time
      ensures old(accepted) <= accepted && (!ok ==> passes == old(passes))
      ensures req.id in old(requests) ==> accepted == old(accepted) && req.id in requests && requests[req.id].proof == old(requests)[req.id].proof
      ensures req.id !in old(requests) && req.id in requests && requests[req.id].proof.Some? ==>
                && workspace.Some? && req.header == Carries(requests[req.id].proof.value)
                && Genuine(requests[req.id].proof.value, req, record, workspace.value, requireLease)
                && |accepted| == |old(accepted)| + 1 && accepted[|accepted| - 1].request == req.id
      ensures req.id !in old(requests) && req.id in requests && requests[req.id].proof.None? ==> workspace.None? && req.header.Absent?
      ensures ok <==>
                && req.id in requests
                && (requests[req.id].proof.Some? ==>
                      Cleared(requests[req.id].proof.value, Bound(old(requests), req.id), record, target, requireLease, early, late))
      ensures ok && requests[req.id].proof.Some? ==>
                var p := requests[req.id].proof.value;
                && passes == old(passes) + [Pass(req.id, p.nonce, p.expiresAt, target.apiEventId, clock.time)]
                && requests[req.id].eventId == Some(target.apiEventId)
      ensures ok && requests[req.id].proof.None? ==> passes == old(passes)
    {
      hide WellFormed; hide CacheOk; hide BoundOk; hide Due; hide Genuine; hide Unheld;
      early, late := clock.time, clock.time;
      if req.id !in requests {
        var parsed;
        ghost var r;
        parsed, r := Parse(req, record);
        early, late := clock.time, clock.time;
        if parsed.None? {
          return false, early, late;
        }
      }
      ok, early, late := Recheck(req.id, record, target);
    }

    method Recheck(id: nat, record: Record, target: Target) returns (ok: bool, ghost early: int, ghost late: int)
      requires Valid() && id in requests
      modifies this`requests, this`passes, clock
      ensures Valid() && old(clock.time) <= early <= late == clock.time
      ensures requests.Keys == old(requests).Keys && requests[id].proof == old(requests)[id].proof
      ensures forall other | other in requests && other != id :: requests[other] == old(requests)[other]
      ensures !ok || requests[id].proof.None? ==> passes == old(passes)
      ensures requests[id].proof.None? ==> ok && requests == old(requests)
      ensures requests[id].proof.Some? ==>
                var p, bound := requests[id].proof.value, old(requests)[id].eventId;
                && (ok <==> Cleared(p, bound, record, target, requireLease, early, late))
                && requests[id].eventId == (if Due(p, bound, record, target, requireLease, early, late) then Some(target.apiEventId) else bound)
                && (ok ==> passes == old(passes) + [Pass(id, p.nonce, p.expiresAt, target.apiEventId, clock.time)])
    {
      hide Uuid; hide Held; hide CacheOk; hide BoundOk; hide HexGroups; hide Unheld;
      UuidIs(target.apiEventId);
      early, late := clock.time, clock.time;
      if requests[id].proof.None? {
        return true, early, late;
      }
      var p := requests[id].proof.value;
      UnheldIs(p, target.apiEventId);
      var t := clock.Now();
      early, late := t, t;
      CacheLater(consumed, accepted, old(clock.time), t);
      if p.jobId != record.id || t < p.issuedAt - SKEW_MS {
        return false, early, late;
      }
      var u := clock.Now();
      late := u;
      CacheLater(consumed, accepted, t, u);
      if u >= p.expiresAt || !Uuid(target.apiEventId) || target.evtstub != target.apiEventId
         || (requests[id].eventId.Some? && requests[id].eventId.value != target.apiEventId)
         || (requireLease && (p.lease.None? || p.lease.value.eventId != target.apiEventId)) {
        return false, early, late;
      }
      BoundEvent(requests, accepted, passes, id, target.apiEventId);
      requests := requests[id := requests[id].(eventId := Some(target.apiEventId))]; // One immutable event per request.
      if Held(p, target.apiEventId) {
        return false, early, late;
      }
      ghost var pass := Pass(id, p.nonce, p.expiresAt, target.apiEventId, u);
      BoundGrant(consumed, requests, accepted, passes, pass);
      passes := passes + [pass];
      return true, early, late;
    }

    /** Over every run: one event per request, and no assertion serves two requests. */
    lemma PassesAreBoundAndUnique(a: nat, b: nat)
      requires Valid() && a < |passes| && b < |passes|
      ensures passes[a].request == passes[b].request ==> passes[a].event == passes[b].event
      ensures passes[a].nonce == passes[b].nonce && passes[a].expiresAt == passes[b].expiresAt ==> passes[a].request == passes[b].request
    {
      hide SingleUse; hide Rests; hide OnePerRequest; hide Backed; hide ProofOf; hide AcceptedFor;
      if passes[a].nonce == passes[b].nonce && passes[a].expiresAt == passes[b].expiresAt {
        NoReplay(accepted, passes[a], passes[b]);
      }
    }
  }

  lemma Lifetime(p: Proof, req: Request, record: Record, workspace: int, requireLease: bool)
    requires WellFormed(p, req, record, workspace, requireLease)
    ensures p.expiresAt - p.issuedAt == LIFETIME_MS
  {
  }
}
