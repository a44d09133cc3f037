/**
 * The progress snapshot cache. Loads for many keys overlap freely: each is a request issued now and
 * answered, or failed, at some later time, possibly after a clear or an eviction.
 */
module ProgressCache {
  import opened KeyedList
  import opened Wrappers

  const CAPACITY := 10

  type Snapshot<+S> = Entry<string, S>

  datatype Ticket = Ticket(request: nat, key: string, epoch: nat)

  function Lookup<S>(s: seq<Snapshot<S>>, key: string): Option<S> {
    var i := IndexOf(s, key);
    if i < |s| then Some(s[i].body) else None
  }

  /** A JavaScript map keeps a key where it was first inserted. */
  function Set<S>(s: seq<Snapshot<S>>, key: string, state: S): seq<Snapshot<S>> {
    var i := IndexOf(s, key);
    if i < |s| then s[i := Entry(key, state)] else s + [Entry(key, state)]
  }

  ghost predicate Unique<S>(s: seq<Snapshot<S>>) {
    forall i, j | 0 <= i < j < |s| :: s[i].key != s[j].key
  }

  lemma SetFacts<S>(s: seq<Snapshot<S>>, key: string, state: S)
    requires Unique(s)
    ensures var t := Set(s, key, state);
            && Unique(t) && |s| <= |t| <= |s| + 1 && Lookup(t, key) == Some(state)
            && (forall x | x in t :: x == Entry(key, state) || (x in s && x.key != key))
            && (|t| > |s| ==> t[|t| - 1].key == key)
  {
    var t, i := Set(s, key, state), IndexOf(s, key);
    assert forall j | 0 <= j < |t| :: j != i ==> t[j] == s[j] && s[j].key != key;
    assert t[i] == Entry(key, state);
    PositionOf(t, i);
  }

  lemma EvictFacts<S>(t: seq<Snapshot<S>>, key: string)
    requires Unique(t) && |t| > 1 && t[|t| - 1].key == key
    ensures Unique(t[1..]) && Lookup(t[1..], key) == Lookup(t, key)
    ensures forall x | x in t[1..] :: x in t && x.key != t[0].key
  {
  }

  lemma PositionOf<S>(s: seq<Snapshot<S>>, i: nat)
    requires Unique(s) && i < |s|
    ensures IndexOf(s, s[i].key) == i
  {
  }

  /** The snapshot of a key is the answer to a request for that key, issued since the last clear. */
  ghost predicate Justified<S>(snapshot: Snapshot<S>, origin: map<string, nat>, latest: map<string, nat>, issued: map<nat, Ticket>,
                               answers: map<nat, S>, generation: nat)
  {
    && snapshot.key in origin && snapshot.key in latest
    && var r := origin[snapshot.key];
    && r in issued && issued[r] == Ticket(r, snapshot.key, generation)
    && r in answers && answers[r] == snapshot.body
    && r <= latest[snapshot.key]
  }

  ghost predicate AllJustified<S(!new)>(snapshots: seq<Snapshot<S>>, origin: map<string, nat>, latest: map<string, nat>, issued: map<nat, Ticket>,
                                        answers: map<nat, S>, generation: nat)
  {
    forall x | x in snapshots :: Justified(x, origin, latest, issued, answers, generation)
  }

  ghost predicate Tickets<S>(issued: map<nat, Ticket>, finished: set<nat>, answers: map<nat, S>, latest: map<string, nat>,
                             retained: map<string, nat>, sequence: nat, generation: nat)
  {
    && (forall r | r in issued :: issued[r].request == r && 1 <= r <= sequence && issued[r].epoch <= generation)
    && finished <= issued.Keys && answers.Keys <= finished
    && (forall k | k in latest :: latest[k] in issued && issued[latest[k]] == Ticket(latest[k], k, generation))
    && (forall k | k in retained :: retained[k] in finished && (k in latest ==> retained[k] <= latest[k]))
  }

  /** A fresh number for a key: everything retained stays justified. */
  lemma Issue<S(!new)>(snapshots: seq<Snapshot<S>>, origin: map<string, nat>, latest: map<string, nat>, issued: map<nat, Ticket>, finished: set<nat>,
                       answers: map<nat, S>, retained: map<string, nat>, sequence: nat, generation: nat, key: string)
    requires Tickets(issued, finished, answers, latest, retained, sequence, generation)
    requires AllJustified(snapshots, origin, latest, issued, answers, generation)
    ensures var n := sequence + 1;
            var issued', latest' := issued[n := Ticket(n, key, generation)], latest[key := n];
            && n !in issued && n !in finished
            && Tickets(issued', finished, answers, latest', retained, n, generation)
            && AllJustified(snapshots, origin, latest', issued', answers, generation)
  {
    var n := sequence + 1;
    forall x | x in snapshots
      ensures Justified(x, origin, latest[key := n], issued[n := Ticket(n, key, generation)], answers, generation)
    {
      assert Justified(x, origin, latest, issued, answers, generation);
    }
  }

  /** An answer to an unfinished request touches no snapshot. */
  lemma Answered<S(!new)>(snapshots: seq<Snapshot<S>>, origin: map<string, nat>, latest: map<string, nat>, issued: map<nat, Ticket>, finished: set<nat>,
                          answers: map<nat, S>, retained: map<string, nat>, sequence: nat, generation: nat, request: nat, state: S)
    requires Tickets(issued, finished, answers, latest, retained, sequence, generation)
    requires AllJustified(snapshots, origin, latest, issued, answers, generation)
    requires request in issued && request !in finished
    ensures Tickets(issued, finished + {request}, answers[request := state], latest, retained, sequence, generation)
    ensures AllJustified(snapshots, origin, latest, issued, answers[request := state], generation)
  {
    forall x | x in snapshots
      ensures Justified(x, origin, latest, issued, answers[request := state], generation)
    {
      assert Justified(x, origin, latest, issued, answers, generation);
    }
  }

  /** Keeping the answer to the latest request of a key. */
  lemma Kept<S(!new)>(snapshots: seq<Snapshot<S>>, all: seq<Snapshot<S>>, origin: map<string, nat>, latest: map<string, nat>, issued: map<nat, Ticket>,
                      answers: map<nat, S>, generation: nat, ticket: Ticket)
    requires AllJustified(snapshots, origin, latest, issued, answers, generation)
    requires ticket.request in issued && issued[ticket.request] == ticket && ticket.request in answers && ticket.epoch == generation
    requires ticket.key in latest && latest[ticket.key] == ticket.request
    requires forall x | x in all :: x == Entry(ticket.key, answers[ticket.request]) || (x in snapshots && x.key != ticket.key)
    ensures AllJustified(all, origin[ticket.key := ticket.request], latest, issued, answers, generation)
  {
    forall x | x in all
      ensures Justified(x, origin[ticket.key := ticket.request], latest, issued, answers, generation)
    {
      if x != Entry(ticket.key, answers[ticket.request]) {
        assert Justified(x, origin, latest, issued, answers, generation);
      }
    }
  }

  /** Dropping an entry together with its key's claim. */
  lemma Dropped<S(!new)>(all: seq<Snapshot<S>>, rest: seq<Snapshot<S>>, origin: map<string, nat>, latest: map<string, nat>, issued: map<nat, Ticket>,
                         answers: map<nat, S>, generation: nat, key: string)
    requires AllJustified(all, origin, latest, issued, answers, generation)
    requires forall x | x in rest :: x in all && x.key != key
    ensures AllJustified(rest, origin, latest - {key}, issued, answers, generation)
  {
    forall x | x in rest
      ensures Justified(x, origin, latest - {key}, issued, answers, generation)
    {
      assert Justified(x, origin, latest, issued, answers, generation);
    }
  }

  class ProgressEvidence<S(!new)> {
    var snapshots: seq<Snapshot<S>>
    var latest: map<string, nat>
    var sequence: nat
    var generation: nat
    // Every ticket issued, which were answered and how, the request behind each retained snapshot, and the
    // last request ever retained for a key.
    ghost var issued: map<nat, Ticket>
    ghost var finished: set<nat>
    ghost var answers: map<nat, S>
    ghost var origin: map<string, nat>
    ghost var retained: map<string, nat>

    ghost predicate Valid()
      reads this
    {
      |snapshots| <= CAPACITY && Sound()
    }

    ghost predicate Sound()
      reads this
    {
      && Unique(snapshots)
      && AllJustified(snapshots, origin, latest, issued, answers, generation)
      && Tickets(issued, finished, answers, latest, retained, sequence, generation)
    }

    constructor ()
      ensures Valid() && snapshots == [] && issued == map[] && retained == map[] && generation == 0
    {
      snapshots, latest, sequence, generation := [], map[], 0, 0;
      issued, finished, answers, origin, retained := map[], {}, map[], map[], map[];
    }

    method Clear()
      requires Valid()
      modifies this
      ensures Valid() && snapshots == [] && generation == old(generation) + 1
      ensures issued == old(issued) && finished == old(finished) && retained == old(retained)
    {
      snapshots, latest, generation := [], map[], generation + 1;
    }

    /** The part of a load before its await. */
    method Begin(key: string) returns (ticket: Ticket)
      requires Valid() && key != ""
      modifies this
      ensures Valid() && ticket == Ticket(old(sequence) + 1, key, generation) && ticket.request !in old(issued)
      ensures issued == old(issued)[ticket.request := ticket] && ticket.request !in finished
      ensures latest == old(latest)[key := ticket.request]
      ensures snapshots == old(snapshots) && generation == old(generation) && finished == old(finished) && retained == old(retained)
    {
      hide Justified; hide Unique; hide Tickets; hide AllJustified;
      Issue(snapshots, origin, latest, issued, finished, answers, retained, sequence, generation, key);
      sequence := sequence + 1;
      ticket := Ticket(sequence, key, generation);
      latest := latest[key := sequence];
      issued := issued[sequence := ticket];
    }

    /**
     * The part after a valid answer. It is kept exactly when no later request for the key was issued and no
     * clear or eviction intervened; a kept answer always comes from a later request than the one it replaces.
     */
    method Succeed(ticket: Ticket, state: S)
      requires Valid() && ticket.request in issued && issued[ticket.request] == ticket && ticket.request !in finished
      modifies this
      ensures Valid() && generation == old(generation) && issued == old(issued)
      ensures finished == old(finished) + {ticket.request} && answers == old(answers)[ticket.request := state]
      ensures var current := ticket.epoch == generation && ticket.key in old(latest) && old(latest)[ticket.key] == ticket.request;
              && (!current ==> snapshots == old(snapshots) && retained == old(retained))
              && (current ==>
                    && retained == old(retained)[ticket.key := ticket.request]
                    && (ticket.key in old(retained) ==> old(retained)[ticket.key] < ticket.request)
                    && Lookup(snapshots, ticket.key) == Some(state)
                    && (var all := Set(old(snapshots), ticket.key, state);
                        snapshots == if |all| > CAPACITY then all[1..] else all))
    {
      hide Justified; hide Unique; hide AllJustified; hide Lookup; hide Set;
      Answered(snapshots, origin, latest, issued, finished, answers, retained, sequence, generation, ticket.request, state);
      finished, answers := finished + {ticket.request}, answers[ticket.request := state];
      if ticket.epoch == generation && ticket.key in latest && latest[ticket.key] == ticket.request {
        Keep(ticket, state);
      }
    }

    method Keep(ticket: Ticket, state: S)
      requires Valid() && ticket.request in issued && issued[ticket.request] == ticket
      requires ticket.epoch == generation && ticket.key in latest && latest[ticket.key] == ticket.request
      requires ticket.request in finished && ticket.request in answers && answers[ticket.request] == state
      modifies this`snapshots, this`latest, this`origin, this`retained
      ensures Valid() && retained == old(retained)[ticket.key := ticket.request]
      ensures Lookup(snapshots, ticket.key) == Some(state)
      ensures var all := Set(old(snapshots), ticket.key, state);
              snapshots == if |all| > CAPACITY then all[1..] else all
    {
      hide Lookup; hide IndexOf; hide Unique; hide Justified; hide AllJustified;
      SetFacts(snapshots, ticket.key, state);
      Kept(snapshots, Set(snapshots, ticket.key, state), origin, latest, issued, answers, generation, ticket);
      var i := IndexOf(snapshots, ticket.key);
      snapshots := if i < |snapshots| then snapshots[i := Entry(ticket.key, state)] else snapshots + [Entry(ticket.key, state)];
      origin := origin[ticket.key := ticket.request];
      retained := retained[ticket.key := ticket.request];
      if |snapshots| > CAPACITY {
        Evict(ticket.key);
      }
    }

    /** Drop the oldest entry together with its claim to be the latest. */
    method Evict(newest: string)
      requires Sound() && |snapshots| == CAPACITY + 1 && snapshots[CAPACITY].key == newest
      modifies this`snapshots, this`latest
      ensures Valid() && snapshots == old(snapshots)[1..] && Lookup(snapshots, newest) == Lookup(old(snapshots), newest)
    {
      hide Lookup; hide Unique; hide Justified; hide AllJustified;
      EvictFacts(snapshots, newest);
      Dropped(snapshots, snapshots[1..], origin, latest, issued, answers, generation, snapshots[0].key);
      assert (map k | k in latest && k != snapshots[0].key :: latest[k]) == latest - {snapshots[0].key};
      latest := map k | k in latest && k != snapshots[0].key :: latest[k];
      snapshots := snapshots[1..];
    }

    /** The part after a failure: the retained snapshot, if any, is shown as stale and nothing changes. */
    method Fail(ticket: Ticket) returns (shown: Option<S>)
      requires Valid() && ticket.request in issued && issued[ticket.request] == ticket && ticket.request !in finished
      modifies this`finished
      ensures Valid() && finished == old(finished) + {ticket.request}
      ensures shown == Lookup(snapshots, ticket.key)
      ensures shown.Some? ==> exists r :: r in answers && answers[r] == shown.value && issued[r] == Ticket(r, ticket.key, generation)
    {
      finished := finished + {ticket.request};
      shown := Lookup(snapshots, ticket.key);
      if shown.Some? {
        var x := snapshots[IndexOf(snapshots, ticket.key)];
        assert Justified(x, origin, latest, issued, answers, generation);
      }
    }
  }
}
