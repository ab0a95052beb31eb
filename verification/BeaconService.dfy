/** The beacon's own methods, on the fields they update under its lock. */
module BeaconService {
  import opened Options
  import opened Beacon

  class PreimageBeacon {
    const hash: Preimage -> Hash
    var cache: map<Hash, Preimage>
    var clientCounter: nat
    var subscribers: set<nat>
    var clients: seq<Client>
    var tasks: seq<Task>
    var batches: seq<Batch>

    ghost predicate Valid()
      reads this
    {
      clientCounter == |clients| && Inv(hash, View())
    }

    ghost function View(): State
      reads this
    {
      State(cache, subscribers, clients, tasks, batches)
    }

    constructor (sha256: Preimage -> Hash)
      ensures Valid() && hash == sha256 && View() == INIT
    {
      hash := sha256;
      cache, clientCounter, subscribers := map[], 0, {};
      clients, tasks, batches := [], [], [];
    }

    /** Registers before the interceptor is asked, and stays registered if it refuses. */
    method SubscribeUpdates(intercepted: bool) returns (subscription: Option<nat>)
      requires Valid()
      modifies this
      ensures Valid() && View() == Apply(hash, old(View()), Subscribe(intercepted))
      ensures subscription == if intercepted then Some(|old(clients)|) else None
      ensures |old(clients)| !in old(subscribers) && |old(clients)| in subscribers
    {
      StepKeepsInv(hash, View(), Subscribe(intercepted));
      var clientID := clientCounter;
      clients := clients + [Client([], [], false, intercepted, {})];
      subscribers := subscribers + {clientID};
      clientCounter := clientCounter + 1;
      subscription := if intercepted then Some(clientID) else None;
    }

    method CancelSubscription(clientID: nat)
      requires Valid() && Enabled(View(), Cancel(clientID))
      modifies this
      ensures Valid() && View() == Apply(hash, old(View()), Cancel(clientID))
    {
      StepKeepsInv(hash, View(), Cancel(clientID));
      subscribers := subscribers - {clientID};
      clients := clients[clientID := clients[clientID].(quit := true)];
    }

    method LookupPreimage(h: Hash, readable: bool) returns (preimage: Option<Preimage>)
      requires Valid()
      ensures preimage == Found(View(), h, readable)
    {
      if !readable || h !in cache { return None; }
      return Some(cache[h]);
    }

    /** Both halves in a row: the batch is stored, then one task is started for each subscriber. */
    method AddPreimages(preimages: seq<Preimage>, stored: bool) returns (order: seq<nat>)
      requires Valid()
      modifies this
      ensures Valid()
      ensures preimages == [] || !stored ==> View() == old(View())
      ensures preimages != [] && stored ==>
                var s := Apply(hash, old(View()), Store(preimages, true));
                Enabled(s, Announce(|old(batches)|, order))
                && View() == Apply(hash, s, Announce(|old(batches)|, order))
    {
      order := [];
      if |preimages| == 0 { return; }
      var preimageCopies: seq<Preimage> := [];
      for i := 0 to |preimages|
        invariant preimageCopies == preimages[..i]
      {
        preimageCopies := preimageCopies + [preimages[i]];
      }
      assert preimageCopies == preimages;
      if !stored { return; }
      StepKeepsInv(hash, View(), Store(preimages, true));
      cache := Cached(hash, cache, preimages);
      var b := |batches|;
      batches := batches + [Batch(preimageCopies, None)];
      order := Notify(b);
    }

    /** What AddPreimages does under the lock. */
    method Notify(b: nat) returns (order: seq<nat>)
      requires Valid() && b < |batches| && batches[b].audience.None?
      modifies this
      ensures Valid()
      ensures Enabled(old(View()), Announce(b, order))
      ensures View() == Apply(hash, old(View()), Announce(b, order))
    {
      order := [];
      var todo := subscribers;
      var first, preimages := |tasks|, batches[b].preimages;
      ghost var before := View();
      while todo != {}
        invariant todo <= subscribers && Enumerates(order, subscribers - todo)
        invariant tasks == before.tasks + Spawned(b, preimages, order)
        invariant first == |before.tasks| && clientCounter == |clients|
        invariant View() == before.(tasks := tasks)
        decreases todo
      {
        var c :| c in todo;
        SpawnedNext(b, preimages, order, c);
        tasks := tasks + [Task(b, c, preimages, 0, false)];
        order := order + [c];
        todo := todo - {c};
      }
      assert subscribers - todo == subscribers;
      StepKeepsInv(hash, before, Announce(b, order));
      batches := batches[b := batches[b].(audience := Some(Audience(order, first)))];
    }
  }

  lemma {:induction false} SpawnedNext(b: nat, preimages: seq<Preimage>, order: seq<nat>, c: nat)
    ensures Spawned(b, preimages, order + [c]) == Spawned(b, preimages, order) + [Task(b, c, preimages, 0, false)]
  {
    if order != [] {
      SpawnedNext(b, preimages, order[1..], c);
      assert (order + [c])[1..] == order[1..] + [c];
    }
  }
}
