/** What subscribers of the preimage beacon can rely on, over all runs. */
module BeaconTheorems {
  import opened Sums
  import opened Beacon

  ghost predicate Reachable(hash: Preimage -> Hash, s: State)
  {
    exists run :: Legal(hash, INIT, run) && Exec(hash, INIT, run) == s
  }

  lemma ReachableInv(hash: Preimage -> Hash, s: State)
    requires Reachable(hash, s)
    ensures Inv(hash, s)
  {
    var run :| Legal(hash, INIT, run) && Exec(hash, INIT, run) == s;
    RunKeepsInv(hash, INIT, run);
  }

  lemma {:induction false} ExecNext(hash: Preimage -> Hash, s: State, run: seq<Step>, e: Step)
    requires Legal(hash, s, run) && Enabled(Exec(hash, s, run), e)
    ensures Legal(hash, s, run + [e]) && Exec(hash, s, run + [e]) == Apply(hash, Exec(hash, s, run), e)
    decreases |run|
  {
    if run == [] {
      assert [e][1..] == [] && run + [e] == [e];
      assert Legal(hash, Apply(hash, s, e), []) && Exec(hash, Apply(hash, s, e), []) == Apply(hash, s, e);
    } else {
      assert (run + [e])[1..] == run[1..] + [e];
      ExecNext(hash, Apply(hash, s, run[0]), run[1..], e);
    }
  }

  lemma ReachableNext(hash: Preimage -> Hash, s: State, e: Step)
    requires Reachable(hash, s) && Enabled(s, e)
    ensures Reachable(hash, Apply(hash, s, e))
  {
    var run :| Legal(hash, INIT, run) && Exec(hash, INIT, run) == s;
    ExecNext(hash, INIT, run, e);
  }

  // ----- No lost preimage -------------------------------------------------

  /**
    The preimage of a stored batch waits for the announcement, is still to be sent
    by the client's task, or is in the client's stream.
  */
  ghost predicate OnItsWay(s: State, b: nat, p: Preimage, c: nat)
    requires b < |s.batches| && c < |s.clients|
  {
    || s.batches[b].audience.None?
    || (exists t :: 0 <= t < |s.tasks| && s.tasks[t].client == c && s.tasks[t].batch == b
                    && !s.tasks[t].gone && s.tasks[t].at <= |s.tasks[t].preimages|
                    && p in s.tasks[t].preimages[s.tasks[t].at..])
    || (exists i :: 0 <= i < |s.clients[c].channel| && s.clients[c].channel[i].preimage == p)
    || (exists i :: 0 <= i < |s.clients[c].received| && s.clients[c].received[i].preimage == p)
  }

  lemma {:induction false} SentIsThere(items: seq<Item>, t: nat, p: Preimage) returns (i: nat)
    requires p in SentBy(items, t)
    ensures i < |items| && items[i] == Item(t, p)
  {
    var last := |items| - 1;
    if items[last] == Item(t, p) {
      i := last;
    } else {
      i := SentIsThere(items[..last], t, p);
    }
  }

  lemma AudienceIsServed(hash: Preimage -> Hash, s: State, b: nat, p: Preimage, c: nat)
    requires Inv(hash, s) && b < |s.batches| && c < |s.clients| && !s.clients[c].quit && p in s.batches[b].preimages
    requires s.batches[b].audience.Some? && c in s.batches[b].audience.value
    ensures OnItsWay(s, b, p, c)
  {
    assert AudienceOk(s, b, c);
    var t := s.batches[b].audience.value[c];
    assert TaskOk(s, t) && StreamOk(s, t);
    var task := s.tasks[t];
    assert task.preimages == task.preimages[..task.at] + task.preimages[task.at..];
    if p in task.preimages[..task.at] {
      var i := SentIsThere(Stream(s.clients[c]), t, p);
      if i < |s.clients[c].received| {
        assert s.clients[c].received[i].preimage == p;
      } else {
        assert s.clients[c].channel[i - |s.clients[c].received|].preimage == p;
      }
    }
  }

  /** What a lookup that missed has written down stays written down. */
  lemma {:induction false} MissStays(hash: Preimage -> Hash, s: State, run: seq<Step>, c: nat, h: Hash)
    requires Legal(hash, s, run) && c < |s.clients| && h in s.clients[c].missed
    ensures c < |Exec(hash, s, run).clients| && h in Exec(hash, s, run).clients[c].missed
    decreases |run|
  {
    if run != [] { MissStays(hash, Apply(hash, s, run[0]), run[1..], c, h); }
  }

  /**
    No lost preimage: a subscriber looks up a hash that is not in the cache.
    However the run goes on, every preimage of that hash in any stored batch is
    on its way to the subscriber, unless it cancels.
  */
  lemma NoLostPreimage(hash: Preimage -> Hash, s: State, c: nat, h: Hash, readable: bool,
                       run: seq<Step>, b: nat, p: Preimage)
    requires Reachable(hash, s) && Enabled(s, Lookup(c, h, readable)) && h !in s.cache
    requires Legal(hash, Apply(hash, s, Lookup(c, h, readable)), run)
    requires var s' := Exec(hash, Apply(hash, s, Lookup(c, h, readable)), run);
             b < |s'.batches| && p in s'.batches[b].preimages && hash(p) == h && c < |s'.clients| && !s'.clients[c].quit
    ensures OnItsWay(Exec(hash, Apply(hash, s, Lookup(c, h, readable)), run), b, p, c)
  {
    ReachableInv(hash, s);
    var looked := Apply(hash, s, Lookup(c, h, readable));
    var s' := Exec(hash, looked, run);
    StepKeepsInv(hash, s, Lookup(c, h, readable));
    RunKeepsInv(hash, looked, run);
    MissStays(hash, looked, run, c, h);
    if s'.batches[b].audience.Some? { AudienceIsServed(hash, s', b, p, c); }
  }

  // ----- Each batch once, in order ----------------------------------------

  predicate Serves(s: State, t: nat, b: nat, c: nat)
  {
    t < |s.tasks| && s.tasks[t].batch == b && s.tasks[t].client == c
  }

  /**
    A client in the audience of a batch has exactly one task for it, which has
    put a prefix of the batch, in order, on the client's stream; the whole of
    it once that delivery has ended, unless the client cancelled. Others have none.
  */
  lemma EachBatchOnce(hash: Preimage -> Hash, s: State, b: nat, c: nat)
    requires Reachable(hash, s) && b < |s.batches| && c < |s.clients|
    ensures (exists t: nat :: Serves(s, t, b, c)) <==> s.batches[b].audience.Some? && c in s.batches[b].audience.value
    ensures forall t: nat, u: nat :: Serves(s, t, b, c) && Serves(s, u, b, c) ==> t == u
    ensures forall t: nat :: Serves(s, t, b, c) ==>
              SentBy(Stream(s.clients[c]), t) <= s.batches[b].preimages
              && (!Running(s, t) && !s.clients[c].quit ==> SentBy(Stream(s.clients[c]), t) == s.batches[b].preimages)
  {
    ReachableInv(hash, s);
    if s.batches[b].audience.Some? && c in s.batches[b].audience.value {
      assert AudienceOk(s, b, c) && Serves(s, s.batches[b].audience.value[c], b, c);
    }
    forall t: nat | Serves(s, t, b, c) ensures TaskOk(s, t) && StreamOk(s, t) {
      assert TaskOk(s, t);
    }
  }

  /** Nothing else is on a client's stream. */
  lemma OnlyItsTasks(hash: Preimage -> Hash, s: State, c: nat, i: nat)
    requires Reachable(hash, s) && c < |s.clients| && i < |Stream(s.clients[c])|
    ensures var t := Stream(s.clients[c])[i].task; t < |s.tasks| && Serves(s, t, s.tasks[t].batch, c)
  {
    ReachableInv(hash, s);
    assert ItemsOk(s, c);
  }

  // ----- Who is in the audience -------------------------------------------

  ghost predicate Grown(c: Client, c': Client)
  {
    c.received <= c'.received && (c.quit ==> c'.quit) && c.handle == c'.handle
  }

  /** The batch stays; an announcement reaches all old clients that have not cancelled. */
  ghost predicate Announced(b: Batch, b': Batch, olds: nat, clients: seq<Client>)
    requires olds <= |clients|
  {
    && b'.preimages == b.preimages
    && (b.audience.Some? ==> b'.audience == b.audience)
    && (b.audience.None? && b'.audience.Some? ==> Reached(b'.audience.value, olds, clients))
  }

  ghost predicate Reached(audience: map<nat, nat>, olds: nat, clients: seq<Client>)
    requires olds <= |clients|
  {
    forall c :: 0 <= c < olds && !clients[c].quit ==> c in audience
  }

  ghost predicate Later(s: State, s': State)
  {
    && |s.clients| <= |s'.clients| && |s.batches| <= |s'.batches|
    && (forall c :: 0 <= c < |s.clients| ==> Grown(s.clients[c], s'.clients[c]))
    && (forall b :: 0 <= b < |s.batches| ==> Announced(s.batches[b], s'.batches[b], |s.clients|, s'.clients))
    && (forall b :: |s.batches| <= b < |s'.batches| && s'.batches[b].audience.Some? ==>
          Reached(s'.batches[b].audience.value, |s.clients|, s'.clients))
  }

  lemma StepLater(hash: Preimage -> Hash, s: State, e: Step)
    requires Inv(hash, s) && Enabled(s, e)
    ensures Later(s, Apply(hash, s, e))
  {
  }

  lemma LaterStill(s: State, t: State, u: State)
    requires Later(s, t) && Later(t, u)
    ensures Later(s, u)
  {
    forall c | 0 <= c < |s.clients| ensures Grown(s.clients[c], u.clients[c]) {
      assert Grown(s.clients[c], t.clients[c]) && Grown(t.clients[c], u.clients[c]);
    }
  }

  lemma {:induction false} RunLater(hash: Preimage -> Hash, s: State, run: seq<Step>)
    requires Inv(hash, s) && Legal(hash, s, run)
    ensures Later(s, Exec(hash, s, run))
    decreases |run|
  {
    if run != [] {
      var s1 := Apply(hash, s, run[0]);
      StepLater(hash, s, run[0]);
      StepKeepsInv(hash, s, run[0]);
      RunLater(hash, s1, run[1..]);
      LaterStill(s, s1, Exec(hash, s1, run[1..]));
    }
  }

  /**
    Of a batch that is announced after a run, and a client that has not
    cancelled: the client gets the batch if it subscribed before the run and the
    batch was not yet announced then; it does not if it was the other way round.
  */
  lemma AudienceOfRun(hash: Preimage -> Hash, s: State, run: seq<Step>, b: nat, c: nat)
    requires Reachable(hash, s) && Legal(hash, s, run)
    requires var s' := Exec(hash, s, run);
             b < |s'.batches| && c < |s'.clients| && s'.batches[b].audience.Some? && !s'.clients[c].quit
    ensures var s' := Exec(hash, s, run);
            var announced := b < |s.batches| && s.batches[b].audience.Some?;
            && (c < |s.clients| && !announced ==> c in s'.batches[b].audience.value)
            && (c >= |s.clients| && announced ==> c !in s'.batches[b].audience.value)
  {
    ReachableInv(hash, s);
    RunLater(hash, s, run);
    if b < |s.batches| {
      var s' := Exec(hash, s, run);
      assert Announced(s.batches[b], s'.batches[b], |s.clients|, s'.clients);
      if s.batches[b].audience.Some? && c in s.batches[b].audience.value {
        assert AudienceOk(s, b, c) && TaskOk(s, s.batches[b].audience.value[c]);
      }
    }
  }

  // ----- What has been stored ---------------------------------------------

  function StoredBy(e: Step): seq<seq<Preimage>>
  {
    if e.Store? && e.stored && e.preimages != [] then [e.preimages] else []
  }

  /** The batches that the run stores. */
  function Stores(run: seq<Step>): seq<seq<Preimage>>
  {
    if run == [] then [] else StoredBy(run[0]) + Stores(run[1..])
  }

  function Contents(batches: seq<Batch>): (ps: seq<seq<Preimage>>)
    ensures |ps| == |batches| && forall i :: 0 <= i < |ps| ==> ps[i] == batches[i].preimages
  {
    if batches == [] then [] else [batches[0].preimages] + Contents(batches[1..])
  }

  /** Over any run: exactly the batches that were written, in order. */
  lemma {:induction false} StoredBySteps(hash: Preimage -> Hash, s: State, run: seq<Step>)
    requires Legal(hash, s, run)
    ensures Contents(Exec(hash, s, run).batches) == Contents(s.batches) + Stores(run)
    decreases |run|
  {
    if run != [] {
      StepStores(hash, s, run[0]);
      StoredBySteps(hash, Apply(hash, s, run[0]), run[1..]);
      Associate(Contents(s.batches), StoredBy(run[0]), Stores(run[1..]));
    }
  }

  lemma Associate<T>(a: seq<T>, b: seq<T>, c: seq<T>)
    ensures a + b + c == a + (b + c)
  {
  }

  lemma StepStores(hash: Preimage -> Hash, s: State, e: Step)
    requires Enabled(s, e)
    ensures Contents(Apply(hash, s, e).batches) == Contents(s.batches) + StoredBy(e)
  {
  }

  // ----- Who has cancelled ------------------------------------------------

  /** Over any run a subscriber has cancelled exactly if it has taken that step, which it can take once. */
  lemma {:induction false} CancelledBySteps(hash: Preimage -> Hash, s: State, run: seq<Step>, c: nat)
    requires Legal(hash, s, run) && c < |s.clients|
    ensures var t := Exec(hash, s, run);
            c < |t.clients| && t.clients[c].handle == s.clients[c].handle
            && (t.clients[c].quit <==> s.clients[c].quit || Cancel(c) in run)
            && (Enabled(t, Cancel(c)) <==> t.clients[c].handle && !t.clients[c].quit)
    decreases |run|
  {
    if run != [] {
      CancelledBySteps(hash, Apply(hash, s, run[0]), run[1..], c);
      assert forall e :: e in run <==> e == run[0] || e in run[1..];
    }
  }

  /** Batches announced later do not reach a subscriber that has cancelled. */
  lemma {:induction false} CancelledUnreached(hash: Preimage -> Hash, s: State, run: seq<Step>, b: nat, c: nat)
    requires Inv(hash, s) && Legal(hash, s, run) && c < |s.clients| && s.clients[c].quit
    requires b < |s.batches| ==> s.batches[b].audience.None? || c !in s.batches[b].audience.value
    ensures var t := Exec(hash, s, run);
            b < |t.batches| && t.batches[b].audience.Some? ==> c !in t.batches[b].audience.value
    decreases |run|
  {
    if run != [] {
      StepKeepsInv(hash, s, run[0]);
      CancelledUnreached(hash, Apply(hash, s, run[0]), run[1..], b, c);
    }
  }

  // ----- Delivery ends, and what is then delivered ------------------------

  /** A step of the goroutines and of the readers, not a new request. */
  predicate Delivery(e: Step) { e.Announce? || e.Send? || e.GiveUp? || e.Receive? }

  function TaskCost(t: Task): nat
  {
    if t.gone || t.at > |t.preimages| then 0 else 2 * (|t.preimages| - t.at)
  }

  function BatchCost(clients: nat): Batch -> nat
  {
    (b: Batch) => if b.audience.Some? then 0 else 1 + clients * (2 * |b.preimages|)
  }

  function ClientCost(c: Client): nat { |c.channel| }

  function Cost(s: State): nat
  {
    Total(BatchCost(|s.clients|), s.batches) + Total(TaskCost, s.tasks) + Total(ClientCost, s.clients)
  }

  lemma OrderBound(s: State, order: seq<nat>)
    requires ClientInv(s) && Enumerates(order, s.subscribers)
    ensures |order| <= |s.clients|
  {
    forall i | 0 <= i < |order| ensures order[i] < |s.clients| { assert order[i] in order; }
    AtMost(order, |s.clients|);
  }

  lemma More(k: nat, n: nat, w: nat)
    requires k <= n
    ensures w * k <= n * w
  {
    assert n * w == w * k + w * (n - k);
  }

  lemma AnnounceCost(hash: Preimage -> Hash, s: State, b: nat, order: seq<nat>)
    requires Inv(hash, s) && Enabled(s, Announce(b, order))
    ensures Cost(Apply(hash, s, Announce(b, order))) < Cost(s)
  {
    var s' := Apply(hash, s, Announce(b, order));
    var ps := s.batches[b].preimages;
    var tasks := Spawned(b, ps, order);
    TotalConcat(TaskCost, s.tasks, tasks);
    TotalOfEqual(TaskCost, tasks, 2 * |ps|);
    OrderBound(s, order);
    More(|order|, |s.clients|, 2 * |ps|);
    TotalUpdate(BatchCost(|s.clients|), s.batches, b, s'.batches[b]);
  }

  lemma DeliveryCosts(hash: Preimage -> Hash, s: State, e: Step)
    requires Inv(hash, s) && Enabled(s, e) && Delivery(e)
    ensures Cost(Apply(hash, s, e)) < Cost(s)
  {
    var s' := Apply(hash, s, e);
    match e
    case Announce(b, order) => AnnounceCost(hash, s, b, order);
    case Send(t) =>
      TotalUpdate(TaskCost, s.tasks, t, s'.tasks[t]);
      var c := s.tasks[t].client;
      TotalUpdate(ClientCost, s.clients, c, s'.clients[c]);
    case GiveUp(t) => TotalUpdate(TaskCost, s.tasks, t, s'.tasks[t]);
    case Receive(c) => TotalUpdate(ClientCost, s.clients, c, s'.clients[c]);
    case _ =>
  }

  /** Without new requests delivery comes to an end. */
  lemma {:induction false} DeliveryEnds(hash: Preimage -> Hash, s: State, run: seq<Step>)
    requires Inv(hash, s) && Legal(hash, s, run) && forall i :: 0 <= i < |run| ==> Delivery(run[i])
    ensures |run| <= Cost(s)
    decreases |run|
  {
    if run != [] {
      DeliveryCosts(hash, s, run[0]);
      StepKeepsInv(hash, s, run[0]);
      DeliveryEnds(hash, Apply(hash, s, run[0]), run[1..]);
    }
  }

  ghost predicate Idle(s: State) { forall e :: Delivery(e) ==> !Enabled(s, e) }

  /** From every state some run of deliveries goes as far as it can. */
  lemma {:induction false} DeliveryFinishes(hash: Preimage -> Hash, s: State) returns (run: seq<Step>)
    requires Inv(hash, s)
    ensures Legal(hash, s, run) && Idle(Exec(hash, s, run)) && forall i :: 0 <= i < |run| ==> Delivery(run[i])
    decreases Cost(s)
  {
    if e :| Delivery(e) && Enabled(s, e) {
      DeliveryCosts(hash, s, e);
      StepKeepsInv(hash, s, e);
      var rest := DeliveryFinishes(hash, Apply(hash, s, e));
      run := [e] + rest;
      assert run[1..] == rest;
    } else {
      run := [];
    }
  }

  lemma {:induction false} AnOrder(clients: set<nat>) returns (order: seq<nat>)
    ensures Enumerates(order, clients)
  {
    if clients == {} {
      order := [];
    } else {
      var c :| c in clients;
      var rest := AnOrder(clients - {c});
      order := rest + [c];
    }
  }

  /**
    When no delivery step is possible, every batch is announced, every client
    that has not cancelled has received all batches of its audience in full, and
    the deliveries that still run are those of clients whose subscription was refused
    by the interceptor and whose channel is full.
  */
  lemma IdleMeansDelivered(hash: Preimage -> Hash, s: State, t: nat)
    requires Reachable(hash, s) && Idle(s)
    ensures forall b :: 0 <= b < |s.batches| ==> s.batches[b].audience.Some?
    ensures t < |s.tasks| && s.tasks[t].client < |s.clients| ==>
              var c := s.clients[s.tasks[t].client];
              && (c.handle ==> c.channel == [])
              && (c.handle && !c.quit ==> SentBy(c.received, t) == s.tasks[t].preimages)
              && (Running(s, t) <==> !c.handle && s.tasks[t].at < |s.tasks[t].preimages|)
              && (Running(s, t) ==> |c.channel| == CAPACITY)
  {
    ReachableInv(hash, s);
    var order := AnOrder(s.subscribers);
    forall b | 0 <= b < |s.batches| ensures s.batches[b].audience.Some? {
      assert Delivery(Announce(b, order)) && !Enabled(s, Announce(b, order));
    }
    if t < |s.tasks| {
      assert TaskOk(s, t) && StreamOk(s, t);
      var c := s.tasks[t].client;
      assert Delivery(Receive(c)) && !Enabled(s, Receive(c));
      assert Delivery(Send(t)) && !Enabled(s, Send(t));
      assert Delivery(GiveUp(t)) && !Enabled(s, GiveUp(t));
      if s.clients[c].handle { assert Stream(s.clients[c]) == s.clients[c].received + s.clients[c].channel; }
      if s.clients[c].channel == [] { assert Stream(s.clients[c]) == s.clients[c].received; }
    }
  }

  /** Such a task never ends. */
  lemma {:induction false} StuckForGood(hash: Preimage -> Hash, s: State, run: seq<Step>, t: nat)
    requires Inv(hash, s) && Legal(hash, s, run) && Running(s, t)
    requires var c := s.clients[s.tasks[t].client]; !c.handle && |c.channel| == CAPACITY
    ensures Running(Exec(hash, s, run), t)
    decreases |run|
  {
    if run != [] {
      StepKeepsInv(hash, s, run[0]);
      StuckForGood(hash, Apply(hash, s, run[0]), run[1..], t);
    }
  }

  // ----- Lookups ----------------------------------------------------------

  /** What a lookup finds has the hash asked for and was added; what was added is found by every read that works. */
  lemma LookupIsSound(hash: Preimage -> Hash, s: State, h: Hash, readable: bool)
    requires Reachable(hash, s)
    ensures Found(s, h, readable).Some? ==>
              hash(Found(s, h, readable).value) == h && WasStored(s.batches, Found(s, h, readable).value)
    ensures Found(s, h, readable).None? <==>
              !readable || !exists b, p :: 0 <= b < |s.batches| && p in s.batches[b].preimages && hash(p) == h
  {
    ReachableInv(hash, s);
    if h in s.cache {
      var b :| 0 <= b < |s.batches| && s.cache[h] in s.batches[b].preimages;
      assert hash(s.cache[h]) == h;
    }
  }

  /** A lookup answers none, and later a batch with a preimage of the hash has been stored. */
  ghost predicate AnsweredNone(hash: Preimage -> Hash, s: State, c: nat, h: Hash, readable: bool,
                               run: seq<Step>, b: nat, p: Preimage)
  {
    && Reachable(hash, s) && Enabled(s, Lookup(c, h, readable)) && Found(s, h, readable).None?
    && Legal(hash, Apply(hash, s, Lookup(c, h, readable)), run)
    && var s' := Exec(hash, Apply(hash, s, Lookup(c, h, readable)), run);
       b < |s'.batches| && p in s'.batches[b].preimages && hash(p) == h && c < |s'.clients| && !s'.clients[c].quit
  }

  /**
    The promise after the answer none, that every preimage of the hash is on its
    way until cancellation, holds in all runs exactly if the cache was readable.
  */
  lemma NoneIsPromise(hash: Preimage -> Hash, readable: bool)
    ensures (forall s, c, h, run, b, p :: AnsweredNone(hash, s, c, h, readable, run, b, p) ==>
               OnItsWay(Exec(hash, Apply(hash, s, Lookup(c, h, readable)), run), b, p, c)) <==> readable
  {
    if readable {
      forall s, c, h, run, b, p | AnsweredNone(hash, s, c, h, readable, run, b, p)
        ensures OnItsWay(Exec(hash, Apply(hash, s, Lookup(c, h, readable)), run), b, p, c)
      {
        NoLostPreimage(hash, s, c, h, readable, run, b, p);
      }
    } else {
      var s := UnreadableIsNoMiss(hash, []);
      var none: seq<Step> := [];
      assert Legal(hash, s, none) && Exec(hash, s, none) == s;
      assert Apply(hash, s, Lookup(0, hash([]), false)) == s;
      assert AnsweredNone(hash, s, 0, hash([]), readable, none, 0, []);
    }
  }

  /** The preimage is known, announced before the client came, and its lookup fails. */
  lemma UnreadableIsNoMiss(hash: Preimage -> Hash, p: Preimage) returns (s: State)
    ensures Reachable(hash, s) && Enabled(s, Lookup(0, hash(p), false)) && hash(p) in s.cache
    ensures |s.batches| > 0 && p in s.batches[0].preimages && !s.clients[0].quit && !OnItsWay(s, 0, p, 0)
  {
    var s1 := Apply(hash, INIT, Store([p], true));
    var s2 := Apply(hash, s1, Announce(0, []));
    s := Apply(hash, s2, Subscribe(true));
    assert Legal(hash, INIT, []) && Exec(hash, INIT, []) == INIT;
    ReachableNext(hash, INIT, Store([p], true));
    ReachableNext(hash, s1, Announce(0, []));
    ReachableNext(hash, s2, Subscribe(true));
    ReachableInv(hash, s);
    NotOnItsWay(s, p);
  }

  lemma NotOnItsWay(s: State, p: Preimage)
    requires s.tasks == [] && s.clients == [Client([], [], false, true, {})]
    requires |s.batches| > 0 && s.batches[0].audience.Some?
    ensures !OnItsWay(s, 0, p, 0)
  {
  }
}
