/** Subscriptions that the interceptor refused: when their deliveries end, and when they never do. */
module BeaconRefused {
  import opened Options
  import opened Beacon
  import opened BeaconTheorems

  // ----- What is on a stream, counted by task -----------------------------

  /** How much the first `n` tasks sent. */
  function SentTotal(items: seq<Item>, n: nat): nat
  {
    if n == 0 then 0 else SentTotal(items, n - 1) + |SentBy(items, n - 1)|
  }

  lemma {:induction false} SentTotalNext(items: seq<Item>, item: Item, n: nat)
    ensures SentTotal(items + [item], n) == SentTotal(items, n) + if item.task < n then 1 else 0
  {
    if n > 0 {
      SentTotalNext(items, item, n - 1);
      SentNext(items, item, n - 1);
    }
  }

  lemma {:induction false} SentTotalNone(n: nat)
    ensures SentTotal([], n) == 0
  {
    if n > 0 { SentTotalNone(n - 1); }
  }

  /** Each item was sent by exactly one task. */
  lemma {:induction false} SentTotalAll(items: seq<Item>, n: nat)
    requires forall i :: 0 <= i < |items| ==> items[i].task < n
    ensures SentTotal(items, n) == |items|
  {
    if items == [] {
      SentTotalNone(n);
    } else {
      var front, last := items[..|items| - 1], items[|items| - 1];
      SentTotalAll(front, n);
      SentTotalNext(front, last, n);
      assert items == front + [last];
    }
  }

  /** The preimages that the tasks of a client have to send, and have sent. */
  function Demand(tasks: seq<Task>, c: nat): nat
  {
    if tasks == [] then 0
    else
      var last := tasks[|tasks| - 1];
      Demand(tasks[..|tasks| - 1], c) + if last.client == c then |last.preimages| else 0
  }

  function Given(tasks: seq<Task>, c: nat): nat
  {
    if tasks == [] then 0
    else
      var last := tasks[|tasks| - 1];
      Given(tasks[..|tasks| - 1], c) + if last.client == c then last.at else 0
  }

  lemma {:induction false} GivenUpTo(hash: Preimage -> Hash, s: State, c: nat, n: nat)
    requires Inv(hash, s) && c < |s.clients| && n <= |s.tasks|
    ensures SentTotal(Stream(s.clients[c]), n) == Given(s.tasks[..n], c)
    decreases n
  {
    if n > 0 {
      GivenUpTo(hash, s, c, n - 1);
      assert s.tasks[..n][..n - 1] == s.tasks[..n - 1];
      assert TaskOk(s, n - 1) && StreamOk(s, n - 1) && ItemsOk(s, c);
      if s.tasks[n - 1].client != c { NothingSent(Stream(s.clients[c]), n - 1); }
    }
  }

  /** A client's stream is as long as what its tasks have sent. */
  lemma StreamIsGiven(hash: Preimage -> Hash, s: State, c: nat)
    requires Inv(hash, s) && c < |s.clients|
    ensures |Stream(s.clients[c])| == Given(s.tasks, c)
  {
    GivenUpTo(hash, s, c, |s.tasks|);
    assert s.tasks[..|s.tasks|] == s.tasks;
    assert ItemsOk(s, c);
    SentTotalAll(Stream(s.clients[c]), |s.tasks|);
  }

  ghost predicate AllSent(tasks: seq<Task>, c: nat)
  {
    forall t :: 0 <= t < |tasks| && tasks[t].client == c ==> tasks[t].at == |tasks[t].preimages|
  }

  lemma {:induction false} GivenOfDemand(tasks: seq<Task>, c: nat)
    requires forall t :: 0 <= t < |tasks| ==> tasks[t].at <= |tasks[t].preimages|
    ensures Given(tasks, c) <= Demand(tasks, c)
    ensures Given(tasks, c) == Demand(tasks, c) <==> AllSent(tasks, c)
  {
    if tasks != [] {
      var front := tasks[..|tasks| - 1];
      GivenOfDemand(front, c);
      assert AllSent(tasks, c) <==>
               AllSent(front, c) && (tasks[|front|].client == c ==> tasks[|front|].at == |tasks[|front|].preimages|);
    }
  }

  // ----- When the deliveries to a client end ------------------------------

  ghost predicate Ended(s: State, c: nat)
  {
    forall t :: 0 <= t < |s.tasks| && s.tasks[t].client == c ==> !Running(s, t)
  }

  /**
    When no delivery step is possible, the deliveries to a client have ended
    exactly if its subscription was not refused or the batches announced to it
    hold no more preimages than its channel.
  */
  lemma IdleEnded(hash: Preimage -> Hash, s: State, c: nat)
    requires Reachable(hash, s) && Idle(s) && c < |s.clients|
    ensures Ended(s, c) <==> s.clients[c].handle || Demand(s.tasks, c) <= 10
  {
    ReachableInv(hash, s);
    forall t | 0 <= t < |s.tasks|
      ensures s.tasks[t].at <= |s.tasks[t].preimages| && s.tasks[t].client < |s.clients|
      ensures s.clients[s.tasks[t].client].handle ==> !Running(s, t)
      ensures Running(s, t) ==> |s.clients[s.tasks[t].client].channel| == CAPACITY
    {
      assert TaskOk(s, t);
      IdleMeansDelivered(hash, s, t);
    }
    if !s.clients[c].handle { RefusedEnded(hash, s, c); }
  }

  lemma RefusedEnded(hash: Preimage -> Hash, s: State, c: nat)
    requires Inv(hash, s) && c < |s.clients| && !s.clients[c].handle
    requires forall t :: 0 <= t < |s.tasks| && Running(s, t) && s.tasks[t].client == c ==>
               |s.clients[c].channel| == CAPACITY
    ensures Ended(s, c) <==> Demand(s.tasks, c) <= CAPACITY
  {
    StreamIsGiven(hash, s, c);
    assert Stream(s.clients[c]) == s.clients[c].channel;
    forall t | 0 <= t < |s.tasks|
      ensures s.tasks[t].at <= |s.tasks[t].preimages|
      ensures s.tasks[t].client == c ==> (Running(s, t) <==> s.tasks[t].at < |s.tasks[t].preimages|)
    {
      assert TaskOk(s, t);
    }
    GivenOfDemand(s.tasks, c);
    assert Ended(s, c) <==> AllSent(s.tasks, c);
  }

  // ----- A delivery that never ends ---------------------------------------

  /** One refused subscription, one batch announced to it, `k` of its preimages sent. */
  function Sending(hash: Preimage -> Hash, ps: seq<Preimage>, k: nat): State
    requires k <= |ps|
  {
    State(Cached(hash, map[], ps), {0},
          [Client(seq(k, i requires 0 <= i < k => Item(0, ps[i])), [], false, false, {})],
          [Task(0, 0, ps, k, false)],
          [Batch(ps, Some(map[0 := 0]))])
  }

  lemma OneSubscriber(ps: seq<Preimage>)
    ensures Spawned(0, ps, [0]) == [Task(0, 0, ps, 0, false)]
    ensures Audience([0], 0) == map[0 := 0]
  {
    var none: map<nat, nat> := map[];
    assert [0][..0] == [] && Audience([], 0) == none;
  }

  lemma SendingStarts(hash: Preimage -> Hash, ps: seq<Preimage>)
    requires ps != []
    ensures Reachable(hash, Sending(hash, ps, 0))
  {
    assert Legal(hash, INIT, []) && Exec(hash, INIT, []) == INIT;
    var s1 := Apply(hash, INIT, Subscribe(false));
    var s2 := Apply(hash, s1, Store(ps, true));
    ReachableNext(hash, INIT, Subscribe(false));
    ReachableNext(hash, s1, Store(ps, true));
    assert Enumerates([0], s2.subscribers);
    ReachableNext(hash, s2, Announce(0, [0]));
    var s3, t := Apply(hash, s2, Announce(0, [0])), Sending(hash, ps, 0);
    OneSubscriber(ps);
    assert s3.tasks == t.tasks && s3.batches == t.batches;
    assert t.clients[0].channel == [] && s3.clients == t.clients;
    assert s3.subscribers == t.subscribers;
  }

  lemma {:induction false} SendingReached(hash: Preimage -> Hash, ps: seq<Preimage>, k: nat)
    requires ps != [] && k <= |ps| && k <= CAPACITY
    ensures Reachable(hash, Sending(hash, ps, k))
    decreases k
  {
    if k == 0 {
      SendingStarts(hash, ps);
    } else {
      var s := Sending(hash, ps, k - 1);
      SendingReached(hash, ps, k - 1);
      ReachableNext(hash, s, Send(0));
      var sent := Sending(hash, ps, k).clients[0].channel;
      assert s.clients[0].channel + [Item(0, ps[k - 1])] == sent;
      assert Apply(hash, s, Send(0)) == Sending(hash, ps, k);
    }
  }

  ghost predicate RunsForGood(hash: Preimage -> Hash, s: State, t: nat)
  {
    forall run :: Legal(hash, s, run) ==> Running(Exec(hash, s, run), t)
  }

  /**
    Every batch of more preimages than a channel holds leads, after a refused
    subscription, to a state from which its delivery runs in every later state.
  */
  lemma RefusedNeverEnds(hash: Preimage -> Hash, ps: seq<Preimage>)
    requires |ps| > 10
    ensures exists s :: Reachable(hash, s) && Idle(s) && RunsForGood(hash, s, 0)
  {
    var s := Sending(hash, ps, CAPACITY);
    SendingReached(hash, ps, CAPACITY);
    ReachableInv(hash, s);
    assert Running(s, 0);
    forall run | Legal(hash, s, run) ensures Running(Exec(hash, s, run), 0) {
      StuckForGood(hash, s, run, 0);
    }
    assert Idle(s);
  }
}
