/**
  The preimage beacon of witness_beacon.go. A batch of preimages is stored in
  the cache first and announced second; announcing starts one delivery task for
  every subscriber, which sends the batch over the subscriber's bounded channel.
  One step is what one goroutine does under the beacon's lock, or one channel
  operation.
*/
module Beacon {
  import opened Options

  type Preimage = seq<nat>
  type Hash = seq<nat>

  const CAPACITY: nat := 10

  /** A preimage on a channel, with the delivery that sent it. */
  datatype Item = Item(task: nat, preimage: Preimage)

  /**
    A subscriber. Without a handle nobody holds its channel: SubscribeUpdates
    returned the interceptor's error. `missed` are the hashes that its holder
    looked up and that were not in the cache.
  */
  datatype Client = Client(channel: seq<Item>, received: seq<Item>, quit: bool, handle: bool, missed: set<Hash>)

  /** The sending of its copy of an added batch to one client; `at` preimages are sent. */
  datatype Task = Task(batch: nat, client: nat, preimages: seq<Preimage>, at: nat, gone: bool)

  /** A batch that is in the cache; once announced, its audience: the delivery task that serves each subscriber. */
  datatype Batch = Batch(preimages: seq<Preimage>, audience: Option<map<nat, nat>>)

  datatype State = State(
    cache: map<Hash, Preimage>,
    subscribers: set<nat>,
    clients: seq<Client>,
    tasks: seq<Task>,
    batches: seq<Batch>
  )

  datatype Step =
    | Subscribe(intercepted: bool)
    | Lookup(client: nat, hash: Hash, readable: bool)
    | Store(preimages: seq<Preimage>, stored: bool)
    | Announce(batch: nat, order: seq<nat>)
    | Send(task: nat)
    | GiveUp(task: nat)
    | Receive(client: nat)
    | Cancel(client: nat)

  const INIT := State(map[], {}, [], [], [])

  /** The task has more to send and has not given up. */
  predicate Running(s: State, t: nat)
  {
    t < |s.tasks| && s.tasks[t].client < |s.clients| && !s.tasks[t].gone && s.tasks[t].at < |s.tasks[t].preimages|
  }

  predicate Enumerates(order: seq<nat>, clients: set<nat>)
  {
    (forall c :: c in order ==> c in clients) && (forall c :: c in clients ==> c in order)
    && forall i, j :: 0 <= i < j < |order| ==> order[i] != order[j]
  }

  predicate Enabled(s: State, e: Step)
  {
    match e
    case Subscribe(_) => true
    case Lookup(c, _, _) => c < |s.clients| && s.clients[c].handle
    case Store(_, _) => true
    case Announce(b, order) => b < |s.batches| && s.batches[b].audience.None? && Enumerates(order, s.subscribers)
    case Send(t) => Running(s, t) && |s.clients[s.tasks[t].client].channel| < CAPACITY
    case GiveUp(t) => Running(s, t) && s.clients[s.tasks[t].client].quit
    case Receive(c) => c < |s.clients| && s.clients[c].handle && s.clients[c].channel != []
    case Cancel(c) => c < |s.clients| && s.clients[c].handle && !s.clients[c].quit
  }

  /** AddSha256Witnesses: all preimages of the batch under their hashes. */
  function Cached(hash: Preimage -> Hash, cache: map<Hash, Preimage>, ps: seq<Preimage>): map<Hash, Preimage>
    decreases |ps|
  {
    if ps == [] then cache else Cached(hash, cache[hash(ps[0]) := ps[0]], ps[1..])
  }

  /** What LookupPreimage returns: an unreadable cache counts as no witness. */
  function Found(s: State, h: Hash, readable: bool): Option<Preimage>
  {
    if readable && h in s.cache then Some(s.cache[h]) else None
  }

  function Spawned(b: nat, preimages: seq<Preimage>, order: seq<nat>): (ts: seq<Task>)
    ensures |ts| == |order| && forall i :: 0 <= i < |ts| ==> ts[i] == Task(b, order[i], preimages, 0, false)
  {
    if order == [] then [] else [Task(b, order[0], preimages, 0, false)] + Spawned(b, preimages, order[1..])
  }

  /** Task `first + i` serves `order[i]`. */
  function Audience(order: seq<nat>, first: nat): (m: map<nat, nat>)
    ensures forall c :: c in m <==> c in order
    ensures forall c :: c in m ==> first <= m[c] < first + |order| && order[m[c] - first] == c
  {
    if order == [] then map[]
    else Audience(order[..|order| - 1], first)[order[|order| - 1] := first + |order| - 1]
  }

  function Apply(hash: Preimage -> Hash, s: State, e: Step): State
    requires Enabled(s, e)
  {
    match e
    case Subscribe(ok) =>
      s.(subscribers := s.subscribers + {|s.clients|}, clients := s.clients + [Client([], [], false, ok, {})])
    case Lookup(c, h, readable) =>
      if h in s.cache then s
      else s.(clients := s.clients[c := s.clients[c].(missed := s.clients[c].missed + {h})])
    case Store(ps, stored) =>
      if ps == [] || !stored then s
      else s.(cache := Cached(hash, s.cache, ps), batches := s.batches + [Batch(ps, None)])
    case Announce(b, order) =>
      s.(tasks := s.tasks + Spawned(b, s.batches[b].preimages, order),
         batches := s.batches[b := s.batches[b].(audience := Some(Audience(order, |s.tasks|)))])
    case Send(t) =>
      var task := s.tasks[t];
      var client := s.clients[task.client];
      var item := Item(t, task.preimages[task.at]);
      s.(tasks := s.tasks[t := task.(at := task.at + 1)],
         clients := s.clients[task.client := client.(channel := client.channel + [item])])
    case GiveUp(t) => s.(tasks := s.tasks[t := s.tasks[t].(gone := true)])
    case Receive(c) =>
      var client := s.clients[c];
      var taken := client.(channel := client.channel[1..], received := client.received + [client.channel[0]]);
      s.(clients := s.clients[c := taken])
    case Cancel(c) =>
      s.(subscribers := s.subscribers - {c}, clients := s.clients[c := s.clients[c].(quit := true)])
  }

  predicate Legal(hash: Preimage -> Hash, s: State, run: seq<Step>)
    decreases |run|
  {
    run == [] || (Enabled(s, run[0]) && Legal(hash, Apply(hash, s, run[0]), run[1..]))
  }

  function Exec(hash: Preimage -> Hash, s: State, run: seq<Step>): State
    requires Legal(hash, s, run)
    decreases |run|
  {
    if run == [] then s else Exec(hash, Apply(hash, s, run[0]), run[1..])
  }

  // ----- The invariant ----------------------------------------------------

  /** What `task` put on a client's channel, in the order sent. */
  function SentBy(items: seq<Item>, task: nat): (ps: seq<Preimage>)
  {
    if items == [] then []
    else SentBy(items[..|items| - 1], task)
         + if items[|items| - 1].task == task then [items[|items| - 1].preimage] else []
  }

  function Stream(c: Client): seq<Item> { c.received + c.channel }

  ghost predicate CacheInv(hash: Preimage -> Hash, s: State)
  {
    && (forall h :: h in s.cache ==> hash(s.cache[h]) == h)
    && (forall b, p :: 0 <= b < |s.batches| && p in s.batches[b].preimages ==> hash(p) in s.cache)
  }

  ghost predicate WasStored(batches: seq<Batch>, p: Preimage)
  {
    exists b :: 0 <= b < |batches| && p in batches[b].preimages
  }

  ghost predicate SourceInv(s: State)
  {
    forall h :: h in s.cache ==> WasStored(s.batches, s.cache[h])
  }

  lemma StillStored(before: seq<Batch>, after: seq<Batch>, p: Preimage)
    requires WasStored(before, p) && |before| <= |after|
    requires forall b :: 0 <= b < |before| ==> after[b].preimages == before[b].preimages
    ensures WasStored(after, p)
  {
    var b :| 0 <= b < |before| && p in before[b].preimages;
    assert p in after[b].preimages;
  }

  lemma SourceKept(hash: Preimage -> Hash, s: State, e: Step)
    requires CacheInv(hash, s) && SourceInv(s) && Enabled(s, e)
    ensures SourceInv(Apply(hash, s, e))
  {
    var s' := Apply(hash, s, e);
    if e.Store? { CachedHolds(hash, s.cache, e.preimages); }
    forall h | h in s'.cache ensures WasStored(s'.batches, s'.cache[h]) {
      if h in s.cache && s'.cache[h] == s.cache[h] {
        StillStored(s.batches, s'.batches, s.cache[h]);
      } else {
        assert s'.cache[h] in s'.batches[|s.batches|].preimages;
      }
    }
  }

  ghost predicate ClientInv(s: State)
  {
    && (forall c :: c in s.subscribers <==> 0 <= c < |s.clients| && !s.clients[c].quit)
    && (forall c :: 0 <= c < |s.clients| ==> |s.clients[c].channel| <= CAPACITY)
    && (forall c :: 0 <= c < |s.clients| && !s.clients[c].handle ==>
          !s.clients[c].quit && s.clients[c].received == [] && s.clients[c].missed == {})
  }

  /** The task serves one client of its batch's audience. */
  ghost predicate TaskOk(s: State, t: nat)
    requires t < |s.tasks|
  {
    var task := s.tasks[t];
    && task.batch < |s.batches| && task.client < |s.clients|
    && task.preimages == s.batches[task.batch].preimages && task.at <= |task.preimages|
    && s.batches[task.batch].audience.Some?
    && task.client in s.batches[task.batch].audience.value
    && s.batches[task.batch].audience.value[task.client] == t
    && (task.gone ==> s.clients[task.client].quit)
  }

  ghost predicate TaskInv(s: State)
  {
    forall t :: 0 <= t < |s.tasks| ==> TaskOk(s, t)
  }

  ghost predicate AudienceOk(s: State, b: nat, c: nat)
    requires b < |s.batches| && s.batches[b].audience.Some? && c in s.batches[b].audience.value
  {
    var t := s.batches[b].audience.value[c];
    t < |s.tasks| && s.tasks[t].batch == b && s.tasks[t].client == c
  }

  ghost predicate AudienceInv(s: State)
  {
    forall b, c :: 0 <= b < |s.batches| && s.batches[b].audience.Some? && c in s.batches[b].audience.value ==>
      AudienceOk(s, b, c)
  }

  ghost predicate ItemsOk(s: State, c: nat)
    requires c < |s.clients|
  {
    forall i :: 0 <= i < |Stream(s.clients[c])| ==>
      Stream(s.clients[c])[i].task < |s.tasks| && s.tasks[Stream(s.clients[c])[i].task].client == c
  }

  ghost predicate StreamOk(s: State, t: nat)
    requires t < |s.tasks| && s.tasks[t].client < |s.clients| && s.tasks[t].at <= |s.tasks[t].preimages|
  {
    SentBy(Stream(s.clients[s.tasks[t].client]), t) == s.tasks[t].preimages[..s.tasks[t].at]
  }

  ghost predicate StreamInv(s: State)
  {
    && (forall c :: 0 <= c < |s.clients| ==> ItemsOk(s, c))
    && (forall t :: 0 <= t < |s.tasks| && TaskOk(s, t) ==> StreamOk(s, t))
  }

  /** A batch with a hash that a client missed was not announced before that client subscribed. */
  ghost predicate MissInv(hash: Preimage -> Hash, s: State)
  {
    forall c, b, p :: 0 <= c < |s.clients| && !s.clients[c].quit && 0 <= b < |s.batches|
                      && p in s.batches[b].preimages && hash(p) in s.clients[c].missed ==>
      s.batches[b].audience.None? || c in s.batches[b].audience.value
  }

  ghost predicate CoreInv(hash: Preimage -> Hash, s: State)
  {
    CacheInv(hash, s) && ClientInv(s) && TaskInv(s) && AudienceInv(s) && StreamInv(s) && MissInv(hash, s)
  }

  lemma {:induction false} CachedHolds(hash: Preimage -> Hash, cache: map<Hash, Preimage>, ps: seq<Preimage>)
    requires forall h :: h in cache ==> hash(cache[h]) == h
    ensures var after := Cached(hash, cache, ps);
            && (forall h :: h in after ==> hash(after[h]) == h)
            && (forall h :: h in cache ==> h in after)
            && (forall p :: p in ps ==> hash(p) in after)
            && (forall h :: h in after ==> after[h] in ps || (h in cache && after[h] == cache[h]))
    decreases |ps|
  {
    if ps != [] {
      CachedHolds(hash, cache[hash(ps[0]) := ps[0]], ps[1..]);
      assert forall p :: p in ps <==> p == ps[0] || p in ps[1..];
    }
  }

  lemma {:induction false} NothingSent(items: seq<Item>, t: nat)
    requires forall i :: 0 <= i < |items| ==> items[i].task != t
    ensures SentBy(items, t) == []
  {
    if items != [] { NothingSent(items[..|items| - 1], t); }
  }

  lemma SentNext(items: seq<Item>, item: Item, t: nat)
    ensures SentBy(items + [item], t) == SentBy(items, t) + if item.task == t then [item.preimage] else []
  {
    assert (items + [item])[..|items|] == items;
  }

  lemma KeepSubscribe(hash: Preimage -> Hash, s: State, ok: bool)
    requires CoreInv(hash, s)
    ensures CoreInv(hash, Apply(hash, s, Subscribe(ok)))
  {
    var s' := Apply(hash, s, Subscribe(ok));
    forall t | 0 <= t < |s'.tasks| ensures TaskOk(s', t) && StreamOk(s', t) { assert TaskOk(s, t) && StreamOk(s, t); }
    forall c | 0 <= c < |s'.clients| ensures ItemsOk(s', c) { if c < |s.clients| { assert ItemsOk(s, c); } }
    forall b, c | 0 <= b < |s'.batches| && s'.batches[b].audience.Some? && c in s'.batches[b].audience.value
      ensures AudienceOk(s', b, c)
    {
      assert AudienceOk(s, b, c);
    }
  }

  /** Steps that change neither tasks nor batches nor any client's stream. */
  lemma KeepStreams(s: State, s': State)
    requires TaskInv(s) && StreamInv(s) && s'.tasks == s.tasks && s'.batches == s.batches && |s'.clients| == |s.clients|
    requires forall c :: 0 <= c < |s.clients| ==> Stream(s'.clients[c]) == Stream(s.clients[c])
    ensures StreamInv(s')
  {
    forall t | 0 <= t < |s'.tasks| && TaskOk(s', t) ensures StreamOk(s', t) {
      assert TaskOk(s, t) && StreamOk(s, t);
    }
    forall c | 0 <= c < |s'.clients| ensures ItemsOk(s', c) { assert ItemsOk(s, c); }
  }

  lemma KeepLookup(hash: Preimage -> Hash, s: State, e: Step)
    requires CoreInv(hash, s) && Enabled(s, e) && e.Lookup?
    ensures CoreInv(hash, Apply(hash, s, e))
  {
    var s' := Apply(hash, s, e);
    KeepStreams(s, s');
    forall t | 0 <= t < |s'.tasks| ensures TaskOk(s', t) { assert TaskOk(s, t); }
  }

  lemma KeepStore(hash: Preimage -> Hash, s: State, ps: seq<Preimage>, stored: bool)
    requires CoreInv(hash, s)
    ensures CoreInv(hash, Apply(hash, s, Store(ps, stored)))
  {
    CachedHolds(hash, s.cache, ps);
    var s' := Apply(hash, s, Store(ps, stored));
    forall t | 0 <= t < |s'.tasks| ensures TaskOk(s', t) && StreamOk(s', t) { assert TaskOk(s, t) && StreamOk(s, t); }
    forall c | 0 <= c < |s'.clients| ensures ItemsOk(s', c) { assert ItemsOk(s, c); }
    forall b, c | 0 <= b < |s'.batches| && s'.batches[b].audience.Some? && c in s'.batches[b].audience.value
      ensures AudienceOk(s', b, c)
    {
      assert AudienceOk(s, b, c);
    }
  }

  /** What announcing changes. */
  ghost predicate Widened(s: State, s': State, b: nat, order: seq<nat>)
    requires b < |s.batches|
  {
    && s'.clients == s.clients
    && s'.tasks == s.tasks + Spawned(b, s.batches[b].preimages, order)
    && s'.batches == s.batches[b := s.batches[b].(audience := Some(Audience(order, |s.tasks|)))]
  }

  lemma KeepAnnounce(hash: Preimage -> Hash, s: State, b: nat, order: seq<nat>)
    requires CoreInv(hash, s) && Enabled(s, Announce(b, order))
    ensures CoreInv(hash, Apply(hash, s, Announce(b, order)))
  {
    var s' := Apply(hash, s, Announce(b, order));
    AnnounceTasks(s, s', b, order);
    AnnounceStreams(s, s', b, order);
    AnnounceAudience(s, s', b, order);
    AnnounceMisses(hash, s, b, order);
  }

  lemma AnnounceAudience(s: State, s': State, b: nat, order: seq<nat>)
    requires AudienceInv(s) && b < |s.batches| && Widened(s, s', b, order)
    ensures AudienceInv(s')
  {
    var m := Audience(order, |s.tasks|);
    forall b', c | 0 <= b' < |s'.batches| && s'.batches[b'].audience.Some? && c in s'.batches[b'].audience.value
      ensures AudienceOk(s', b', c)
    {
      if b' != b {
        assert AudienceOk(s, b', c);
      } else {
        NewAudience(s.tasks, b, s.batches[b].preimages, order, m[c] - |s.tasks|);
      }
    }
  }

  lemma NewAudience(tasks: seq<Task>, b: nat, preimages: seq<Preimage>, order: seq<nat>, i: nat)
    requires i < |order|
    ensures (tasks + Spawned(b, preimages, order))[|tasks| + i] == Task(b, order[i], preimages, 0, false)
  {
  }

  lemma AnnounceMisses(hash: Preimage -> Hash, s: State, b: nat, order: seq<nat>)
    requires CoreInv(hash, s) && Enabled(s, Announce(b, order))
    ensures MissInv(hash, Apply(hash, s, Announce(b, order)))
  {
  }

  lemma AnnounceTasks(s: State, s': State, b: nat, order: seq<nat>)
    requires TaskInv(s) && b < |s.batches| && s.batches[b].audience.None? && Widened(s, s', b, order)
    requires Enumerates(order, s.subscribers) && ClientInv(s)
    ensures TaskInv(s')
  {
    forall t | 0 <= t < |s'.tasks| ensures TaskOk(s', t) {
      if t < |s.tasks| {
        assert TaskOk(s, t);
      } else {
        var i := t - |s.tasks|;
        assert order[i] in order;
        AudienceAt(order, |s.tasks|, i);
        NewAudience(s.tasks, b, s.batches[b].preimages, order, i);
        IsServed(s', t, b, order[i], Audience(order, |s.tasks|));
      }
    }
  }

  lemma AudienceAt(order: seq<nat>, first: nat, i: nat)
    requires i < |order| && forall i, j :: 0 <= i < j < |order| ==> order[i] != order[j]
    ensures order[i] in Audience(order, first) && Audience(order, first)[order[i]] == first + i
  {
    var c := order[i];
    assert c in order;
    var k := Audience(order, first)[c] - first;
    assert order[k] == c;
  }

  lemma IsServed(s: State, t: nat, b: nat, c: nat, m: map<nat, nat>)
    requires t < |s.tasks| && b < |s.batches| && c < |s.clients| && c in m && m[c] == t
    requires s.tasks[t] == Task(b, c, s.batches[b].preimages, 0, false) && s.batches[b].audience == Some(m)
    ensures TaskOk(s, t)
  {
  }

  lemma AnnounceStreams(s: State, s': State, b: nat, order: seq<nat>)
    requires TaskInv(s) && StreamInv(s) && b < |s.batches| && Widened(s, s', b, order)
    ensures StreamInv(s')
  {
    forall c | 0 <= c < |s'.clients| ensures ItemsOk(s', c) { assert ItemsOk(s, c); }
    forall t | 0 <= t < |s'.tasks| && TaskOk(s', t) ensures StreamOk(s', t) {
      if t < |s.tasks| {
        assert TaskOk(s, t) && StreamOk(s, t);
      } else {
        Unsent(s, s'.tasks[t].client, t);
      }
    }
  }

  lemma Unsent(s: State, c: nat, t: nat)
    requires StreamInv(s) && c < |s.clients| && t >= |s.tasks|
    ensures SentBy(Stream(s.clients[c]), t) == []
  {
    assert ItemsOk(s, c);
    NothingSent(Stream(s.clients[c]), t);
  }

  lemma KeepSend(hash: Preimage -> Hash, s: State, t: nat)
    requires CoreInv(hash, s) && Enabled(s, Send(t))
    ensures CoreInv(hash, Apply(hash, s, Send(t)))
  {
    var s' := Apply(hash, s, Send(t));
    forall u | 0 <= u < |s'.tasks| ensures TaskOk(s', u) && StreamOk(s', u) { SendTask(hash, s, t, u); }
    forall c | 0 <= c < |s'.clients| ensures ItemsOk(s', c) {
      assert ItemsOk(s, c);
      if c == s.tasks[t].client {
        assert Stream(s'.clients[c]) == Stream(s.clients[c]) + [s'.clients[c].channel[|s.clients[c].channel|]];
      }
    }
    forall b, c | 0 <= b < |s'.batches| && s'.batches[b].audience.Some? && c in s'.batches[b].audience.value
      ensures AudienceOk(s', b, c)
    {
      assert AudienceOk(s, b, c);
    }
  }

  lemma SendTask(hash: Preimage -> Hash, s: State, t: nat, u: nat)
    requires CoreInv(hash, s) && Enabled(s, Send(t)) && u < |s.tasks|
    ensures var s' := Apply(hash, s, Send(t)); TaskOk(s', u) && StreamOk(s', u)
  {
    assert TaskOk(s, t) && TaskOk(s, u) && StreamOk(s, u);
    var s' := Apply(hash, s, Send(t));
    assert TaskOk(s', u);
    var c := s.tasks[t].client;
    if s.tasks[u].client == c {
      SentOn(s, s', t, u);
    }
  }

  lemma SentOn(s: State, s': State, t: nat, u: nat)
    requires t < |s.tasks| && u < |s.tasks| && |s'.tasks| == |s.tasks|
    requires s.tasks[u].client == s.tasks[t].client == s'.tasks[u].client
    requires s.tasks[t].client < |s.clients| == |s'.clients|
    requires s.tasks[t].at < |s.tasks[t].preimages| && s.tasks[u].at <= |s.tasks[u].preimages|
    requires s'.tasks[u] == if u == t then s.tasks[u].(at := s.tasks[u].at + 1) else s.tasks[u]
    requires var item := Item(t, s.tasks[t].preimages[s.tasks[t].at]);
             var c := s.clients[s.tasks[t].client];
             s'.clients[s.tasks[t].client] == c.(channel := c.channel + [item])
    requires StreamOk(s, u)
    ensures StreamOk(s', u)
  {
    var c := s.tasks[t].client;
    var item := Item(t, s.tasks[t].preimages[s.tasks[t].at]);
    assert Stream(s'.clients[c]) == Stream(s.clients[c]) + [item];
    SentNext(Stream(s.clients[c]), item, u);
  }

  lemma KeepGiveUp(hash: Preimage -> Hash, s: State, t: nat)
    requires CoreInv(hash, s) && Enabled(s, GiveUp(t))
    ensures CoreInv(hash, Apply(hash, s, GiveUp(t)))
  {
    var s' := Apply(hash, s, GiveUp(t));
    forall u | 0 <= u < |s'.tasks| ensures TaskOk(s', u) && StreamOk(s', u) { assert TaskOk(s, u) && StreamOk(s, u); }
    forall c | 0 <= c < |s'.clients| ensures ItemsOk(s', c) { assert ItemsOk(s, c); }
    forall b, c | 0 <= b < |s'.batches| && s'.batches[b].audience.Some? && c in s'.batches[b].audience.value
      ensures AudienceOk(s', b, c)
    {
      assert AudienceOk(s, b, c);
    }
  }

  lemma KeepReceive(hash: Preimage -> Hash, s: State, c: nat)
    requires CoreInv(hash, s) && Enabled(s, Receive(c))
    ensures CoreInv(hash, Apply(hash, s, Receive(c)))
  {
    var s' := Apply(hash, s, Receive(c));
    KeepStreams(s, s');
    forall t | 0 <= t < |s'.tasks| ensures TaskOk(s', t) { assert TaskOk(s, t); }
  }

  lemma KeepCancel(hash: Preimage -> Hash, s: State, c: nat)
    requires CoreInv(hash, s) && Enabled(s, Cancel(c))
    ensures CoreInv(hash, Apply(hash, s, Cancel(c)))
  {
    var s' := Apply(hash, s, Cancel(c));
    KeepStreams(s, s');
    forall t | 0 <= t < |s'.tasks| ensures TaskOk(s', t) { assert TaskOk(s, t); }
  }

  ghost predicate Inv(hash: Preimage -> Hash, s: State) { CoreInv(hash, s) && SourceInv(s) }

  lemma StepKeepsInv(hash: Preimage -> Hash, s: State, e: Step)
    requires Inv(hash, s) && Enabled(s, e)
    ensures Inv(hash, Apply(hash, s, e))
  {
    SourceKept(hash, s, e);
    match e
    case Subscribe(ok) => KeepSubscribe(hash, s, ok);
    case Lookup(_, _, _) => KeepLookup(hash, s, e);
    case Store(ps, stored) => KeepStore(hash, s, ps, stored);
    case Announce(b, order) => KeepAnnounce(hash, s, b, order);
    case Send(t) => KeepSend(hash, s, t);
    case GiveUp(t) => KeepGiveUp(hash, s, t);
    case Receive(c) => KeepReceive(hash, s, c);
    case Cancel(c) => KeepCancel(hash, s, c);
  }

  lemma {:induction false} RunKeepsInv(hash: Preimage -> Hash, s: State, run: seq<Step>)
    requires Inv(hash, s) && Legal(hash, s, run)
    ensures Inv(hash, Exec(hash, s, run))
    decreases |run|
  {
    if run != [] {
      StepKeepsInv(hash, s, run[0]);
      RunKeepsInv(hash, Apply(hash, s, run[0]), run[1..]);
    }
  }
}
