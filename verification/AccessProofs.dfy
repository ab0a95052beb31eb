/** What the peer access manager keeps over whole runs of its events. */
module AccessProofs {
  import opened Options
  import opened AccessMan

  /**
    The events.  Connect is admission as one step: the verdict of the permission
    query decides whether the peer is added (an outbound peer is added whatever
    the verdict) and is what it is added with.  Add is the second half alone,
    with any arguments.
  */
  datatype Event =
    | Connect(p: Peer, inbound: bool, ban: BanCheck)
    | Add(p: Peer, access: Access, inbound: bool)
    | Disconnect(p: Peer)
    | PendingOpened(p: Peer)
    | PendingClosed(p: Peer)
    | Opened(p: Peer)

  function Step(s: State, e: Event, maxSlots: int): State
  {
    match e
    case Connect(p, inbound, ban) =>
      var (access, err) := AssignPerms(s, p, ban, maxSlots);
      if inbound && err.Some? then s else AddPeer(s, p, access, inbound)
    case Add(p, access, inbound) => AddPeer(s, p, access, inbound)
    case Disconnect(p) => RemovePeer(s, p)
    case PendingOpened(p) => PendingOpen(s, p).0
    case PendingClosed(p) => PendingClose(s, p, maxSlots).0
    case Opened(p) => OpenChan(s, p).0
  }

  function Exec(s: State, run: seq<Event>, maxSlots: int): State
    decreases |run|
  {
    if run == [] then s else Exec(Step(s, run[0], maxSlots), run[1..], maxSlots)
  }

  /** A manager that has just read the channel counts from disk. */
  function Started(counts: map<Peer, ChanCount>): State { State(counts, map[], 0) }

  /** No half of an admission runs on its own. */
  predicate WholeAdmissions(run: seq<Event>)
  {
    forall i :: 0 <= i < |run| ==> !run[i].Add?
  }

  lemma {:induction false} ExecConcat(s: State, a: seq<Event>, b: seq<Event>, maxSlots: int)
    ensures Exec(s, a + b, maxSlots) == Exec(Exec(s, a, maxSlots), b, maxSlots)
    decreases |a|
  {
    if a == [] {
      assert a + b == b;
    } else {
      assert (a + b)[1..] == a[1..] + b;
      ExecConcat(Step(s, a[0], maxSlots), a[1..], b, maxSlots);
    }
  }

  // ----- The counting equation --------------------------------------------

  function RestrictedPeers(s: State): set<Peer>
  {
    set p | p in s.scores && s.scores[p] == Restricted
  }

  predicate Counted(s: State) { s.numRestricted == |RestrictedPeers(s)| }

  lemma Without(peers: set<Peer>, p: Peer)
    ensures |peers| == |peers - {p}| + if p in peers then 1 else 0
  {
    if p in peers { assert peers == (peers - {p}) + {p}; } else { assert peers == peers - {p}; }
  }

  /** How the set of restricted peers follows the score of one peer. */
  lemma ScoreChange(s: State, t: State, p: Peer)
    requires forall q :: q != p ==> (q in s.scores <==> q in t.scores)
    requires forall q :: q != p && q in s.scores ==> s.scores[q] == t.scores[q]
    ensures |RestrictedPeers(t)| == |RestrictedPeers(s)|
              - (if p in RestrictedPeers(s) then 1 else 0) + (if p in RestrictedPeers(t) then 1 else 0)
  {
    assert RestrictedPeers(s) - {p} == RestrictedPeers(t) - {p};
    Without(RestrictedPeers(s), p);
    Without(RestrictedPeers(t), p);
  }

  lemma StepCounts(s: State, e: Event, maxSlots: int)
    requires Counted(s)
    ensures Counted(Step(s, e, maxSlots))
  {
    ScoreChange(s, Step(s, e, maxSlots), e.p);
  }

  /** Under any interleaving of events, with any arguments, the counter is exact. */
  lemma {:induction false} RunCounts(s: State, run: seq<Event>, maxSlots: int)
    requires Counted(s)
    ensures Counted(Exec(s, run, maxSlots))
    decreases |run|
  {
    if run != [] {
      StepCounts(s, run[0], maxSlots);
      RunCounts(Step(s, run[0], maxSlots), run[1..], maxSlots);
    }
  }

  lemma CounterIsExact(counts: map<Peer, ChanCount>, run: seq<Event>, maxSlots: int)
    ensures var t := Exec(Started(counts), run, maxSlots); t.numRestricted == |RestrictedPeers(t)| >= 0
  {
    assert RestrictedPeers(Started(counts)) == {};
    RunCounts(Started(counts), run, maxSlots);
  }

  // ----- How the two maps fit together ------------------------------------

  predicate Recorded(s: State, p: Peer) { p in s.info && s.info[p].open }

  predicate Idle(c: ChanCount) { !c.open && c.pending == 0 }

  /**
    A connected peer is protected exactly if it has an open or closed channel
    recorded, and a restricted one has no channel at all.
  */
  ghost predicate Consistent(s: State)
  {
    && (forall p :: p in s.scores ==> (s.scores[p] == Protected <==> Recorded(s, p)))
    && (forall p :: p in s.scores && s.scores[p] == Restricted && p in s.info ==> Idle(s.info[p]))
  }

  /** Adding a peer with an access that its recorded channels do not bear out. */
  predicate Unfit(s: State, e: Event)
  {
    e.Add? && e.p !in s.scores &&
    match e.access
    case Protected => !Recorded(s, e.p)
    case Temporary => Recorded(s, e.p)
    case Restricted => e.inbound && e.p in s.info && !Idle(s.info[e.p])
  }

  predicate NoneUnfit(s: State, run: seq<Event>, maxSlots: int)
    decreases |run|
  {
    run == [] || (!Unfit(s, run[0]) && NoneUnfit(Step(s, run[0], maxSlots), run[1..], maxSlots))
  }

  ghost predicate ConsistentThroughout(s: State, run: seq<Event>, maxSlots: int)
    decreases |run|
  {
    Consistent(s) && (run == [] || ConsistentThroughout(Step(s, run[0], maxSlots), run[1..], maxSlots))
  }

  lemma StepConsistent(s: State, e: Event, maxSlots: int)
    requires Consistent(s)
    ensures Consistent(Step(s, e, maxSlots)) <==> !Unfit(s, e)
  {
    if e.Add? { AddConsistent(s, e, maxSlots); } else { OtherConsistent(s, e, maxSlots); }
  }

  lemma AddConsistent(s: State, e: Event, maxSlots: int)
    requires Consistent(s) && e.Add?
    ensures Consistent(Step(s, e, maxSlots)) <==> !Unfit(s, e)
  {
    var t := Step(s, e, maxSlots);
    if e.p !in s.scores && Unfit(s, e) { assert e.p in t.scores && t.scores[e.p] == e.access; }
  }

  lemma OtherConsistent(s: State, e: Event, maxSlots: int)
    requires Consistent(s) && !e.Add?
    ensures Consistent(Step(s, e, maxSlots))
  {
    match e
    case Connect(p, inbound, ban) => ConnectConsistent(s, p, inbound, ban, maxSlots);
    case PendingClosed(p) => PendingClosedConsistent(s, p, maxSlots);
    case _ => RestConsistent(s, e, maxSlots);
  }

  lemma ConnectConsistent(s: State, p: Peer, inbound: bool, ban: BanCheck, maxSlots: int)
    requires Consistent(s)
    ensures Consistent(Step(s, Connect(p, inbound, ban), maxSlots))
  {
  }

  lemma PendingClosedConsistent(s: State, p: Peer, maxSlots: int)
    requires Consistent(s)
    ensures Consistent(Step(s, PendingClosed(p), maxSlots))
  {
  }

  lemma RestConsistent(s: State, e: Event, maxSlots: int)
    requires Consistent(s) && (e.Disconnect? || e.PendingOpened? || e.Opened?)
    ensures Consistent(Step(s, e, maxSlots))
  {
  }

  /**
    Over runs of all events, admissions split in any way: the maps fit together
    throughout exactly when no peer is added with an access that does not fit.
  */
  lemma {:induction false} RunConsistent(s: State, run: seq<Event>, maxSlots: int)
    requires Consistent(s)
    ensures ConsistentThroughout(s, run, maxSlots) <==> NoneUnfit(s, run, maxSlots)
    ensures NoneUnfit(s, run, maxSlots) ==> Consistent(Exec(s, run, maxSlots))
    decreases |run|
  {
    if run != [] {
      StepConsistent(s, run[0], maxSlots);
      var t := Step(s, run[0], maxSlots);
      if Consistent(t) { RunConsistent(t, run[1..], maxSlots); }
    }
  }

  /** Whole admissions always fit. */
  lemma {:induction false} WholeFits(s: State, run: seq<Event>, maxSlots: int)
    requires WholeAdmissions(run)
    ensures NoneUnfit(s, run, maxSlots)
    decreases |run|
  {
    if run != [] { WholeFits(Step(s, run[0], maxSlots), run[1..], maxSlots); }
  }

  /** No start-up entry is without channels. */
  predicate NoIdleEntry(counts: map<Peer, ChanCount>)
  {
    forall p :: p in counts ==> !Idle(counts[p])
  }

  /** Moreover a restricted peer has no entry, and an entry without channels is a connected peer's. */
  ghost predicate Tight(s: State)
  {
    && Consistent(s)
    && (forall p :: p in s.scores && s.scores[p] == Restricted ==> p !in s.info)
    && (forall p :: p in s.info && Idle(s.info[p]) ==> p in s.scores)
  }

  lemma StepTight(s: State, e: Event, maxSlots: int)
    requires Tight(s) && !e.Add?
    ensures Tight(Step(s, e, maxSlots))
  {
    StepConsistent(s, e, maxSlots);
  }

  // ----- The slot bound ---------------------------------------------------

  lemma StepWithinBound(s: State, e: Event, maxSlots: int)
    requires Tight(s) && s.numRestricted <= maxSlots && !e.Add?
    ensures Step(s, e, maxSlots).numRestricted <= maxSlots
  {
  }

  lemma {:induction false} RunWithinBound(s: State, run: seq<Event>, maxSlots: int)
    requires Tight(s) && s.numRestricted <= maxSlots && WholeAdmissions(run)
    ensures Exec(s, run, maxSlots).numRestricted <= maxSlots
    decreases |run|
  {
    if run != [] {
      StepWithinBound(s, run[0], maxSlots);
      StepTight(s, run[0], maxSlots);
      RunWithinBound(Step(s, run[0], maxSlots), run[1..], maxSlots);
    }
  }

  ghost predicate AlwaysWithin(counts: map<Peer, ChanCount>, maxSlots: nat)
  {
    forall run :: WholeAdmissions(run) ==> Exec(Started(counts), run, maxSlots).numRestricted <= maxSlots
  }

  /**
    The bound on restricted slots holds in every run exactly when no start-up
    entry is idle: such an entry makes its owner an existing peer, which skips
    the slot check.
  */
  lemma SlotBound(counts: map<Peer, ChanCount>, maxSlots: nat)
    ensures AlwaysWithin(counts, maxSlots) <==> NoIdleEntry(counts)
  {
    if NoIdleEntry(counts) {
      forall run | WholeAdmissions(run)
        ensures Exec(Started(counts), run, maxSlots).numRestricted <= maxSlots
      {
        RunWithinBound(Started(counts), run, maxSlots);
      }
    } else {
      var p :| p in counts && Idle(counts[p]);
      IdleEntryBreaksBound(counts, maxSlots, p);
    }
  }

  lemma {:induction false} UpperBound(peers: set<Peer>) returns (m: nat)
    ensures forall p :: p in peers ==> p < m
  {
    if peers == {} {
      m := 0;
    } else {
      var p :| p in peers;
      var below := UpperBound(peers - {p});
      m := if p < below then below else p + 1;
      forall q | q in peers ensures q < m { assert q == p || q in peers - {p}; }
    }
  }

  /** `n` strangers connect. */
  function Strangers(first: Peer, n: nat): (run: seq<Event>)
    ensures WholeAdmissions(run)
  {
    if n == 0 then [] else Strangers(first, n - 1) + [Connect(first + n - 1, true, Clear)]
  }

  lemma {:induction false} StrangersFillSlots(counts: map<Peer, ChanCount>, maxSlots: nat, first: Peer, n: nat)
    requires n <= maxSlots && forall p :: p in counts ==> p < first
    ensures var t := Exec(Started(counts), Strangers(first, n), maxSlots);
            t.info == counts && t.numRestricted == n
            && forall p :: p in t.scores ==> first <= p < first + n
  {
    if n > 0 {
      StrangersFillSlots(counts, maxSlots, first, n - 1);
      ExecConcat(Started(counts), Strangers(first, n - 1), [Connect(first + n - 1, true, Clear)], maxSlots);
    }
  }

  lemma IdleEntryBreaksBound(counts: map<Peer, ChanCount>, maxSlots: nat, p: Peer)
    requires p in counts && Idle(counts[p])
    ensures !AlwaysWithin(counts, maxSlots)
  {
    var first := UpperBound(counts.Keys);
    StrangersFillSlots(counts, maxSlots, first, maxSlots);
    var run := Strangers(first, maxSlots);
    var last := [Connect(p, true, Clear)];
    ExecConcat(Started(counts), run, last, maxSlots);
    assert WholeAdmissions(run + last);
  }

  /** Past the bound nothing holds the next demotion back: the refusal tests for equality. */
  lemma PastTheBound(s: State, p: Peer, maxSlots: int)
    requires s.numRestricted > maxSlots && p !in s.scores && p !in s.info
    ensures var t := Exec(s, [Connect(p, false, Clear), PendingOpened(p), PendingClosed(p)], maxSlots);
            t.numRestricted == s.numRestricted + 1 && t.scores == s.scores[p := Restricted] && t.info == s.info
  {
    var s1 := Step(s, Connect(p, false, Clear), maxSlots);
    var s2 := Step(s1, PendingOpened(p), maxSlots);
    var s3 := Step(s2, PendingClosed(p), maxSlots);
    assert s1.scores == s.scores[p := Temporary] && s1.info == s.info[p := ChanCount(false, 0)];
    assert s2.info == s.info[p := ChanCount(false, 1)];
    assert s3.info == s.info && s3.scores == s.scores[p := Restricted];
    ExecThree(s, Connect(p, false, Clear), PendingOpened(p), PendingClosed(p), maxSlots);
  }

  lemma ExecThree(s: State, d: Event, e: Event, f: Event, maxSlots: int)
    ensures Exec(s, [d, e, f], maxSlots) == Step(Step(Step(s, d, maxSlots), e, maxSlots), f, maxSlots)
  {
    assert [d, e, f][1..] == [e, f];
    ExecTwo(Step(s, d, maxSlots), e, f, maxSlots);
  }

  /** Strangers that connect outbound and fall back from a pending channel each add one. */
  lemma {:induction false} ExcessGrows(s: State, first: Peer, k: nat, maxSlots: int) returns (run: seq<Event>)
    requires s.numRestricted > maxSlots
    requires (forall p :: p in s.scores ==> p < first) && (forall p :: p in s.info ==> p < first)
    ensures WholeAdmissions(run) && Exec(s, run, maxSlots).numRestricted == s.numRestricted + k
    decreases k
  {
    if k == 0 {
      run := [];
    } else {
      var head := [Connect(first, false, Clear), PendingOpened(first), PendingClosed(first)];
      PastTheBound(s, first, maxSlots);
      var rest := ExcessGrows(Exec(s, head, maxSlots), first + 1, k - 1, maxSlots);
      run := head + rest;
      ExecConcat(s, head, rest, maxSlots);
    }
  }

  /** With one idle start-up entry the excess is without limit. */
  lemma IdleEntryUnbounded(counts: map<Peer, ChanCount>, maxSlots: nat, p: Peer, k: nat)
    requires p in counts && Idle(counts[p])
    ensures exists run :: WholeAdmissions(run) && Exec(Started(counts), run, maxSlots).numRestricted == maxSlots + 1 + k
  {
    var first := UpperBound(counts.Keys);
    var run := Strangers(first, maxSlots) + [Connect(p, true, Clear)];
    StrangersFillSlots(counts, maxSlots, first, maxSlots);
    ExecConcat(Started(counts), Strangers(first, maxSlots), [Connect(p, true, Clear)], maxSlots);
    var s := Exec(Started(counts), run, maxSlots);
    var more := ExcessGrows(s, first + maxSlots, k, maxSlots);
    ExecConcat(Started(counts), run, more, maxSlots);
    assert WholeAdmissions(run + more);
  }

  /** Without the rest of admission, adding a peer keeps the bound unless it takes a slot that is gone. */
  lemma AddWithinBound(s: State, p: Peer, access: Access, inbound: bool, maxSlots: int)
    requires s.numRestricted <= maxSlots
    ensures AddPeer(s, p, access, inbound).numRestricted <= maxSlots <==>
              !(p !in s.scores && access == Restricted && inbound && s.numRestricted == maxSlots)
  {
  }

  /** Adding a peer that takes a slot that is gone. */
  predicate TakesGoneSlot(s: State, e: Event, maxSlots: int)
  {
    e.Add? && e.p !in s.scores && e.access == Restricted && e.inbound && s.numRestricted == maxSlots
  }

  predicate NoneTakesGoneSlot(s: State, run: seq<Event>, maxSlots: int)
    decreases |run|
  {
    run == [] ||
    (!TakesGoneSlot(s, run[0], maxSlots) && NoneTakesGoneSlot(Step(s, run[0], maxSlots), run[1..], maxSlots))
  }

  /** The bound holds in every state of the run. */
  predicate WithinThroughout(s: State, run: seq<Event>, maxSlots: int)
    decreases |run|
  {
    s.numRestricted <= maxSlots && (run == [] || WithinThroughout(Step(s, run[0], maxSlots), run[1..], maxSlots))
  }

  /** An entry without channels belongs to a connected peer. */
  predicate IdleConnected(s: State)
  {
    forall p :: p in s.info && Idle(s.info[p]) ==> p in s.scores
  }

  lemma StepAnyWithinBound(s: State, e: Event, maxSlots: int)
    requires IdleConnected(s) && s.numRestricted <= maxSlots
    ensures IdleConnected(Step(s, e, maxSlots))
    ensures Step(s, e, maxSlots).numRestricted <= maxSlots <==> !TakesGoneSlot(s, e, maxSlots)
  {
  }

  /**
    Over runs of all events, admissions split in any way: the bound holds
    throughout exactly when no peer is added to a slot that is gone.
  */
  lemma {:induction false} SplitAdmissions(s: State, run: seq<Event>, maxSlots: int)
    requires IdleConnected(s) && s.numRestricted <= maxSlots
    ensures WithinThroughout(s, run, maxSlots) <==> NoneTakesGoneSlot(s, run, maxSlots)
    decreases |run|
  {
    if run != [] {
      StepAnyWithinBound(s, run[0], maxSlots);
      var t := Step(s, run[0], maxSlots);
      if t.numRestricted <= maxSlots { SplitAdmissions(t, run[1..], maxSlots); }
    }
  }

  /**
    A verdict taken before a demotion and used after it: the bound is exceeded.
    Peer `b` frees the only slot by a pending channel, `a` is admitted to it, and
    before `a` is added `b` falls back into the slot.
  */
  lemma StaleVerdict(a: Peer, b: Peer)
    requires a != b
    ensures var s := Exec(Started(map[]), [Connect(b, true, Clear), PendingOpened(b)], 1);
            && AssignPerms(s, a, Clear, 1) == (Restricted, None)
            && Exec(s, [PendingClosed(b), Add(a, Restricted, true)], 1).numRestricted == 2
  {
    var s0 := Started(map[]);
    var s1 := Step(s0, Connect(b, true, Clear), 1);
    var s2 := Step(s1, PendingOpened(b), 1);
    var s3 := Step(s2, PendingClosed(b), 1);
    ExecTwo(s0, Connect(b, true, Clear), PendingOpened(b), 1);
    ExecTwo(s2, PendingClosed(b), Add(a, Restricted, true), 1);
    assert s1.scores == map[b := Restricted] && s1.numRestricted == 1;
    assert s2.scores == map[b := Temporary] && s2.info == map[b := ChanCount(false, 1)] && s2.numRestricted == 0;
    assert s3.scores == map[b := Restricted] && s3.numRestricted == 1;
  }

  lemma ExecTwo(s: State, d: Event, e: Event, maxSlots: int)
    ensures Exec(s, [d, e], maxSlots) == Step(Step(s, d, maxSlots), e, maxSlots)
  {
    assert [d, e][1..] == [e] && [e][1..] == [];
    assert Exec(Step(s, d, maxSlots), [e], maxSlots) == Step(Step(s, d, maxSlots), e, maxSlots);
  }

  /** The pending channels counted for a peer. */
  function Count(s: State, p: Peer): nat
  {
    if p in s.info then s.info[p].pending as nat else 0
  }

  // ----- Protected peers --------------------------------------------------

  /** The outbound upgrade writes an empty entry over what is recorded of the peer. */
  predicate Resets(s: State, e: Event, p: Peer)
  {
    e == Add(p, Restricted, false) && p !in s.scores
  }

  /** What drops a recorded channel: that, or an event of a peer whose score does not fit its record. */
  predicate Loses(s: State, e: Event, p: Peer)
  {
    || Resets(s, e, p)
    || (e == PendingOpened(p) && p in s.scores && s.scores[p] == Restricted)
    || (e == PendingClosed(p) && p in s.scores && s.scores[p] == Temporary && Count(s, p) == 1)
  }

  predicate NoneLoses(s: State, run: seq<Event>, maxSlots: int, p: Peer)
    decreases |run|
  {
    run == [] || (!Loses(s, run[0], p) && NoneLoses(Step(s, run[0], maxSlots), run[1..], maxSlots, p))
  }

  predicate NoneResets(s: State, run: seq<Event>, maxSlots: int, p: Peer)
    decreases |run|
  {
    run == [] || (!Resets(s, run[0], p) && NoneResets(Step(s, run[0], maxSlots), run[1..], maxSlots, p))
  }

  predicate RecordedThroughout(s: State, run: seq<Event>, maxSlots: int, p: Peer)
    decreases |run|
  {
    Recorded(s, p) && (run == [] || RecordedThroughout(Step(s, run[0], maxSlots), run[1..], maxSlots, p))
  }

  lemma StepKeepsRecord(s: State, e: Event, maxSlots: int, p: Peer)
    requires Recorded(s, p)
    ensures Recorded(Step(s, e, maxSlots), p) <==> !Loses(s, e, p)
    ensures Consistent(s) ==> (Loses(s, e, p) <==> Resets(s, e, p))
  {
  }

  /** What every query answers for a peer. */
  ghost predicate AnswersProtected(s: State, p: Peer, maxSlots: int)
  {
    && HasPeer(s, p) == (Protected, true)
    && (forall ban :: AssignPerms(s, p, ban, maxSlots) == (Protected, None))
    && AcceptIncoming(s, p, maxSlots) == (true, None)
  }

  /**
    Of all states and all runs of all events: a recorded channel stays recorded
    throughout exactly when no event loses it, and then every query answers
    protected.
  */
  lemma {:induction false} RecordIsKept(s: State, run: seq<Event>, maxSlots: int, p: Peer)
    requires Recorded(s, p)
    ensures RecordedThroughout(s, run, maxSlots, p) <==> NoneLoses(s, run, maxSlots, p)
    ensures NoneLoses(s, run, maxSlots, p) ==>
              Recorded(Exec(s, run, maxSlots), p) && AnswersProtected(Exec(s, run, maxSlots), p, maxSlots)
    decreases |run|
  {
    if run != [] {
      StepKeepsRecord(s, run[0], maxSlots, p);
      var t := Step(s, run[0], maxSlots);
      if Recorded(t, p) { RecordIsKept(t, run[1..], maxSlots, p); }
    }
  }

  /** While all admissions fit, only the outbound upgrade loses a record. */
  lemma {:induction false} OnlyResetsLose(s: State, run: seq<Event>, maxSlots: int, p: Peer)
    requires Consistent(s) && Recorded(s, p) && NoneUnfit(s, run, maxSlots)
    ensures NoneLoses(s, run, maxSlots, p) <==> NoneResets(s, run, maxSlots, p)
    decreases |run|
  {
    if run != [] {
      StepKeepsRecord(s, run[0], maxSlots, p);
      StepConsistent(s, run[0], maxSlots);
      var t := Step(s, run[0], maxSlots);
      if Recorded(t, p) { OnlyResetsLose(t, run[1..], maxSlots, p); }
    }
  }

  lemma {:induction false} WholeNeverResets(s: State, run: seq<Event>, maxSlots: int, p: Peer)
    requires WholeAdmissions(run)
    ensures NoneResets(s, run, maxSlots, p)
    decreases |run|
  {
    if run != [] { WholeNeverResets(Step(s, run[0], maxSlots), run[1..], maxSlots, p); }
  }

  lemma {:induction false} FitsConcat(s: State, a: seq<Event>, b: seq<Event>, maxSlots: int)
    ensures NoneUnfit(s, a + b, maxSlots) <==>
              NoneUnfit(s, a, maxSlots) && NoneUnfit(Exec(s, a, maxSlots), b, maxSlots)
    decreases |a|
  {
    if a == [] {
      assert a + b == b;
    } else {
      assert (a + b)[1..] == a[1..] + b;
      FitsConcat(Step(s, a[0], maxSlots), a[1..], b, maxSlots);
    }
  }

  /**
    From start-up, over runs whose admissions fit: a recorded open or closed
    channel protects its peer throughout exactly when the peer is not added as a
    restricted outbound one while it is away.
  */
  lemma ProtectedForGood(counts: map<Peer, ChanCount>, before: seq<Event>, after: seq<Event>, maxSlots: int, p: Peer)
    requires NoneUnfit(Started(counts), before + after, maxSlots)
    requires Recorded(Exec(Started(counts), before, maxSlots), p)
    ensures var s := Exec(Started(counts), before, maxSlots);
            RecordedThroughout(s, after, maxSlots, p) <==> NoneResets(s, after, maxSlots, p)
    ensures var t := Exec(Started(counts), before + after, maxSlots);
            NoneResets(Exec(Started(counts), before, maxSlots), after, maxSlots, p) ==>
              Recorded(t, p) && AnswersProtected(t, p, maxSlots) && (p in t.scores ==> t.scores[p] == Protected)
  {
    var s := Exec(Started(counts), before, maxSlots);
    FitsConcat(Started(counts), before, after, maxSlots);
    RunConsistent(Started(counts), before, maxSlots);
    RunConsistent(s, after, maxSlots);
    OnlyResetsLose(s, after, maxSlots, p);
    RecordIsKept(s, after, maxSlots, p);
    ExecConcat(Started(counts), before, after, maxSlots);
  }

  /** With whole admissions, always. */
  lemma ProtectedByWhole(counts: map<Peer, ChanCount>, before: seq<Event>, after: seq<Event>, maxSlots: int, p: Peer)
    requires WholeAdmissions(before) && WholeAdmissions(after)
    requires Recorded(Exec(Started(counts), before, maxSlots), p)
    ensures var t := Exec(Started(counts), before + after, maxSlots);
            Recorded(t, p) && AnswersProtected(t, p, maxSlots) && (p in t.scores ==> t.scores[p] == Protected)
  {
    WholeFits(Started(counts), before + after, maxSlots);
    WholeNeverResets(Exec(Started(counts), before, maxSlots), after, maxSlots, p);
    ProtectedForGood(counts, before, after, maxSlots, p);
  }

  /** A peer's channel opens and the peer leaves, between the verdict on an outbound connection to it and its use. */
  lemma RecordLost(p: Peer)
    ensures var before := [Connect(p, true, Clear), PendingOpened(p), Opened(p), Disconnect(p)];
            var s := Exec(Started(map[]), before, 1);
            && AssignPerms(Exec(Started(map[]), before[..1], 1), p, Clear, 1) == (Restricted, None)
            && Recorded(s, p) && !Unfit(s, Add(p, Restricted, false))
            && !Recorded(Step(s, Add(p, Restricted, false), 1), p)
  {
    var before := [Connect(p, true, Clear), PendingOpened(p), Opened(p), Disconnect(p)];
    var s0 := Started(map[]);
    var s1 := Step(s0, before[0], 1);
    var s2 := Step(s1, before[1], 1);
    var s3 := Step(s2, before[2], 1);
    assert s1.scores == map[p := Restricted] && s1.info == map[];
    assert s2.scores == map[p := Temporary] && s2.info == map[p := ChanCount(false, 1)];
    assert s3.scores == map[p := Protected] && s3.info == map[p := ChanCount(true, 0)];
    ExecOne(s0, before[0], 1);
    assert before[..1] == [before[0]];
    ExecTwo(s0, before[0], before[1], 1);
    ExecTwo(s2, before[2], before[3], 1);
    ExecConcat(s0, [before[0], before[1]], [before[2], before[3]], 1);
    assert before == [before[0], before[1]] + [before[2], before[3]];
  }

  lemma ExecOne(s: State, e: Event, maxSlots: int)
    ensures Exec(s, [e], maxSlots) == Step(s, e, maxSlots)
  {
    assert [e][1..] == [];
  }

  // ----- Refused demotions ------------------------------------------------

  /** The last pending channel closed while no restricted slot was free. */
  predicate Refused(s: State, p: Peer)
  {
    p in s.scores && s.scores[p] == Temporary && p !in s.info
  }

  lemma RefusalExactly(s: State, p: Peer, maxSlots: int)
    ensures PendingClose(s, p, maxSlots).1 == Some(NoMoreSlots) <==>
              && p in s.scores && s.scores[p] == Temporary && p in s.info
              && s.info[p].pending == 1 && s.numRestricted == maxSlots
    ensures PendingClose(s, p, maxSlots).1 == Some(NoMoreSlots) ==>
              Refused(PendingClose(s, p, maxSlots).0, p)
  {
  }

  lemma RefusalState(a: Peer, b: Peer)
    requires a != b
    ensures var run := [Connect(a, true, Clear), PendingOpened(a), Connect(b, true, Clear), PendingClosed(a)];
            Exec(Started(map[]), run, 1) == State(map[], map[a := Temporary, b := Restricted], 1)
  {
    var first, second := [Connect(a, true, Clear), PendingOpened(a)], [Connect(b, true, Clear), PendingClosed(a)];
    var s0 := Started(map[]);
    var s1 := Step(s0, Connect(a, true, Clear), 1);
    var s2 := Step(s1, PendingOpened(a), 1);
    var s3 := Step(s2, Connect(b, true, Clear), 1);
    var s4 := Step(s3, PendingClosed(a), 1);
    ExecConcat(s0, first, second, 1);
    ExecTwo(s0, Connect(a, true, Clear), PendingOpened(a), 1);
    ExecTwo(s2, Connect(b, true, Clear), PendingClosed(a), 1);
    assert first + second == [Connect(a, true, Clear), PendingOpened(a), Connect(b, true, Clear), PendingClosed(a)];
    assert s1.scores == map[a := Restricted] && s1.numRestricted == 1;
    assert s2.scores == map[a := Temporary] && s2.info == map[a := ChanCount(false, 1)] && s2.numRestricted == 0;
    assert s3.scores == map[a := Temporary, b := Restricted] && s3.info == s2.info && s3.numRestricted == 1;
    RefusalExactly(s3, a, 1);
    assert s4.info == map[];
  }

  /** Peer `b` takes the only slot after `a` has left it for a pending channel; then that channel closes. */
  lemma RefusalHappens(a: Peer, b: Peer)
    requires a != b
    ensures var run := [Connect(a, true, Clear), PendingOpened(a), Connect(b, true, Clear), PendingClosed(a)];
            WholeAdmissions(run) && Refused(Exec(Started(map[]), run, 1), a)
  {
    RefusalState(a, b);
  }

  /** Until it is removed, no event moves such a peer, and its channel events are all rejected. */
  lemma {:induction false} RefusedStays(s: State, run: seq<Event>, maxSlots: int, p: Peer)
    requires Refused(s, p) && Disconnect(p) !in run
    ensures var t := Exec(s, run, maxSlots);
            && Refused(t, p)
            && PendingOpen(t, p) == (t, Some(NoPendingPeerInfo))
            && PendingClose(t, p, maxSlots) == (t, Some(NoPendingPeerInfo))
            && OpenChan(t, p) == (t, Some(NoPendingPeerInfo))
    decreases |run|
  {
    if run != [] {
      assert run[0] != Disconnect(p);
      assert Refused(Step(s, run[0], maxSlots), p);
      RefusedStays(Step(s, run[0], maxSlots), run[1..], maxSlots, p);
    }
  }

  /**
    The counter could be derived from the two maps, as the type's comment
    suggests, exactly while no demotion stands refused.
  */
  lemma CounterFromMaps(s: State)
    requires Tight(s) && Counted(s)
    ensures s.numRestricted == |s.scores.Keys - s.info.Keys| <==> forall p :: !Refused(s, p)
  {
    var refused := set p | p in s.scores && Refused(s, p);
    Unlisted(s, refused);
    assert |s.scores.Keys - s.info.Keys| == |RestrictedPeers(s)| + |refused|;
    if p :| Refused(s, p) {
      assert p in refused;
    } else {
      assert refused == {};
    }
  }

  lemma {:induction false} RunTight(s: State, run: seq<Event>, maxSlots: int)
    requires Tight(s) && WholeAdmissions(run)
    ensures Tight(Exec(s, run, maxSlots))
    decreases |run|
  {
    if run != [] {
      StepTight(s, run[0], maxSlots);
      RunTight(Step(s, run[0], maxSlots), run[1..], maxSlots);
    }
  }

  /** The same in every run from start-up. */
  lemma CounterFromMapsInRuns(counts: map<Peer, ChanCount>, run: seq<Event>, maxSlots: int)
    requires NoIdleEntry(counts) && WholeAdmissions(run)
    ensures var t := Exec(Started(counts), run, maxSlots);
            t.numRestricted == |t.scores.Keys - t.info.Keys| <==> forall p :: !Refused(t, p)
  {
    RunTight(Started(counts), run, maxSlots);
    CounterIsExact(counts, run, maxSlots);
    CounterFromMaps(Exec(Started(counts), run, maxSlots));
  }

  /** No function of the channel counts and the connected peers gives the counter in all runs. */
  lemma NoFormula(formula: (map<Peer, ChanCount>, set<Peer>) -> int)
    ensures exists run :: WholeAdmissions(run)
              && var t := Exec(Started(map[]), run, 1); formula(t.info, t.scores.Keys) != t.numRestricted
  {
    var a: Peer, b: Peer := 0, 1;
    var s0 := Started(map[]);
    var short := [Connect(a, true, Clear)];
    var four := [Connect(a, true, Clear), PendingOpened(a), Connect(b, true, Clear), PendingClosed(a)];
    var long := four + [Disconnect(b)];
    ExecOne(s0, short[0], 1);
    RefusalState(a, b);
    ExecConcat(s0, four, [Disconnect(b)], 1);
    ExecOne(Exec(s0, four, 1), Disconnect(b), 1);
    var t, u := Exec(s0, short, 1), Exec(s0, long, 1);
    assert t.info == map[] && t.scores == map[a := Restricted] && t.numRestricted == 1;
    assert u.info == map[] && u.scores == map[a := Temporary] && u.numRestricted == 0;
    assert t.scores.Keys == u.scores.Keys == {a};
    assert WholeAdmissions(short) && WholeAdmissions(long);
  }

  lemma Unlisted(s: State, refused: set<Peer>)
    requires Tight(s) && refused == set p | p in s.scores && Refused(s, p)
    ensures s.scores.Keys - s.info.Keys == RestrictedPeers(s) + refused
    ensures RestrictedPeers(s) !! refused
  {
  }

  // ----- The inbound filter -----------------------------------------------

  /** The filter lets a peer through exactly when admission would then give it a score. */
  lemma FilterAgrees(s: State, p: Peer, maxSlots: int)
    ensures AcceptIncoming(s, p, maxSlots).0 <==> AssignPerms(s, p, Clear, maxSlots).1 != Some(NoMoreSlots)
    ensures AcceptIncoming(s, p, maxSlots).0 <==> p in Step(s, Connect(p, true, Clear), maxSlots).scores
    ensures AcceptIncoming(s, p, maxSlots).1
         == if AcceptIncoming(s, p, maxSlots).0 then None else Some(NoMoreSlots)
  {
  }
}
