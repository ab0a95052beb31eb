/** How the pending counts of the peer access manager cover the channels that are outstanding. */
module AccessPending {
  import opened Options
  import opened AccessMan
  import opened AccessProofs

  /** For each peer, the pending channels that were accepted and not yet closed or opened. */
  type Ledger = map<Peer, nat>

  function Owed(l: Ledger, p: Peer): nat { if p in l then l[p] else 0 }

  /** A pending close or an open must match a pending channel. */
  predicate Matches(l: Ledger, e: Event)
  {
    e.PendingClosed? || e.Opened? ==> Owed(l, e.p) > 0
  }

  function LedgerStep(s: State, l: Ledger, e: Event): Ledger
    requires Matches(l, e)
  {
    match e
    case PendingOpened(p) => if PendingOpen(s, p).1.None? then l[p := Owed(l, p) + 1] else l
    case PendingClosed(p) => l[p := Owed(l, p) - 1]
    case Opened(p) => l[p := Owed(l, p) - 1]
    case _ => l
  }

  ghost predicate Matched(s: State, l: Ledger, run: seq<Event>, maxSlots: int)
    decreases |run|
  {
    run == [] ||
    (Matches(l, run[0]) && Matched(Step(s, run[0], maxSlots), LedgerStep(s, l, run[0]), run[1..], maxSlots))
  }

  ghost function FinalLedger(s: State, l: Ledger, run: seq<Event>, maxSlots: int): Ledger
    requires Matched(s, l, run, maxSlots)
    decreases |run|
  {
    if run == [] then l
    else FinalLedger(Step(s, run[0], maxSlots), LedgerStep(s, l, run[0]), run[1..], maxSlots)
  }

  /** A peer with no recorded channel has at least as many pending ones counted as it is owed. */
  ghost predicate Covered(s: State, l: Ledger)
  {
    forall p :: !Recorded(s, p) ==> Owed(l, p) <= Count(s, p)
  }

  ghost predicate CoveredThroughout(s: State, l: Ledger, run: seq<Event>, maxSlots: int)
    requires Matched(s, l, run, maxSlots)
    decreases |run|
  {
    Covered(s, l) &&
    (run == [] ||
     CoveredThroughout(Step(s, run[0], maxSlots), LedgerStep(s, l, run[0]), run[1..], maxSlots))
  }

  // What makes the count of a peer fall short of what the peer is owed:

  /** the count is incremented past the largest number; */
  predicate WrapsUp(s: State, e: Event)
  {
    e.PendingOpened? && e.p in s.scores && s.scores[e.p] == Temporary && Count(s, e.p) == TWO_64 - 1
    && !Recorded(s, e.p)
  }

  /** the peer is owed channels, and the outbound upgrade writes an empty entry over them; */
  predicate Forgets(s: State, l: Ledger, e: Event) { Resets(s, e, e.p) && Owed(l, e.p) > 0 }

  /** or an event of a peer whose score does not fit its record. */
  predicate Misjudges(s: State, l: Ledger, e: Event)
  {
    && e.p in s.scores
    && (|| (e.PendingOpened? && s.scores[e.p] == Restricted && Owed(l, e.p) > 0)
        || (e.PendingOpened? && s.scores[e.p] == Protected && !Recorded(s, e.p) && Owed(l, e.p) == Count(s, e.p))
        || (e.PendingClosed? && s.scores[e.p] == Temporary && Recorded(s, e.p)
            && Count(s, e.p) == 1 && Owed(l, e.p) > 1))
  }

  predicate Uncovers(s: State, l: Ledger, e: Event) { WrapsUp(s, e) || Forgets(s, l, e) || Misjudges(s, l, e) }

  predicate NoneUncovers(s: State, l: Ledger, run: seq<Event>, maxSlots: int)
    requires Matched(s, l, run, maxSlots)
    decreases |run|
  {
    run == [] ||
    (!Uncovers(s, l, run[0]) &&
     NoneUncovers(Step(s, run[0], maxSlots), LedgerStep(s, l, run[0]), run[1..], maxSlots))
  }

  /** The count of the event's peer is decremented below zero. */
  predicate WrapsDown(s: State, e: Event)
  {
    (e.PendingClosed? || e.Opened?) && e.p in s.scores && s.scores[e.p] == Temporary
    && e.p in s.info && s.info[e.p].pending == 0
  }

  predicate NoneWrapsDown(s: State, run: seq<Event>, maxSlots: int)
    decreases |run|
  {
    run == [] || (!WrapsDown(s, run[0]) && NoneWrapsDown(Step(s, run[0], maxSlots), run[1..], maxSlots))
  }

  lemma OthersCovered(s: State, l: Ledger, e: Event, maxSlots: int)
    requires Covered(s, l) && Matches(l, e)
    ensures var t, l' := Step(s, e, maxSlots), LedgerStep(s, l, e);
            Covered(t, l') <==> (!Recorded(t, e.p) ==> Owed(l', e.p) <= Count(t, e.p))
  {
    var t, l' := Step(s, e, maxSlots), LedgerStep(s, l, e);
    forall q | q != e.p ensures !Recorded(t, q) ==> Owed(l', q) <= Count(t, q) {
      assert !Recorded(s, q) ==> Owed(l, q) <= Count(s, q);
    }
  }

  lemma StepCovers(s: State, l: Ledger, e: Event, maxSlots: int)
    requires Covered(s, l) && Matches(l, e)
    ensures Covered(Step(s, e, maxSlots), LedgerStep(s, l, e)) <==> !Uncovers(s, l, e)
  {
    OthersCovered(s, l, e, maxSlots);
    assert !Recorded(s, e.p) ==> Owed(l, e.p) <= Count(s, e.p);
  }

  /** While scores fit records nothing is misjudged, and no count wraps below zero. */
  lemma StepFits(s: State, l: Ledger, e: Event)
    requires Consistent(s) && Covered(s, l) && Matches(l, e)
    ensures !Misjudges(s, l, e) && !WrapsDown(s, e)
  {
    assert !Recorded(s, e.p) ==> Owed(l, e.p) <= Count(s, e.p);
  }

  /**
    Of all runs of all events whose closes and opens match accepted pending
    channels: the count of every unprotected peer covers what is outstanding in
    every state, also when events arrive while the peer is disconnected, exactly
    when no event makes it fall short; and while admissions fit, no count is
    then decremented below zero.
  */
  lemma {:induction false} PendingCovered(s: State, l: Ledger, run: seq<Event>, maxSlots: int)
    requires Covered(s, l) && Matched(s, l, run, maxSlots)
    ensures CoveredThroughout(s, l, run, maxSlots) <==> NoneUncovers(s, l, run, maxSlots)
    ensures CoveredThroughout(s, l, run, maxSlots) ==>
              && Covered(Exec(s, run, maxSlots), FinalLedger(s, l, run, maxSlots))
              && (Consistent(s) && NoneUnfit(s, run, maxSlots) ==> NoneWrapsDown(s, run, maxSlots))
    decreases |run|
  {
    if run != [] {
      StepCovers(s, l, run[0], maxSlots);
      var t, l' := Step(s, run[0], maxSlots), LedgerStep(s, l, run[0]);
      if Covered(t, l') { PendingCovered(t, l', run[1..], maxSlots); }
      if Consistent(s) {
        StepFits(s, l, run[0]);
        StepConsistent(s, run[0], maxSlots);
      }
    }
  }

  predicate NoneForgets(s: State, l: Ledger, run: seq<Event>, maxSlots: int)
    requires Matched(s, l, run, maxSlots)
    decreases |run|
  {
    run == [] ||
    (!Forgets(s, l, run[0]) &&
     NoneForgets(Step(s, run[0], maxSlots), LedgerStep(s, l, run[0]), run[1..], maxSlots))
  }

  predicate NoneWrapsUp(s: State, run: seq<Event>, maxSlots: int)
    decreases |run|
  {
    run == [] || (!WrapsUp(s, run[0]) && NoneWrapsUp(Step(s, run[0], maxSlots), run[1..], maxSlots))
  }

  /** While admissions fit, the counts cover exactly when none wraps up and none is forgotten. */
  lemma {:induction false} CoveredByFits(s: State, l: Ledger, run: seq<Event>, maxSlots: int)
    requires Consistent(s) && Covered(s, l) && Matched(s, l, run, maxSlots) && NoneUnfit(s, run, maxSlots)
    ensures CoveredThroughout(s, l, run, maxSlots) <==>
              NoneWrapsUp(s, run, maxSlots) && NoneForgets(s, l, run, maxSlots)
    decreases |run|
  {
    if run != [] {
      StepCovers(s, l, run[0], maxSlots);
      StepFits(s, l, run[0]);
      StepConsistent(s, run[0], maxSlots);
      var t, l' := Step(s, run[0], maxSlots), LedgerStep(s, l, run[0]);
      if Covered(t, l') { CoveredByFits(t, l', run[1..], maxSlots); }
    }
  }

  lemma {:induction false} WholeNeverForgets(s: State, l: Ledger, run: seq<Event>, maxSlots: int)
    requires Matched(s, l, run, maxSlots) && WholeAdmissions(run)
    ensures NoneForgets(s, l, run, maxSlots)
    decreases |run|
  {
    if run != [] { WholeNeverForgets(Step(s, run[0], maxSlots), LedgerStep(s, l, run[0]), run[1..], maxSlots); }
  }

  /** The pending channels that a run opens with a peer. */
  function Opens(run: seq<Event>, p: Peer): nat
  {
    if run == [] then 0 else (if run[0] == PendingOpened(p) then 1 else 0) + Opens(run[1..], p)
  }

  lemma OpensFirst(run: seq<Event>, p: Peer)
    requires run != []
    ensures Opens(run, p) == Opens([run[0]], p) + Opens(run[1..], p)
  {
    assert [run[0]][1..] == [];
  }

  lemma CountMoves(s: State, l: Ledger, e: Event, maxSlots: int, p: Peer)
    requires Consistent(s) && Covered(s, l) && Matches(l, e)
    ensures Count(Step(s, e, maxSlots), p) <= Count(s, p) + Opens([e], p)
  {
    StepFits(s, l, e);
  }

  /**
    While what each peer has and what is opened with it stay below 2^64 no count
    wraps: with admissions that fit, the counts cover exactly when no outbound
    upgrade writes over a pending channel.
  */
  lemma {:induction false} TooFewToWrap(s: State, l: Ledger, run: seq<Event>, maxSlots: int)
    requires Consistent(s) && Covered(s, l) && Matched(s, l, run, maxSlots) && NoneUnfit(s, run, maxSlots)
    requires forall p :: Count(s, p) + Opens(run, p) < TWO_64
    ensures CoveredThroughout(s, l, run, maxSlots) <==> NoneForgets(s, l, run, maxSlots)
    decreases |run|
  {
    if run != [] {
      var e, t, l' := run[0], Step(s, run[0], maxSlots), LedgerStep(s, l, run[0]);
      assert Count(s, e.p) + Opens(run, e.p) < TWO_64;
      StepCovers(s, l, e, maxSlots);
      StepFits(s, l, e);
      StepConsistent(s, e, maxSlots);
      forall p ensures Count(t, p) + Opens(run[1..], p) < TWO_64 {
        OpensFirst(run, p);
        CountMoves(s, l, e, maxSlots, p);
        assert Count(s, p) + Opens(run, p) < TWO_64;
      }
      if Covered(t, l') { TooFewToWrap(t, l', run[1..], maxSlots); }
    }
  }

  /** The ledger at start-up: the pending channels read from disk. */
  function StartLedger(counts: map<Peer, ChanCount>): Ledger
  {
    map p | p in counts :: counts[p].pending as nat
  }

  /** From start-up, with admissions that fit. */
  lemma PendingFromStart(counts: map<Peer, ChanCount>, run: seq<Event>, maxSlots: int)
    requires Matched(Started(counts), StartLedger(counts), run, maxSlots)
    requires NoneUnfit(Started(counts), run, maxSlots)
    ensures var s, l := Started(counts), StartLedger(counts);
            && (CoveredThroughout(s, l, run, maxSlots) <==>
                  NoneWrapsUp(s, run, maxSlots) && NoneForgets(s, l, run, maxSlots))
            && (CoveredThroughout(s, l, run, maxSlots) ==> NoneWrapsDown(s, run, maxSlots))
            && (WholeAdmissions(run) ==> NoneForgets(s, l, run, maxSlots))
            && ((forall p :: Count(s, p) + Opens(run, p) < TWO_64) ==>
                  (CoveredThroughout(s, l, run, maxSlots) <==> NoneForgets(s, l, run, maxSlots)))
  {
    var s, l := Started(counts), StartLedger(counts);
    PendingCovered(s, l, run, maxSlots);
    CoveredByFits(s, l, run, maxSlots);
    if WholeAdmissions(run) { WholeNeverForgets(s, l, run, maxSlots); }
    if forall p :: Count(s, p) + Opens(run, p) < TWO_64 { TooFewToWrap(s, l, run, maxSlots); }
  }

  /** A start-up entry with as many pending channels as can be counted, and one more opened. */
  lemma WrapHappens(p: Peer)
    ensures var counts := map[p := ChanCount(false, 0xFFFF_FFFF_FFFF_FFFF)];
            var run := [Connect(p, true, Clear), PendingOpened(p)];
            var s, l := Started(counts), StartLedger(counts);
            && WholeAdmissions(run) && Matched(s, l, run, 1) && !CoveredThroughout(s, l, run, 1)
            && Count(Exec(s, run, 1), p) == 0 && Owed(FinalLedger(s, l, run, 1), p) == TWO_64
  {
    var counts := map[p := ChanCount(false, 0xFFFF_FFFF_FFFF_FFFF)];
    var run := [Connect(p, true, Clear), PendingOpened(p)];
    var s, l := Started(counts), StartLedger(counts);
    var s1 := Step(s, run[0], 1);
    assert s1.scores == map[p := Temporary] && s1.info == counts;
    assert run[1..] == [PendingOpened(p)] && run[1..][1..] == [];
    assert Matched(s1, l, run[1..], 1);
    ExecTwo(s, run[0], run[1], 1);
    assert WrapsUp(s1, run[1]);
    var s2, l2 := Step(s1, run[1], 1), LedgerStep(s1, l, run[1]);
    assert FinalLedger(s2, l2, run[1..][1..], 1) == l2;
    assert FinalLedger(s1, l, run[1..], 1) == l2;
    assert NoneUncovers(s, l, run, 1) ==> NoneUncovers(s1, l, run[1..], 1);
    PendingCovered(s, l, run, 1);
  }

  /** A pending channel is opened and the peer leaves, between the verdict on an outbound connection and its use. */
  lemma PendingForgotten(p: Peer)
    ensures var before := [Connect(p, true, Clear), PendingOpened(p), Disconnect(p)];
            var s := Exec(Started(map[]), before, 1);
            && AssignPerms(Exec(Started(map[]), before[..1], 1), p, Clear, 1) == (Restricted, None)
            && Count(s, p) == 1 && Count(Step(s, Add(p, Restricted, false), 1), p) == 0
  {
    var before := [Connect(p, true, Clear), PendingOpened(p), Disconnect(p)];
    var s0 := Started(map[]);
    var s1 := Step(s0, before[0], 1);
    var s2 := Step(s1, before[1], 1);
    assert s1.scores == map[p := Restricted] && s1.info == map[];
    assert s2.scores == map[p := Temporary] && s2.info == map[p := ChanCount(false, 1)];
    ExecOne(s0, before[0], 1);
    assert before[..1] == [before[0]];
    ExecThree(s0, before[0], before[1], before[2], 1);
  }
}
