/** What the peer access manager answers and does for each peer, event by event, and what undoes what. */
module AccessVerdicts {
  import opened Options
  import opened AccessMan
  import opened AccessProofs

  // ----- The verdict ------------------------------------------------------

  /** The peer has a channel recorded or pending, or is connected with more than restricted access and has no entry. */
  predicate Standing(s: State, p: Peer)
  {
    if p in s.info then s.info[p].open || s.info[p].pending > 0
    else p in s.scores && s.scores[p] != Restricted
  }

  predicate Known(s: State, p: Peer) { p in s.info || p in s.scores }

  /** The access and each error of the verdict, and exactly when. */
  lemma VerdictExactly(s: State, p: Peer, ban: BanCheck, maxSlots: int)
    ensures var (access, err) := AssignPerms(s, p, ban, maxSlots);
            && (err == Some(BanCheckFailed) <==> !Standing(s, p) && ban == CheckError)
            && (err == Some(Banned) <==> !Standing(s, p) && ban == IsBanned)
            && (err == Some(NoMoreSlots) <==>
                  !Standing(s, p) && ban == Clear && !Known(s, p) && s.numRestricted >= maxSlots)
            && (err.Some? ==> err.value in {BanCheckFailed, Banned, NoMoreSlots})
            && (access == Restricted <==> !Standing(s, p))
            && (access == Protected <==> Recorded(s, p) || (p !in s.info && p in s.scores && s.scores[p] == Protected))
  {
  }

  /** What one whole admission does, inbound. */
  lemma InboundExactly(s: State, p: Peer, ban: BanCheck, maxSlots: int)
    ensures var t := Step(s, Connect(p, true, ban), maxSlots);
            var let := Standing(s, p) || (ban == Clear && (Known(s, p) || s.numRestricted < maxSlots));
            && (p in s.scores || !let ==> t == s)
            && (p !in s.scores && let ==>
                  && p in t.scores && t.info == s.info
                  && (t.scores[p] == Protected <==> Recorded(s, p))
                  && (t.scores[p] == Restricted <==> !Standing(s, p))
                  && t.numRestricted == s.numRestricted + if Standing(s, p) then 0 else 1)
  {
  }

  /** And outbound: no ban and no limit keeps it out, and it takes no slot. */
  lemma OutboundExactly(s: State, p: Peer, ban: BanCheck, maxSlots: int)
    ensures var t := Step(s, Connect(p, false, ban), maxSlots);
            && (p in s.scores ==> t == s)
            && (p !in s.scores ==>
                  && p in t.scores && t.numRestricted == s.numRestricted
                  && (t.scores[p] == if Recorded(s, p) then Protected else Temporary)
                  && t.info == if Standing(s, p) then s.info else s.info[p := ChanCount(false, 0)])
  {
  }

  /** A peer without standing whose ban check fails, or says so, is not let in. */
  lemma BannedKeptOut(s: State, p: Peer, ban: BanCheck, maxSlots: int)
    requires !Standing(s, p) && ban != Clear
    ensures Step(s, Connect(p, true, ban), maxSlots) == s
    ensures AssignPerms(s, p, ban, maxSlots)
         == (Restricted, Some(if ban == IsBanned then Banned else BanCheckFailed))
  {
  }

  /** The peer tries inbound only, and is banned whenever it does. */
  predicate BannedThroughout(run: seq<Event>, p: Peer)
  {
    forall i :: 0 <= i < |run| && run[i].p == p ==>
      !run[i].Add? && (run[i].Connect? ==> run[i].inbound && run[i].ban != Clear)
  }

  /** Over any run, such a stranger gets no score, no entry and no slot. */
  lemma {:induction false} BannedStaysOut(s: State, run: seq<Event>, p: Peer, maxSlots: int)
    requires !Known(s, p) && BannedThroughout(run, p)
    ensures !Known(Exec(s, run, maxSlots), p)
    decreases |run|
  {
    if run != [] {
      if run[0].p != p { OthersUntouched(s, run[0], maxSlots, p); }
      assert BannedThroughout(run[1..], p) by {
        forall i | 0 <= i < |run[1..]| ensures run[1..][i] == run[i + 1] {}
      }
      BannedStaysOut(Step(s, run[0], maxSlots), run[1..], p, maxSlots);
    }
  }

  // ----- Other peers ------------------------------------------------------

  /** An event leaves all peers alone but its own. */
  lemma OthersUntouched(s: State, e: Event, maxSlots: int, q: Peer)
    requires q != e.p
    ensures var t := Step(s, e, maxSlots);
            && (q in t.info <==> q in s.info) && (q in s.info ==> t.info[q] == s.info[q])
            && (q in t.scores <==> q in s.scores) && (q in s.scores ==> t.scores[q] == s.scores[q])
  {
  }

  // ----- Channel events ---------------------------------------------------

  /** Each error of a channel event, and exactly when; all but a refusal leave the state alone. */
  lemma ChannelErrors(s: State, p: Peer, maxSlots: int)
    ensures var pending, closed, confirmed := PendingOpen(s, p), PendingClose(s, p, maxSlots), OpenChan(s, p);
            var unscored := p !in s.scores;
            var unlisted := p in s.scores && s.scores[p] == Temporary && p !in s.info;
            var restricted := p in s.scores && s.scores[p] == Restricted;
            && (pending.1 == Some(NoPeerScore) <==> unscored)
            && (pending.1 == Some(NoPendingPeerInfo) <==> unlisted)
            && (pending.1.None? <==> !unscored && !unlisted)
            && (pending.1.Some? ==> pending.0 == s)
            && (closed.1 == Some(NoPeerScore) <==> unscored)
            && (closed.1 == Some(NoPendingPeerInfo) <==> unlisted)
            && (closed.1 == Some(InvalidTransition) <==> restricted)
            && (closed.1.Some? && closed.1 != Some(NoMoreSlots) ==> closed.0 == s)
            && (confirmed.1 == Some(NoPeerScore) <==> unscored)
            && (confirmed.1 == Some(NoPendingPeerInfo) <==> unlisted)
            && (confirmed.1 == Some(InvalidTransition) <==> restricted)
            && (confirmed.1.None? <==> !unscored && !unlisted && !restricted)
            && (confirmed.1.Some? ==> confirmed.0 == s)
  {
    RefusalExactly(s, p, maxSlots);
  }

  /** A confirmed channel protects its temporary peer, and is recorded. */
  lemma Promotion(s: State, p: Peer, maxSlots: int)
    requires p in s.scores && s.scores[p] == Temporary && p in s.info
    ensures var t := Step(s, Opened(p), maxSlots);
            && p in t.scores && t.scores[p] == Protected && Recorded(t, p) && t.numRestricted == s.numRestricted
            && (s.info[p].pending > 0 ==> Count(t, p) == Count(s, p) - 1)
  {
  }

  /** A first pending channel frees the restricted peer's slot; each further one counts one more. */
  lemma PendingCounts(s: State, p: Peer, maxSlots: int)
    requires p in s.scores && s.scores[p] != Protected && (s.scores[p] == Temporary ==> p in s.info)
    ensures var t := Step(s, PendingOpened(p), maxSlots);
            && p in t.scores && t.scores[p] == Temporary && p in t.info
            && (s.scores[p] == Restricted ==>
                  t.info[p] == ChanCount(false, 1) && t.numRestricted == s.numRestricted - 1)
            && (s.scores[p] == Temporary ==> t.info[p].open == s.info[p].open && t.numRestricted == s.numRestricted)
            && (s.scores[p] == Temporary && Count(s, p) < TWO_64 - 1 ==> Count(t, p) == Count(s, p) + 1)
  {
  }

  // ----- What undoes what -------------------------------------------------

  /** A stranger that connects and leaves, leaves nothing. */
  lemma LeavesNothing(s: State, p: Peer, inbound: bool, ban: BanCheck, maxSlots: int)
    requires !Known(s, p)
    ensures Step(Step(s, Connect(p, inbound, ban), maxSlots), Disconnect(p), maxSlots) == s
  {
    var t := Step(s, Connect(p, inbound, ban), maxSlots);
    var u := Step(t, Disconnect(p), maxSlots);
    assert u.info == s.info && u.scores == s.scores;
  }

  /** A peer with channels that leaves and comes back has the access it had. */
  lemma ComesBack(s: State, p: Peer, inbound: bool, ban: BanCheck, maxSlots: int)
    requires Consistent(s) && p in s.scores && Standing(s, p) && p in s.info
    ensures Step(Step(s, Disconnect(p), maxSlots), Connect(p, inbound, ban), maxSlots) == s
  {
    var t := Step(s, Disconnect(p), maxSlots);
    var u := Step(t, Connect(p, inbound, ban), maxSlots);
    assert u.info == s.info && u.scores == s.scores;
  }

  /** A pending channel that opens and closes leaves nothing, if the slot it freed can be taken again. */
  lemma PendingLeavesNothing(s: State, p: Peer, maxSlots: int)
    requires p in s.scores
    requires s.scores[p] == Restricted ==> p !in s.info && s.numRestricted - 1 != maxSlots
    requires s.scores[p] == Temporary ==> p in s.info && 0 < Count(s, p) < TWO_64 - 1
    ensures Step(Step(s, PendingOpened(p), maxSlots), PendingClosed(p), maxSlots) == s
  {
    var t := Step(s, PendingOpened(p), maxSlots);
    var u := Step(t, PendingClosed(p), maxSlots);
    assert u.info == s.info && u.scores == s.scores;
  }
}
