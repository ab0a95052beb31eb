/** The invariant of the actor runtime, and that every step keeps it. */
module ActorInvariant {
  import opened Options
  import opened ActorRuntime

  ghost predicate NoDup(q: seq<nat>)
  {
    forall i, j :: 0 <= i < j < |q| ==> q[i] != q[j]
  }

  predicate HoldsLock(pc: Pc) { pc.CheckClosed? || pc.Select? || pc.Unlock? }

  /** The lock, the two closed flags and the phase agree, and nothing has panicked. */
  ghost predicate LockInv(s: State)
  {
    && (forall c :: c in s.box.readers ==> c < |s.calls|)
    && (forall c :: 0 <= c < |s.calls| ==> (c in s.box.readers <==> HoldsLock(s.calls[c].pc)))
    && s.box.waiting == s.phase.AwaitLock?
    && s.box.writing == (s.phase.StoreClosed? || s.phase.CloseChan? || s.phase.ReleaseLock?)
    && (s.box.writing ==> s.box.readers == {})
    && s.box.closed == (s.phase.CloseChan? || s.phase.ReleaseLock? || InDrain(s.phase))
    && s.box.chanClosed == (s.phase.ReleaseLock? || InDrain(s.phase))
    && (s.box.closed ==> forall c :: 0 <= c < |s.calls| ==> !s.calls[c].pc.Select?)
    && (InClose(s.phase) || InDrain(s.phase) ==> s.stopped)
    && !s.panicked
  }

  /** What was accepted is, in order, what was received, what was drained and what is queued. */
  ghost predicate QueueInv(s: State)
  {
    && s.h.accepted == s.h.received + s.h.drained + s.box.queue
    && NoDup(s.h.accepted)
    && |s.box.queue| <= s.box.capacity && 0 < s.box.capacity
    && (s.h.drained != [] ==> InDrain(s.phase))
    && (s.phase.Done? ==> s.box.queue == [])
  }

  predicate FromReceive(p: Place) { p.Held? || p.Replied? || p.Processed? }

  predicate FromDrain(p: Place) { p.Taken? || p.Lettered? || p.Drained? }

  /** Each envelope is where the bookkeeping says, and only the loop's own one is in its hands. */
  ghost predicate PlaceInv(s: State)
  {
    && (forall i :: 0 <= i < |s.box.queue| ==>
          s.box.queue[i] < |s.calls| && s.calls[s.box.queue[i]].place == Queued)
    && (forall i :: 0 <= i < |s.h.received| ==>
          s.h.received[i] < |s.calls| && FromReceive(s.calls[s.h.received[i]].place))
    && (forall i :: 0 <= i < |s.h.drained| ==>
          s.h.drained[i] < |s.calls| && FromDrain(s.calls[s.h.drained[i]].place))
    && (forall c :: 0 <= c < |s.calls| && s.calls[c].place != Unsent ==> c in s.h.accepted)
  }

  ghost predicate HandInv(s: State)
  {
    && (forall c :: 0 <= c < |s.calls| ==> HandOf(s.calls[c].place, s.phase, c))
    && (s.phase.Handling? ==> s.phase.env < |s.calls| && s.calls[s.phase.env].place == Held)
    && (s.phase.Answering? ==>
          s.phase.env < |s.calls| && s.calls[s.phase.env].place == Replied
          && s.calls[s.phase.env].reply == Some(s.phase.reply))
    && (s.phase.Discarding? ==> s.phase.env < |s.calls| && s.calls[s.phase.env].place == Taken)
    && (s.phase.Terminating? ==> s.phase.env < |s.calls| && s.calls[s.phase.env].place == Lettered)
  }

  predicate HandOf(place: Place, phase: Phase, c: nat)
  {
    match place
    case Held => phase.Handling? && phase.env == c
    case Replied => phase.Answering? && phase.env == c
    case Taken => phase.Discarding? && phase.env == c
    case Lettered => phase.Terminating? && phase.env == c
    case _ => true
  }

  /** Where the call's goroutine is fits where its envelope is. */
  predicate CodeOk(stopped: bool, k: Call)
  {
    && (k.pc.CheckCaller? || k.pc.FailTerminated? || k.pc.FailCancelled? ==> k.ask)
    && (k.pc.DeadLetter? ==> !k.ask)
    && (k.pc.DeadLetter? || k.pc.FailTerminated? ==> stopped)
    && (k.pc.FailCancelled? ==> k.cancelled)
    && (k.pc == Unlock(false) || k.pc.Failed? ==> stopped || k.cancelled)
    && (k.pc == Unlock(true) ==> k.place != Unsent)
    && (k.place != Unsent ==> k.pc == Unlock(true) || k.pc.Returned?)
    && (k.place.Replied? || k.place.Lettered? ==> k.ask)
  }

  /** The promise is completed exactly when the call's business is over, and with what. */
  predicate PromiseOk(stopped: bool, k: Call)
  {
    && k.lost == 0
    && (k.promise.Some? <==>
          k.ask && (k.place.Processed? || k.place.Drained? || (k.place.Unsent? && k.pc.Returned?)))
    && (k.place.Replied? || k.place.Processed? ==> k.reply.Some?)
    && (k.ask && k.place.Processed? ==> k.promise == k.reply)
    && (k.ask && k.place.Drained? ==> k.promise == Some(Err(Some(ActorTerminated))))
    && (k.promise.Some? && k.place.Unsent? ==>
          || (k.promise == Some(Err(Some(ActorTerminated))) && stopped)
          || (k.promise == Some(Err(Some(CallerCancelled))) && k.cancelled))
  }

  /** Which messages have been handed to the dead letter office. */
  predicate LetterOk(hasDlo: bool, k: Call)
  {
    && (k.place.Lettered? || k.place.Drained? ==> k.lettered == hasDlo)
    && (k.place.Queued? || FromReceive(k.place) || k.place.Taken? ==> !k.lettered)
    && (k.place.Unsent? && k.lettered ==> hasDlo && !k.ask && k.pc.Returned?)
    && (k.place.Unsent? && k.pc.Returned? && !k.ask ==> k.lettered || !hasDlo || k.cancelled)
  }

  predicate CallOk(stopped: bool, hasDlo: bool, k: Call)
  {
    CodeOk(stopped, k) && PromiseOk(stopped, k) && LetterOk(hasDlo, k)
  }

  ghost predicate CallsInv(s: State)
  {
    forall c :: 0 <= c < |s.calls| ==> CallOk(s.stopped, s.hasDlo, s.calls[c])
  }

  /** The log of the dead letter office holds each lettered message once. */
  ghost predicate DloInv(s: State)
  {
    && NoDup(s.dlo)
    && (forall i :: 0 <= i < |s.dlo| ==> s.dlo[i] < |s.calls| && s.calls[s.dlo[i]].lettered)
    && (forall c :: 0 <= c < |s.calls| && s.calls[c].lettered ==> c in s.dlo)
  }

  ghost predicate Inv(s: State)
  {
    LockInv(s) && QueueInv(s) && PlaceInv(s) && HandInv(s) && CallsInv(s) && DloInv(s)
  }

  // ----- Calls ------------------------------------------------------------

  lemma NextCallOk(s: State, k: Call, branch: Branch)
    requires CallOk(s.stopped, s.hasDlo, k) && (s.box.closed ==> s.stopped)
    requires k.pc.Select? ==> BranchReady(s, k, branch)
    ensures CallOk(s.stopped, s.hasDlo, NextCall(s, k, branch))
    ensures NextCall(s, k, branch).ask == k.ask
    ensures NextCall(s, k, branch).place == (if k.pc.Select? && branch.Enqueue? then Queued else k.place)
    ensures NextCall(s, k, branch).lettered == (k.lettered || (k.pc.DeadLetter? && s.hasDlo))
  {
  }

  lemma AdvanceKeepsCallsInv(s: State, c: nat, branch: Branch)
    requires LockInv(s) && CallsInv(s) && AdvanceEnabled(s, c, branch)
    ensures CallsInv(AdvanceStep(s, c, branch))
  {
    NextCallOk(s, s.calls[c], branch);
  }

  lemma AdvanceKeepsLockInv(s: State, c: nat, branch: Branch)
    requires LockInv(s) && AdvanceEnabled(s, c, branch)
    ensures LockInv(AdvanceStep(s, c, branch))
  {
  }

  lemma AdvanceKeepsQueue(s: State, c: nat, branch: Branch)
    requires LockInv(s) && QueueInv(s) && PlaceInv(s) && CallsInv(s) && AdvanceEnabled(s, c, branch)
    ensures QueueInv(AdvanceStep(s, c, branch))
  {
    assert CallOk(s.stopped, s.hasDlo, s.calls[c]);
    if s.calls[c].pc.Select? && branch.Enqueue? {
      SentOnce(s, c);
    }
  }

  /** A call that has not been sent is in none of the three sequences. */
  lemma SentOnce(s: State, c: nat)
    requires QueueInv(s) && PlaceInv(s) && c < |s.calls| && s.calls[c].place == Unsent
    ensures c !in s.h.accepted
  {
  }

  /** The four stages an envelope goes through. */
  function Stage(p: Place): nat
  {
    if p.Unsent? then 0 else if p.Queued? then 1 else if FromReceive(p) then 2 else 3
  }

  lemma SameStages(s: State, t: State)
    requires PlaceInv(s) && t.h == s.h && t.box.queue == s.box.queue && |s.calls| <= |t.calls|
    requires forall c :: 0 <= c < |s.calls| ==> Stage(t.calls[c].place) == Stage(s.calls[c].place)
    requires forall c :: |s.calls| <= c < |t.calls| ==> t.calls[c].place == Unsent
    ensures PlaceInv(t)
  {
  }

  lemma EnqueueKeepsPlaces(s: State, c: nat)
    requires LockInv(s) && QueueInv(s) && PlaceInv(s) && CallsInv(s)
    requires AdvanceEnabled(s, c, Enqueue) && s.calls[c].pc.Select?
    ensures PlaceInv(AdvanceStep(s, c, Enqueue))
  {
    assert s.calls[c].place == Unsent;
    SentOnce(s, c);
    var t := AdvanceStep(s, c, Enqueue);
    assert forall d :: 0 <= d < |s.calls| && d != c ==> t.calls[d] == s.calls[d];
    assert t.h.accepted == s.h.accepted + [c];
  }

  lemma AdvanceKeepsPlaces(s: State, c: nat, branch: Branch)
    requires LockInv(s) && QueueInv(s) && PlaceInv(s) && CallsInv(s) && AdvanceEnabled(s, c, branch)
    ensures PlaceInv(AdvanceStep(s, c, branch))
  {
    if s.calls[c].pc.Select? && branch.Enqueue? {
      EnqueueKeepsPlaces(s, c);
    } else {
      NextCallOk(s, s.calls[c], branch);
      SameStages(s, AdvanceStep(s, c, branch));
    }
  }

  /** Either loop takes the head of the queue. */
  lemma TakeKeepsPlaces(s: State, t: State, stage: Place)
    requires QueueInv(s) && PlaceInv(s) && s.box.queue != [] && FromReceive(stage) != FromDrain(stage)
    requires FromReceive(stage) ==> s.h.drained == []
    requires var e := s.box.queue[0]; t.calls == s.calls[e := s.calls[e].(place := stage)]
    requires t.box.queue == s.box.queue[1..]
    requires t.h == if FromReceive(stage) then s.h.(received := s.h.received + [s.box.queue[0]])
                    else s.h.(drained := s.h.drained + [s.box.queue[0]])
    ensures PlaceInv(t)
  {
    var a, b, q, all := s.h.received, s.h.drained, s.box.queue, s.h.accepted;
    assert all[|a| + |b|] == q[0];
    assert forall j :: 0 <= j < |q| ==> all[|a| + |b| + j] == q[j];
  }

  lemma AdvanceKeepsHands(s: State, c: nat, branch: Branch)
    requires LockInv(s) && HandInv(s) && CallsInv(s) && AdvanceEnabled(s, c, branch)
    ensures HandInv(AdvanceStep(s, c, branch))
  {
    var k := NextCall(s, s.calls[c], branch);
    AdvanceKeepsPlace(s, s.calls[c], branch);
    NotPanicking(s, c, branch);
    OtherHands(s, AdvanceStep(s, c, branch), c, k);
  }

  /** A step of a call leaves its envelope where it is, or queues it. */
  lemma AdvanceKeepsPlace(s: State, k: Call, branch: Branch)
    requires CodeOk(s.stopped, k)
    ensures NextCall(s, k, branch).place == k.place || (k.place == Unsent && NextCall(s, k, branch).place == Queued)
    ensures NextCall(s, k, branch).reply == k.reply
  {
  }

  lemma NotPanicking(s: State, c: nat, branch: Branch)
    requires LockInv(s) && AdvanceEnabled(s, c, branch)
    ensures AdvanceStep(s, c, branch).calls == s.calls[c := NextCall(s, s.calls[c], branch)]
    ensures AdvanceStep(s, c, branch).phase == s.phase
  {
  }

  lemma OtherHands(s: State, t: State, c: nat, k: Call)
    requires HandInv(s) && c < |s.calls| && t.phase == s.phase && t.calls == s.calls[c := k]
    requires k.place == s.calls[c].place || (s.calls[c].place == Unsent && k.place == Queued)
    requires k.reply == s.calls[c].reply
    ensures HandInv(t)
  {
    forall d | 0 <= d < |t.calls| ensures HandOf(t.calls[d].place, t.phase, d) {
      assert HandOf(s.calls[d].place, s.phase, d);
    }
  }

  lemma AdvanceKeepsDlo(s: State, c: nat, branch: Branch)
    requires LockInv(s) && DloInv(s) && CallsInv(s) && AdvanceEnabled(s, c, branch)
    ensures DloInv(AdvanceStep(s, c, branch))
  {
    NextCallOk(s, s.calls[c], branch);
  }

  // ----- The processing loop ----------------------------------------------

  lemma ReceiveKeepsLock(s: State, take: bool, reply: Reply)
    requires LockInv(s) && ProcessEnabled(s, take) && InReceive(s.phase)
    ensures LockInv(ReceiveStep(s, take, reply))
  {
  }

  lemma ReceiveKeepsCalls(s: State, take: bool, reply: Reply)
    requires PlaceInv(s) && HandInv(s) && CallsInv(s) && ProcessEnabled(s, take) && InReceive(s.phase)
    ensures CallsInv(ReceiveStep(s, take, reply))
  {
  }

  lemma ReceiveKeepsQueue(s: State, take: bool, reply: Reply)
    requires LockInv(s) && QueueInv(s) && ProcessEnabled(s, take) && InReceive(s.phase)
    ensures QueueInv(ReceiveStep(s, take, reply))
  {
  }

  lemma ReceiveKeepsPlaces(s: State, take: bool, reply: Reply)
    requires LockInv(s) && QueueInv(s) && PlaceInv(s) && HandInv(s) && ProcessEnabled(s, take) && InReceive(s.phase)
    ensures PlaceInv(ReceiveStep(s, take, reply))
  {
    if s.phase.Receiving? && take && |s.box.queue| > 0 {
      TakeKeepsPlaces(s, ReceiveStep(s, take, reply), Held);
    } else {
      SameStages(s, ReceiveStep(s, take, reply));
    }
  }

  lemma ReceiveKeepsHands(s: State, take: bool, reply: Reply)
    requires LockInv(s) && PlaceInv(s) && HandInv(s) && ProcessEnabled(s, take) && InReceive(s.phase)
    ensures HandInv(ReceiveStep(s, take, reply))
  {
  }

  lemma ReceiveKeepsDlo(s: State, take: bool, reply: Reply)
    requires LockInv(s) && PlaceInv(s) && HandInv(s) && CallsInv(s) && DloInv(s)
    requires ProcessEnabled(s, take) && InReceive(s.phase)
    ensures DloInv(ReceiveStep(s, take, reply))
  {
  }

  lemma CloseKeepsInv(s: State)
    requires Inv(s) && ProcessEnabled(s, false) && InClose(s.phase)
    ensures Inv(CloseStep(s))
  {
    var t := CloseStep(s);
    if s.phase.StoreClosed? {
      forall c | 0 <= c < |s.calls| ensures !s.calls[c].pc.Select? { assert c !in s.box.readers; }
    }
    SameStages(s, t);
  }

  lemma DrainKeepsLock(s: State)
    requires LockInv(s) && ProcessEnabled(s, false) && InDrain(s.phase)
    ensures LockInv(DrainStep(s))
  {
  }

  lemma DrainKeepsCalls(s: State)
    requires LockInv(s) && PlaceInv(s) && HandInv(s) && CallsInv(s) && ProcessEnabled(s, false) && InDrain(s.phase)
    ensures CallsInv(DrainStep(s))
  {
  }

  lemma DrainKeepsQueue(s: State)
    requires LockInv(s) && QueueInv(s) && ProcessEnabled(s, false) && InDrain(s.phase)
    ensures QueueInv(DrainStep(s))
  {
  }

  lemma DrainKeepsPlaces(s: State)
    requires LockInv(s) && QueueInv(s) && PlaceInv(s) && HandInv(s) && ProcessEnabled(s, false) && InDrain(s.phase)
    ensures PlaceInv(DrainStep(s))
  {
    if s.phase.Draining? && |s.box.queue| > 0 {
      TakeKeepsPlaces(s, DrainStep(s), Taken);
    } else {
      SameStages(s, DrainStep(s));
    }
  }

  lemma DrainKeepsHands(s: State)
    requires LockInv(s) && PlaceInv(s) && HandInv(s) && ProcessEnabled(s, false) && InDrain(s.phase)
    ensures HandInv(DrainStep(s))
  {
  }

  lemma DrainKeepsDlo(s: State)
    requires LockInv(s) && PlaceInv(s) && HandInv(s) && CallsInv(s) && DloInv(s)
    requires ProcessEnabled(s, false) && InDrain(s.phase)
    ensures DloInv(DrainStep(s))
  {
  }

  // ----- All steps --------------------------------------------------------

  lemma InitInv(mailboxSize: int, hasDlo: bool)
    ensures Inv(Init(mailboxSize, hasDlo))
  {
  }

  lemma BeginKeepsLock(s: State, ask: bool)
    requires LockInv(s)
    ensures LockInv(Apply(s, Begin(ask)))
  {
    var t := Apply(s, Begin(ask));
    assert forall c :: 0 <= c < |s.calls| ==> t.calls[c] == s.calls[c];
  }

  lemma BeginKeepsCalls(s: State, ask: bool)
    requires CallsInv(s)
    ensures CallsInv(Apply(s, Begin(ask)))
  {
    var t := Apply(s, Begin(ask));
    forall c | 0 <= c < |t.calls| ensures CallOk(t.stopped, t.hasDlo, t.calls[c]) {
      if c < |s.calls| { assert t.calls[c] == s.calls[c]; }
    }
  }

  lemma BeginKeepsHands(s: State, ask: bool)
    requires HandInv(s)
    ensures HandInv(Apply(s, Begin(ask)))
  {
    var t := Apply(s, Begin(ask));
    forall c | 0 <= c < |t.calls| ensures HandOf(t.calls[c].place, t.phase, c) {
      if c < |s.calls| { assert t.calls[c] == s.calls[c]; }
    }
  }

  lemma BeginKeepsInv(s: State, ask: bool)
    requires Inv(s)
    ensures Inv(Apply(s, Begin(ask)))
  {
    BeginKeepsLock(s, ask);
    BeginKeepsCalls(s, ask);
    BeginKeepsHands(s, ask);
    SameStages(s, Apply(s, Begin(ask)));
  }

  lemma CancelKeepsHands(s: State, c: nat)
    requires LockInv(s) && HandInv(s) && c < |s.calls|
    ensures LockInv(Apply(s, Cancel(c))) && HandInv(Apply(s, Cancel(c)))
  {
  }

  lemma CancelKeepsCalls(s: State, c: nat)
    requires CallsInv(s) && c < |s.calls|
    ensures CallsInv(Apply(s, Cancel(c)))
  {
    var t := Apply(s, Cancel(c));
    assert CallOk(s.stopped, s.hasDlo, s.calls[c].(cancelled := true));
    forall d | 0 <= d < |t.calls| && d != c ensures CallOk(t.stopped, t.hasDlo, t.calls[d]) {
      assert t.calls[d] == s.calls[d];
    }
  }

  lemma CancelKeepsInv(s: State, c: nat)
    requires Inv(s) && c < |s.calls|
    ensures Inv(Apply(s, Cancel(c)))
  {
    CancelKeepsHands(s, c);
    CancelKeepsCalls(s, c);
    SameStages(s, Apply(s, Cancel(c)));
  }

  lemma AdvanceKeepsInv(s: State, c: nat, branch: Branch)
    requires Inv(s) && AdvanceEnabled(s, c, branch)
    ensures Inv(AdvanceStep(s, c, branch))
  {
    AdvanceKeepsLockInv(s, c, branch);
    AdvanceKeepsQueue(s, c, branch);
    AdvanceKeepsPlaces(s, c, branch);
    AdvanceKeepsHands(s, c, branch);
    AdvanceKeepsCallsInv(s, c, branch);
    AdvanceKeepsDlo(s, c, branch);
  }

  lemma ReceiveKeepsInv(s: State, take: bool, reply: Reply)
    requires Inv(s) && ProcessEnabled(s, take) && InReceive(s.phase)
    ensures Inv(ReceiveStep(s, take, reply))
  {
    ReceiveKeepsLock(s, take, reply);
    ReceiveKeepsQueue(s, take, reply);
    ReceiveKeepsPlaces(s, take, reply);
    ReceiveKeepsHands(s, take, reply);
    ReceiveKeepsDlo(s, take, reply);
    ReceiveKeepsCalls(s, take, reply);
  }

  lemma DrainKeepsInv(s: State)
    requires Inv(s) && ProcessEnabled(s, false) && InDrain(s.phase)
    ensures Inv(DrainStep(s))
  {
    DrainKeepsLock(s);
    DrainKeepsQueue(s);
    DrainKeepsPlaces(s);
    DrainKeepsHands(s);
    DrainKeepsDlo(s);
    DrainKeepsCalls(s);
  }

  lemma ProcessKeepsInv(s: State, take: bool, reply: Reply)
    requires Inv(s) && ProcessEnabled(s, take)
    ensures Inv(Apply(s, Process(take, reply)))
  {
    if InReceive(s.phase) {
      ReceiveKeepsInv(s, take, reply);
    } else if InClose(s.phase) {
      CloseKeepsInv(s);
    } else {
      DrainKeepsInv(s);
    }
  }

  lemma StartKeepsInv(s: State)
    requires Inv(s)
    ensures Inv(Apply(s, Start))
  {
    SameStages(s, Apply(s, Start));
  }

  lemma StopKeepsInv(s: State)
    requires Inv(s)
    ensures Inv(Apply(s, Step.Stop))
  {
    SameStages(s, Apply(s, Step.Stop));
  }

  lemma StepKeepsInv(s: State, step: Step)
    requires Inv(s) && Enabled(s, step)
    ensures Inv(Apply(s, step))
  {
    match step
    case Advance(c, branch) => AdvanceKeepsInv(s, c, branch);
    case Process(take, reply) => ProcessKeepsInv(s, take, reply);
    case Begin(ask) => BeginKeepsInv(s, ask);
    case Cancel(c) => CancelKeepsInv(s, c);
    case Start => StartKeepsInv(s);
    case Stop => StopKeepsInv(s);
  }

  lemma {:induction false} RunKeepsInv(s: State, run: seq<Step>)
    requires Inv(s) && Legal(s, run)
    ensures Inv(Exec(s, run))
    decreases |run|
  {
    if run != [] {
      StepKeepsInv(s, run[0]);
      RunKeepsInv(Apply(s, run[0]), run[1..]);
    }
  }
}
