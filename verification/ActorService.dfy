/**
  The actor's code on the fields it updates, each method run on its own. What a
  method does is a run of the protocol of ActorRuntime, step for step.
*/
module ActorService {
  import opened Options
  import opened ActorRuntime
  import opened ActorTheorems
  import opened ActorRuns
  import opened ActorCalls

  // ----- What each method does, and that the protocol does it -------------

  /** An Ask not answered before is answered with the reply; a Tell has no promise. */
  predicate Answers(before: Call, after: Call, reply: Reply)
  {
    after.ask == before.ask
    && after.promise == if before.ask && before.promise.None? then Some(reply) else before.promise
  }

  function Behaved(s: State, reply: Reply): State
  {
    var t := ReceiveStep(s, true, reply);
    if t.phase.Answering? then ReceiveStep(t, true, reply) else t
  }

  lemma BehavedProceeds(s: State, reply: Reply)
    requires s.phase.Handling?
    ensures Proceeds(s, Behaved(s, reply), Loop)
  {
    var t := ReceiveStep(s, true, reply);
    ProceedsOne(s, t, Loop, Process(true, reply));
    if t.phase.Answering? {
      ProceedsOne(t, ReceiveStep(t, true, reply), Loop, Process(true, reply));
      ProceedsThen(s, t, ReceiveStep(t, true, reply), Loop);
    }
  }

  function HandledNext(s: State, reply: Reply): State { Behaved(ReceiveStep(s, true, reply), reply) }

  lemma HandledProceeds(s: State, reply: Reply)
    requires s.phase.Receiving? && s.box.queue != []
    ensures Proceeds(s, HandledNext(s, reply), Loop)
  {
    var t := ReceiveStep(s, true, reply);
    ProceedsOne(s, t, Loop, Process(true, reply));
    BehavedProceeds(t, reply);
    ProceedsThen(s, t, Behaved(t, reply), Loop);
  }

  /** The receive loop ends, and Close does all its steps. */
  function Shut(s: State): State
  {
    s.(box := s.box.(closed := true, chanClosed := true, waiting := false, writing := false), phase := DrainStart)
  }

  lemma ShutProceeds(s: State)
    requires Reachable(s) && s.phase.Receiving? && s.stopped && s.box.readers == {}
    ensures Proceeds(s, Shut(s), Loop)
  {
    OpenUntilClosed(s);
    var step := Process(false, Ok(0));
    var s1 := s.(phase := Closing);
    var s2 := CloseStep(s1);
    ProceedsOne(s, s1, Loop, step);
    ProceedsOne(s1, s2, Loop, step);
    ProceedsThen(s, s1, s2, Loop);
    LockedProceeds(s2);
    ProceedsThen(s, s2, Shut(s), Loop);
  }

  lemma LockedProceeds(s: State)
    requires s.phase.AwaitLock? && s.box.readers == {} && !s.box.chanClosed
    ensures Proceeds(s, Shut(s), Loop)
  {
    var step := Process(false, Ok(0));
    var s3 := CloseStep(s);
    var s4 := CloseStep(s3);
    ProceedsOne(s, s3, Loop, step);
    ProceedsOne(s3, s4, Loop, step);
    ProceedsThen(s, s3, s4, Loop);
    StoredProceeds(s4);
    ProceedsThen(s, s4, Shut(s), Loop);
  }

  lemma StoredProceeds(s: State)
    requires s.phase.CloseChan? && s.box.closed && !s.box.waiting && !s.box.chanClosed
    ensures Proceeds(s, Shut(s), Loop)
  {
    var step := Process(false, Ok(0));
    var s5 := CloseStep(s);
    var s6 := CloseStep(s5);
    ProceedsOne(s, s5, Loop, step);
    ProceedsOne(s5, s6, Loop, step);
    ProceedsThen(s, s5, s6, Loop);
  }

  function Discarded(s: State): State
  {
    var t := DrainStep(s);
    if t.phase.Terminating? then DrainStep(t) else t
  }

  lemma DiscardedProceeds(s: State)
    requires s.phase.Discarding?
    ensures Proceeds(s, Discarded(s), Loop)
  {
    var t := DrainStep(s);
    ProceedsOne(s, t, Loop, Process(false, Ok(0)));
    if t.phase.Terminating? {
      ProceedsOne(t, DrainStep(t), Loop, Process(false, Ok(0)));
      ProceedsThen(s, t, DrainStep(t), Loop);
    }
  }

  function DrainedNext(s: State): State { Discarded(DrainStep(s)) }

  lemma DrainedProceeds(s: State)
    requires s.phase.Draining? && s.box.queue != []
    ensures Proceeds(s, DrainedNext(s), Loop)
  {
    var t := DrainStep(s);
    ProceedsOne(s, t, Loop, Process(false, Ok(0)));
    DiscardedProceeds(t);
    ProceedsThen(s, t, Discarded(t), Loop);
  }

  lemma EdgeProceeds(s: State)
    requires s.phase.DrainStart? || (s.phase.Draining? && s.box.queue == [])
    ensures Proceeds(s, DrainStep(s), Loop)
  {
    ProceedsOne(s, DrainStep(s), Loop, Process(false, Ok(0)));
  }

  /** What a call finds: an open mailbox unless the actor's context is done, and only older calls in the lock. */
  lemma CallFacts(s: State)
    requires Reachable(s)
    ensures forall c :: c in s.box.readers ==> c < |s.calls|
    ensures s.box.closed || s.box.chanClosed ==> s.stopped
  {
    ReachableInv(s);
  }

  class Actor {
    const capacity: nat
    const hasDlo: bool
    var ch: seq<nat>
    var chanClosed: bool
    var closed: bool
    var readers: set<nat>
    var waiting: bool
    var writing: bool
    var stopped: bool
    var phase: Phase
    var calls: seq<Call>
    var dlo: seq<nat>
    ghost var h: History

    ghost function View(): State
      reads this
    {
      State(Mailbox(capacity, ch, chanClosed, closed, readers, waiting, writing),
            hasDlo, stopped, phase, calls, dlo, false, h)
    }

    ghost predicate Valid()
      reads this
    {
      Reachable(View())
    }

    constructor (mailboxSize: int, dloConfigured: bool)
      ensures Valid() && View() == Init(mailboxSize, dloConfigured)
    {
      capacity := if mailboxSize <= 0 then 1 else mailboxSize;
      hasDlo := dloConfigured;
      ch, chanClosed, closed, readers, waiting, writing := [], false, false, {}, false, false;
      stopped, phase, calls, dlo := false, Idle, [], [];
      h := History([], [], []);
      new;
      ReachableAtFirst(mailboxSize, dloConfigured);
    }

    method Stop()
      requires Valid()
      modifies this
      ensures Valid() && View() == Apply(old(View()), Step.Stop)
    {
      ReachableStep(View(), Step.Stop);
      stopped := true;
    }

    /**
      The calls hold the lock for reading and do not have to wait: not for a
      writer, and not for room in the channel unless a context ends the wait.
    */
    ghost predicate Unblocked(cancelled: bool)
      reads this
    {
      !waiting && !writing && (stopped || cancelled || |ch| < capacity)
    }

    /** `Send` of the envelope of call `c`; the select is free among its ready branches. */
    method Send(c: nat) returns (sent: bool)
      requires c < |calls| && c !in readers && !chanClosed
      requires stopped || calls[c].cancelled || |ch| < capacity
      modifies this`readers, this`ch, this`calls, this`h
      ensures readers == old(readers)
      ensures sent ==> !closed && |old(ch)| < capacity && ch == old(ch) + [c]
                       && h == old(h).(accepted := old(h).accepted + [c])
                       && calls == old(calls)[c := old(calls)[c].(place := Queued)]
      ensures !sent ==> calls == old(calls) && (closed || stopped || old(calls)[c].cancelled)
                        && ch == old(ch) && h == old(h)
    {
      readers := readers + {c};
      sent := false;
      if !closed {
        var enqueue: bool := *;
        if |ch| < capacity && (enqueue || !(stopped || calls[c].cancelled)) {
          ch := ch + [c];
          h := h.(accepted := h.accepted + [c]);
          calls := calls[c := calls[c].(place := Queued)];
          sent := true;
        }
      }
      readers := readers - {c};
      assert readers == old(readers);
    }

    method Tell(cancelled: bool) returns (c: nat)
      requires Valid() && Unblocked(cancelled)
      modifies this
      ensures Valid() && c == |old(calls)| && Proceeds(old(View()), View(), Caller(c))
      ensures old(stopped) ==> View() == Terminated(old(View()), false, cancelled)
      ensures !old(stopped) ==>
                View() == Sent(old(View()), false, cancelled) || (cancelled && View() == GivenUp(old(View()), false))
    {
      ghost var s := View();
      CallFacts(s);
      c := |calls|;
      calls := calls + [NewCall(false, cancelled)];
      if stopped {
        if hasDlo { dlo := dlo + [c]; }
        calls := calls[c := calls[c].(pc := Returned, lettered := hasDlo)];
        assert View() == Terminated(s, false, cancelled);
        TerminatedProceeds(s, false, cancelled);
      } else {
        var sent := Send(c);
        // A failed Send: the actor is running, so the message is dropped.
        calls := calls[c := calls[c].(pc := Returned)];
        if sent {
          assert View() == Sent(s, false, cancelled);
          SentProceeds(s, false, cancelled);
        } else {
          assert View() == GivenUp(s, false);
          TellGivesUp(s);
        }
      }
      ProceedsReachable(s, View(), Caller(c));
    }

    method Ask(cancelled: bool) returns (c: nat)
      requires Valid() && Unblocked(cancelled)
      modifies this
      ensures Valid() && c == |old(calls)| && Proceeds(old(View()), View(), Caller(c))
      ensures View() == if old(stopped) then Terminated(old(View()), true, cancelled)
                        else if cancelled then GivenUp(old(View()), true)
                        else Sent(old(View()), true, cancelled)
    {
      ghost var s := View();
      CallFacts(s);
      c := |calls|;
      calls := calls + [NewCall(true, cancelled)];
      if stopped {
        calls := calls[c := Complete(calls[c], Err(Some(ActorTerminated))).(pc := Returned)];
        assert View() == Terminated(s, true, cancelled);
        TerminatedProceeds(s, true, cancelled);
      } else if cancelled {
        calls := calls[c := Complete(calls[c], Err(CallerErr(calls[c]))).(pc := Returned)];
        assert View() == GivenUp(s, true);
        AskGivesUp(s);
      } else {
        var sent := Send(c);
        calls := calls[c := calls[c].(pc := Returned)];
        assert View() == Sent(s, true, cancelled);
        SentProceeds(s, true, cancelled);
      }
      ProceedsReachable(s, View(), Caller(c));
    }

    /** One round of the receive loop: take a message, handle it, answer an Ask. */
    method HandleNext(reply: Reply)
      requires phase == Receiving && ch != [] && ch[0] < |calls|
      modifies this
      ensures View() == HandledNext(old(View()), reply)
      ensures |calls| == |old(calls)| && Answers(old(calls)[old(ch)[0]], calls[old(ch)[0]], reply)
      ensures phase == Receiving && ch == old(ch)[1..] && stopped == old(stopped) && readers == old(readers)
    {
      var env := TakeMessage(reply);
      Behave(env, reply);
    }

    method TakeMessage(reply: Reply) returns (env: nat)
      requires phase == Receiving && ch != [] && ch[0] < |calls|
      modifies this`ch, this`calls, this`phase, this`h
      ensures View() == ReceiveStep(old(View()), true, reply)
      ensures phase == Handling(env) && env == old(ch)[0] && |calls| == |old(calls)| && ch == old(ch)[1..]
      ensures calls[env] == old(calls)[env].(place := Held)
    {
      env := ch[0];
      ch := ch[1..];
      calls := calls[env := calls[env].(place := Held)];
      phase := Handling(env);
      h := h.(received := h.received + [env]);
    }

    /** The behaviour returns; the answer to an Ask is its promise's result. */
    method Behave(env: nat, reply: Reply)
      requires phase == Handling(env) && env < |calls|
      modifies this`calls, this`phase
      ensures View() == Behaved(old(View()), reply) && phase == Receiving
      ensures |calls| == |old(calls)| && Answers(old(calls)[env], calls[env], reply)
    {
      var ask := calls[env].ask;
      calls := calls[env := calls[env].(reply := Some(reply), place := if ask then Replied else Processed)];
      phase := if ask then Answering(env, reply) else Receiving;
      if ask {
        calls := calls[env := Complete(calls[env], reply).(place := Processed)];
        phase := Receiving;
      }
    }

    /** Close, called once the receive loop has ended and no sender holds the lock. */
    method Close()
      requires phase == Receiving && readers == {}
      modifies this`phase, this`waiting, this`writing, this`closed, this`chanClosed
      ensures View() == Shut(old(View()))
    {
      phase := Closing;
      waiting, phase := true, AwaitLock;
      waiting, writing, phase := false, true, StoreClosed;
      closed, phase := true, CloseChan;
      chanClosed, phase := true, ReleaseLock;
      writing, phase := false, DrainStart;
    }

    /** One round of the drain loop: take a message, hand it to the dead letter office, fail an Ask. */
    method DrainNext()
      requires phase == Draining && ch != [] && ch[0] < |calls|
      modifies this
      ensures View() == DrainedNext(old(View()))
      ensures phase == Draining && ch == old(ch)[1..] && closed == old(closed)
    {
      var env := DrainMessage();
      Discard(env);
    }

    method DrainMessage() returns (env: nat)
      requires phase == Draining && ch != [] && ch[0] < |calls|
      modifies this`ch, this`calls, this`phase, this`h
      ensures View() == DrainStep(old(View()))
      ensures phase == Discarding(env) && env < |calls| && ch == old(ch)[1..]
    {
      env := ch[0];
      ch := ch[1..];
      calls := calls[env := calls[env].(place := Taken)];
      phase := Discarding(env);
      h := h.(drained := h.drained + [env]);
    }

    method Discard(env: nat)
      requires phase == Discarding(env) && env < |calls|
      modifies this`calls, this`phase, this`dlo
      ensures View() == Discarded(old(View())) && phase == Draining
    {
      var ask := calls[env].ask;
      if hasDlo { dlo := dlo + [env]; }
      var k := calls[env];
      calls := calls[env := k.(lettered := k.lettered || hasDlo, place := if ask then Lettered else Drained)];
      phase := if ask then Terminating(env) else Draining;
      if ask {
        calls := calls[env := Complete(calls[env], Err(Some(ActorTerminated))).(place := Drained)];
        phase := Draining;
      }
    }

    /**
      `process` after Stop, from the receive loop to its end: it may still handle
      queued messages, then closes the mailbox and drains it.
    */
    method Run(replies: nat -> Reply)
      requires Valid() && phase == Receiving && stopped && readers == {}
      modifies this
      ensures Valid() && Proceeds(old(View()), View(), Loop)
      ensures phase == Done && ch == [] && closed
    {
      ghost var s := View();
      ProceedsNot(s, Loop);
      var take: bool := *;
      while take && ch != []
        invariant Valid() && Proceeds(s, View(), Loop)
        invariant phase == Receiving && stopped && readers == {}
        decreases |ch|
      {
        ghost var t := View();
        FirstQueued(t);
        var reply := replies(ch[0]);
        HandleNext(reply);
        HandledProceeds(t, reply);
        ProceedsThen(s, t, View(), Loop);
        ProceedsReachable(s, View(), Loop);
        take := *;
      }
      ghost var t := View();
      ShutProceeds(t);
      Close();
      ProceedsThen(s, t, View(), Loop);
      ghost var u := View();
      ProceedsReachable(s, u, Loop);
      Drain();
      ProceedsThen(s, u, View(), Loop);
    }

    /** The drain loop; nothing is drained from a mailbox that is not closed. */
    method Drain()
      requires Valid() && phase == DrainStart && closed
      modifies this
      ensures Valid() && Proceeds(old(View()), View(), Loop)
      ensures phase == Done && ch == [] && closed
    {
      ghost var s := View();
      EdgeProceeds(s);
      phase := if closed then Draining else Done;
      ProceedsReachable(s, View(), Loop);
      while ch != []
        invariant Valid() && Proceeds(s, View(), Loop)
        invariant phase == Draining && closed
        decreases |ch|
      {
        ghost var t := View();
        FirstQueued(t);
        DrainedProceeds(t);
        DrainNext();
        ProceedsThen(s, t, View(), Loop);
        ProceedsReachable(s, View(), Loop);
      }
      ghost var t := View();
      EdgeProceeds(t);
      phase := Done;
      ProceedsThen(s, t, View(), Loop);
      ProceedsReachable(s, View(), Loop);
    }
  }
}
