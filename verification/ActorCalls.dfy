/** Tell and Ask calls that are not held up: what each of their steps does on its own. */
module ActorCalls {
  import opened Options
  import opened ActorRuntime
  import opened ActorRuns

  /** The state with one more call, which may hold the read lock. */
  function WithCall(s: State, k: Call, locked: bool): State
  {
    s.(calls := s.calls + [k],
       box := s.box.(readers := if locked then s.box.readers + {|s.calls|} else s.box.readers))
  }

  function NewCall(ask: bool, cancelled: bool): Call
  {
    Call(ask, CheckActor, cancelled, None, Unsent, None, false, 0)
  }

  /** The call's envelope joins the queue. */
  function Enqueued(s: State): State
  {
    s.(box := s.box.(queue := s.box.queue + [|s.calls|]), h := s.h.(accepted := s.h.accepted + [|s.calls|]))
  }

  function Lettering(s: State): State { if s.hasDlo then s.(dlo := s.dlo + [|s.calls|]) else s }

  /** Nobody holds or awaits the lock for writing, and no reader is a call to come. */
  predicate LockFree(s: State)
  {
    !s.box.waiting && !s.box.writing && forall c :: c in s.box.readers ==> c < |s.calls|
  }

  /** Steps that touch nothing but the call. */
  predicate Quiet(s: State, k: Call, branch: Branch)
  {
    match k.pc
    case Select => branch != Enqueue && BranchReady(s, k, branch)
    case Lock => false
    case Unlock(_) => false
    case DeadLetter => false
    case Returned => false
    case _ => true
  }

  lemma Begins(s: State, ask: bool, cancelled: bool)
    ensures Proceeds(s, WithCall(s, NewCall(ask, cancelled), false), Caller(|s.calls|))
  {
    var c := |s.calls|;
    var t := WithCall(s, NewCall(ask, false), false);
    ProceedsOne(s, t, Caller(c), Begin(ask));
    if cancelled {
      var u := WithCall(s, NewCall(ask, true), false);
      assert t.calls[c := NewCall(ask, true)] == u.calls;
      ProceedsOne(t, u, Caller(c), Cancel(c));
      ProceedsThen(s, t, u, Caller(c));
    }
  }

  lemma StepsQuietly(s: State, k: Call, locked: bool, branch: Branch)
    requires Quiet(s, k, branch)
    ensures Proceeds(WithCall(s, k, locked), WithCall(s, NextCall(s, k, branch), locked), Caller(|s.calls|))
  {
    var c := |s.calls|;
    var t, u := WithCall(s, k, locked), WithCall(s, NextCall(s, k, branch), locked);
    assert t.calls[c := NextCall(s, k, branch)] == u.calls;
    ProceedsOne(t, u, Caller(c), Advance(c, branch));
  }

  lemma Locks(s: State, k: Call)
    requires LockFree(s) && k.pc == Lock
    ensures Proceeds(WithCall(s, k, false), WithCall(s, k.(pc := CheckClosed), true), Caller(|s.calls|))
  {
    var c := |s.calls|;
    var t, u := WithCall(s, k, false), WithCall(s, k.(pc := CheckClosed), true);
    assert t.calls[c := k.(pc := CheckClosed)] == u.calls;
    ProceedsOne(t, u, Caller(c), Advance(c, OnActor));
  }

  lemma Unlocks(s: State, k: Call, sent: bool)
    requires LockFree(s) && k.pc == Unlock(sent)
    ensures Proceeds(WithCall(s, k, true),
                     WithCall(s, k.(pc := if sent then Returned else Failed), false), Caller(|s.calls|))
  {
    var c := |s.calls|;
    var t, u := WithCall(s, k, true), WithCall(s, k.(pc := if sent then Returned else Failed), false);
    assert t.calls[c := k.(pc := if sent then Returned else Failed)] == u.calls;
    assert t.box.readers - {c} == u.box.readers;
    ProceedsOne(t, u, Caller(c), Advance(c, OnActor));
  }

  lemma Enqueues(s: State, k: Call)
    requires k.pc == Select && |s.box.queue| < s.box.capacity && !s.box.chanClosed
    ensures Proceeds(WithCall(s, k, true),
                     WithCall(Enqueued(s), k.(pc := Unlock(true), place := Queued), true), Caller(|s.calls|))
  {
    var c := |s.calls|;
    var t, u := WithCall(s, k, true), WithCall(Enqueued(s), k.(pc := Unlock(true), place := Queued), true);
    assert t.calls[c := k.(pc := Unlock(true), place := Queued)] == u.calls;
    ProceedsOne(t, u, Caller(c), Advance(c, Enqueue));
  }

  lemma Letters(s: State, k: Call)
    requires k.pc == DeadLetter
    ensures Proceeds(WithCall(s, k, false),
                     WithCall(Lettering(s), k.(pc := Returned, lettered := k.lettered || s.hasDlo), false),
                     Caller(|s.calls|))
  {
    var c := |s.calls|;
    var t := WithCall(s, k, false);
    var u := WithCall(Lettering(s), k.(pc := Returned, lettered := k.lettered || s.hasDlo), false);
    assert t.calls[c := k.(pc := Returned, lettered := k.lettered || s.hasDlo)] == u.calls;
    ProceedsOne(t, u, Caller(c), Advance(c, OnActor));
  }

  // ----- Send -------------------------------------------------------------

  /** Send enqueues: the mailbox is open and has room. */
  lemma SendSucceeds(s: State, k: Call)
    requires LockFree(s) && k.pc == Lock && !s.box.closed && !s.box.chanClosed && |s.box.queue| < s.box.capacity
    ensures Proceeds(WithCall(s, k, false),
                     WithCall(Enqueued(s), k.(pc := Returned, place := Queued), false), Caller(|s.calls|))
  {
    var who := Caller(|s.calls|);
    var k1, k2, k3 := k.(pc := CheckClosed), k.(pc := Select), k.(pc := Unlock(true), place := Queued);
    Locks(s, k);
    StepsQuietly(s, k1, true, OnActor);
    ProceedsThen(WithCall(s, k, false), WithCall(s, k1, true), WithCall(s, k2, true), who);
    Enqueues(s, k2);
    ProceedsThen(WithCall(s, k, false), WithCall(s, k2, true), WithCall(Enqueued(s), k3, true), who);
    Unlocks(Enqueued(s), k3, true);
    ProceedsThen(WithCall(s, k, false), WithCall(Enqueued(s), k3, true),
                 WithCall(Enqueued(s), k3.(pc := Returned), false), who);
  }

  /** Send gives up: the caller's context is cancelled, or the actor's is done. */
  lemma SendFails(s: State, k: Call)
    requires LockFree(s) && k.pc == Lock && !s.box.closed && (k.cancelled || s.stopped)
    ensures Proceeds(WithCall(s, k, false), WithCall(s, k.(pc := Failed), false), Caller(|s.calls|))
  {
    var who := Caller(|s.calls|);
    var k1, k2, k3 := k.(pc := CheckClosed), k.(pc := Select), k.(pc := Unlock(false));
    Locks(s, k);
    StepsQuietly(s, k1, true, OnActor);
    ProceedsThen(WithCall(s, k, false), WithCall(s, k1, true), WithCall(s, k2, true), who);
    StepsQuietly(s, k2, true, if k.cancelled then OnCaller else OnActor);
    ProceedsThen(WithCall(s, k, false), WithCall(s, k2, true), WithCall(s, k3, true), who);
    Unlocks(s, k3, false);
    ProceedsThen(WithCall(s, k, false), WithCall(s, k3, true), WithCall(s, k.(pc := Failed), false), who);
  }

  // ----- Tell and Ask -----------------------------------------------------

  /** What a call leaves behind when the actor's context is done before it starts. */
  function Terminated(s: State, ask: bool, cancelled: bool): State
  {
    var k := NewCall(ask, cancelled).(pc := Returned);
    if ask then WithCall(s, k.(promise := Some(Err(Some(ActorTerminated)))), false)
    else WithCall(Lettering(s), k.(lettered := s.hasDlo), false)
  }

  lemma TerminatedProceeds(s: State, ask: bool, cancelled: bool)
    requires s.stopped
    ensures Proceeds(s, Terminated(s, ask, cancelled), Caller(|s.calls|))
  {
    var who := Caller(|s.calls|);
    var k := NewCall(ask, cancelled);
    var k1 := k.(pc := if ask then FailTerminated else DeadLetter);
    Begins(s, ask, cancelled);
    StepsQuietly(s, k, false, OnActor);
    ProceedsThen(s, WithCall(s, k, false), WithCall(s, k1, false), who);
    if ask { StepsQuietly(s, k1, false, OnActor); } else { Letters(s, k1); }
    ProceedsThen(s, WithCall(s, k1, false), Terminated(s, ask, cancelled), who);
  }

  function Sent(s: State, ask: bool, cancelled: bool): State
  {
    WithCall(Enqueued(s), NewCall(ask, cancelled).(pc := Returned, place := Queued), false)
  }

  lemma SentProceeds(s: State, ask: bool, cancelled: bool)
    requires LockFree(s) && !s.stopped && !s.box.closed && !s.box.chanClosed && |s.box.queue| < s.box.capacity
    requires ask ==> !cancelled
    ensures Proceeds(s, Sent(s, ask, cancelled), Caller(|s.calls|))
  {
    var k := NewCall(ask, cancelled).(pc := Lock);
    ReachesLock(s, ask, cancelled);
    SendSucceeds(s, k);
    ProceedsThen(s, WithCall(s, k, false), Sent(s, ask, cancelled), Caller(|s.calls|));
  }

  lemma ReachesLock(s: State, ask: bool, cancelled: bool)
    requires !s.stopped && (ask ==> !cancelled)
    ensures Proceeds(s, WithCall(s, NewCall(ask, cancelled).(pc := Lock), false), Caller(|s.calls|))
  {
    var who := Caller(|s.calls|);
    var k := NewCall(ask, cancelled);
    Begins(s, ask, cancelled);
    StepsQuietly(s, k, false, OnActor);
    if ask {
      var k1 := k.(pc := CheckCaller);
      ProceedsThen(s, WithCall(s, k, false), WithCall(s, k1, false), who);
      StepsQuietly(s, k1, false, OnActor);
      ProceedsThen(s, WithCall(s, k1, false), WithCall(s, k.(pc := Lock), false), who);
    } else {
      ProceedsThen(s, WithCall(s, k, false), WithCall(s, k.(pc := Lock), false), who);
    }
  }

  /** What a call with a cancelled context leaves behind when it is not sent. */
  function GivenUp(s: State, ask: bool): State
  {
    var k := NewCall(ask, true).(pc := Returned);
    WithCall(s, if ask then k.(promise := Some(Err(Some(CallerCancelled)))) else k, false)
  }

  lemma AskGivesUp(s: State)
    requires !s.stopped
    ensures Proceeds(s, GivenUp(s, true), Caller(|s.calls|))
  {
    var who := Caller(|s.calls|);
    var k := NewCall(true, true);
    var k1, k2 := k.(pc := CheckCaller), k.(pc := FailCancelled);
    Begins(s, true, true);
    StepsQuietly(s, k, false, OnActor);
    ProceedsThen(s, WithCall(s, k, false), WithCall(s, k1, false), who);
    StepsQuietly(s, k1, false, OnActor);
    ProceedsThen(s, WithCall(s, k1, false), WithCall(s, k2, false), who);
    StepsQuietly(s, k2, false, OnActor);
    ProceedsThen(s, WithCall(s, k2, false), GivenUp(s, true), who);
  }

  lemma TellGivesUp(s: State)
    requires LockFree(s) && !s.stopped && !s.box.closed
    ensures Proceeds(s, GivenUp(s, false), Caller(|s.calls|))
  {
    var who := Caller(|s.calls|);
    var k := NewCall(false, true).(pc := Lock);
    var k1 := k.(pc := Failed);
    ReachesLock(s, false, true);
    SendFails(s, k);
    ProceedsThen(s, WithCall(s, k, false), WithCall(s, k1, false), who);
    StepsQuietly(s, k1, false, OnActor);
    ProceedsThen(s, WithCall(s, k1, false), GivenUp(s, false), who);
  }
}
