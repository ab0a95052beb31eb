/** What the invariant says about whole runs of the actor runtime. */
module ActorTheorems {
  import opened Options
  import opened ActorRuntime
  import opened ActorInvariant

  /** Some run of a new actor leads to the state. */
  ghost predicate Reachable(s: State)
  {
    exists mailboxSize: int, hasDlo: bool, run: seq<Step> ::
      Legal(Init(mailboxSize, hasDlo), run) && s == Exec(Init(mailboxSize, hasDlo), run)
  }

  lemma ReachableInv(s: State)
    requires Reachable(s)
    ensures Inv(s)
  {
    var mailboxSize: int, hasDlo: bool, run: seq<Step> :|
      Legal(Init(mailboxSize, hasDlo), run) && s == Exec(Init(mailboxSize, hasDlo), run);
    InitInv(mailboxSize, hasDlo);
    RunKeepsInv(Init(mailboxSize, hasDlo), run);
  }

  // ----- Messages ---------------------------------------------------------

  /** Every accepted message is handled once, in the order it was accepted. */
  lemma Conservation(s: State)
    requires Reachable(s)
    ensures s.h.accepted == s.h.received + s.h.drained + s.box.queue
    ensures NoDup(s.h.accepted)
    ensures |s.box.queue| <= s.box.capacity
    ensures InReceive(s.phase) ==> s.h.drained == []
    ensures s.phase.Done? ==> s.h.accepted == s.h.received + s.h.drained
  {
    ReachableInv(s);
  }

  /** `t` continues `s`: logs only grow, and a completed promise keeps its result. */
  ghost predicate Extends(s: State, t: State)
  {
    && s.h.accepted <= t.h.accepted && s.h.received <= t.h.received && s.h.drained <= t.h.drained
    && s.dlo <= t.dlo && |s.calls| <= |t.calls|
    && (s.stopped ==> t.stopped) && t.hasDlo == s.hasDlo
    && (forall c :: 0 <= c < |s.calls| ==>
          && t.calls[c].ask == s.calls[c].ask
          && (s.calls[c].cancelled ==> t.calls[c].cancelled)
          && (s.calls[c].promise.Some? ==> t.calls[c].promise == s.calls[c].promise))
    && (s.phase.Done? ==> t.phase.Done? && t.h == s.h && t.box.queue == s.box.queue)
  }

  lemma NextCallExtends(s: State, k: Call, branch: Branch)
    ensures NextCall(s, k, branch).ask == k.ask && NextCall(s, k, branch).cancelled == k.cancelled
    ensures k.promise.Some? ==> NextCall(s, k, branch).promise == k.promise
  {
  }

  lemma AdvanceExtends(s: State, c: nat, branch: Branch)
    requires LockInv(s) && AdvanceEnabled(s, c, branch)
    ensures Extends(s, AdvanceStep(s, c, branch))
  {
    NextCallExtends(s, s.calls[c], branch);
  }

  lemma ReceiveExtends(s: State, take: bool, reply: Reply)
    requires Inv(s) && ProcessEnabled(s, take) && InReceive(s.phase)
    ensures Extends(s, ReceiveStep(s, take, reply))
  {
  }

  lemma DrainExtends(s: State)
    requires Inv(s) && ProcessEnabled(s, false) && InDrain(s.phase)
    ensures Extends(s, DrainStep(s))
  {
  }

  lemma CloseExtends(s: State)
    ensures Extends(s, CloseStep(s))
  {
  }

  lemma ProcessExtends(s: State, take: bool, reply: Reply)
    requires Inv(s) && ProcessEnabled(s, take)
    ensures Extends(s, Apply(s, Process(take, reply)))
  {
    if InReceive(s.phase) {
      ReceiveExtends(s, take, reply);
    } else if InClose(s.phase) {
      CloseExtends(s);
    } else {
      DrainExtends(s);
    }
  }

  lemma OutsideExtends(s: State, step: Step)
    requires Enabled(s, step) && (step.Begin? || step.Cancel? || step.Start? || step.Stop?)
    ensures Extends(s, Apply(s, step))
  {
  }

  lemma StepExtends(s: State, step: Step)
    requires Inv(s) && Enabled(s, step)
    ensures Extends(s, Apply(s, step))
  {
    match step
    case Advance(c, branch) => AdvanceExtends(s, c, branch);
    case Process(take, reply) => ProcessExtends(s, take, reply);
    case _ => OutsideExtends(s, step);
  }

  lemma {:induction false} RunExtends(s: State, run: seq<Step>)
    requires Inv(s) && Legal(s, run)
    ensures Extends(s, Exec(s, run))
    decreases |run|
  {
    if run != [] {
      StepExtends(s, run[0]);
      StepKeepsInv(s, run[0]);
      RunExtends(Apply(s, run[0]), run[1..]);
    }
  }

  /** Once `process` has returned the mailbox stays empty and nothing more is accepted. */
  lemma DoneForGood(s: State, run: seq<Step>)
    requires Reachable(s) && s.phase.Done? && Legal(s, run)
    ensures Exec(s, run).phase.Done?
    ensures Exec(s, run).box.queue == [] && Exec(s, run).h.accepted == s.h.accepted
  {
    ReachableInv(s);
    RunExtends(s, run);
  }

  /** A message whose send returned before another call began is also handled before it. */
  lemma SenderOrder(s: State, run: seq<Step>, c: nat, d: nat, i: nat, j: nat)
    requires Reachable(s) && Legal(s, run)
    requires c in s.h.accepted && |s.calls| <= d
    requires var a := Exec(s, run).h.received + Exec(s, run).h.drained;
             i < |a| && j < |a| && a[i] == c && a[j] == d
    ensures i < j
  {
    ReachableInv(s);
    RunExtends(s, run);
    RunKeepsInv(s, run);
    var t := Exec(s, run);
    assert t.h.accepted[i] == c && t.h.accepted[j] == d;
    var k :| 0 <= k < |s.h.accepted| && s.h.accepted[k] == c;
    assert t.h.accepted[k] == c;
  }

  // ----- Promises ---------------------------------------------------------

  /** Which loop, if any, took the envelope of a call. */
  lemma PlaceOf(s: State, c: nat)
    requires Inv(s) && c < |s.calls|
    ensures c in s.h.received <==> FromReceive(s.calls[c].place)
    ensures c in s.h.drained <==> FromDrain(s.calls[c].place)
    ensures c in s.box.queue <==> s.calls[c].place == Queued
    ensures c in s.h.accepted <==> s.calls[c].place != Unsent
  {
  }

  /**
    Of every reachable state: no Complete call was wasted; an Ask whose message
    reached the behaviour is answered with the behaviour's own result; one that
    was drained, or never sent, is answered with a non-nil error that tells why.
  */
  lemma AskOutcome(s: State, c: nat)
    requires Reachable(s) && c < |s.calls| && s.calls[c].ask
    ensures s.calls[c].lost == 0
    ensures s.calls[c].promise.Some? && c in s.h.received ==>
              s.calls[c].reply.Some? && s.calls[c].promise == s.calls[c].reply
    ensures s.calls[c].promise.Some? && c in s.h.drained ==>
              s.calls[c].promise == Some(Err(Some(ActorTerminated)))
    ensures s.calls[c].promise.Some? && c !in s.h.accepted ==>
              || (s.calls[c].promise == Some(Err(Some(ActorTerminated))) && s.stopped)
              || (s.calls[c].promise == Some(Err(Some(CallerCancelled))) && s.calls[c].cancelled)
    ensures s.calls[c].promise.Some? && c in s.h.accepted ==> c in s.h.received || c in s.h.drained
  {
    ReachableInv(s);
    PlaceOf(s, c);
  }

  /** Once `process` and the Ask call have both returned, the promise is completed. */
  lemma AskResolved(s: State, c: nat)
    requires Reachable(s) && s.phase.Done?
    requires c < |s.calls| && s.calls[c].ask && s.calls[c].pc.Returned?
    ensures s.calls[c].promise.Some?
  {
    ReachableInv(s);
    PlaceOf(s, c);
    assert HandOf(s.calls[c].place, s.phase, c);
  }

  /** A completed promise keeps its first result in every continuation. */
  lemma PromiseIsStable(s: State, run: seq<Step>, c: nat)
    requires Reachable(s) && Legal(s, run) && c < |s.calls| && s.calls[c].promise.Some?
    ensures c < |Exec(s, run).calls| && Exec(s, run).calls[c].promise == s.calls[c].promise
  {
    ReachableInv(s);
    RunExtends(s, run);
  }

  // ----- Tell -------------------------------------------------------------

  /**
    No Tell is both processed and a dead letter, none is a dead letter twice,
    and once it and `process` have returned it is one of the two unless its
    caller's context was cancelled or there is no dead letter office.
  */
  lemma TellFate(s: State, c: nat)
    requires Reachable(s) && c < |s.calls| && !s.calls[c].ask
    ensures !(c in s.h.received && c in s.dlo)
    ensures multiset(s.dlo)[c] <= 1 && multiset(s.h.received)[c] <= 1
    ensures s.calls[c].pc.Returned? && c !in s.h.accepted && c !in s.dlo ==>
              s.calls[c].cancelled || !s.hasDlo
    ensures s.phase.Done? && s.calls[c].pc.Returned? && c !in s.h.received && c !in s.dlo ==>
              s.calls[c].cancelled || !s.hasDlo
  {
    ReachableInv(s);
    PlaceOf(s, c);
    assert HandOf(s.calls[c].place, s.phase, c);
    assert s.h.received == s.h.accepted[..|s.h.received|];
    CountOnce(s.dlo, c);
    CountOnce(s.h.received, c);
  }

  lemma {:induction false} CountOnce(q: seq<nat>, c: nat)
    requires NoDup(q)
    ensures multiset(q)[c] <= 1
  {
    if q != [] {
      var p := q[..|q| - 1];
      assert q == p + [q[|q| - 1]];
      CountOnce(p, c);
      if q[|q| - 1] == c { assert c !in p; }
    }
  }

  // ----- Shutdown ---------------------------------------------------------

  /** No run sends on, or closes, a closed channel. */
  lemma NeverPanics(s: State)
    requires Reachable(s)
    ensures !s.panicked
    ensures s.box.chanClosed ==> forall c :: 0 <= c < |s.calls| ==> !s.calls[c].pc.Select?
  {
    ReachableInv(s);
  }

  predicate ProgramStep(step: Step) { step.Advance? || step.Process? }

  /** Every call has returned and the processing loop is not running. */
  predicate Quiescent(s: State)
  {
    && (s.phase.Idle? || s.phase.Done?)
    && forall c :: 0 <= c < |s.calls| ==> s.calls[c].pc.Returned?
  }

  lemma CanAdvance(s: State, c: nat)
    requires LockInv(s) && s.stopped && c < |s.calls| && !s.calls[c].pc.Returned?
    requires HoldsLock(s.calls[c].pc) || s.phase.Idle? || s.phase.Done?
    ensures Enabled(s, Advance(c, OnActor))
  {
  }

  /** After Stop some goroutine can move until all of them are finished. */
  lemma Progress(s: State)
    requires Reachable(s) && s.stopped && !Quiescent(s)
    ensures exists step :: ProgramStep(step) && Enabled(s, step)
  {
    ReachableInv(s);
    if s.phase.Idle? || s.phase.Done? {
      var c :| 0 <= c < |s.calls| && !s.calls[c].pc.Returned?;
      CanAdvance(s, c);
      assert ProgramStep(Advance(c, OnActor));
    } else if s.phase.AwaitLock? && s.box.readers != {} {
      var c :| c in s.box.readers;
      CanAdvance(s, c);
      assert ProgramStep(Advance(c, OnActor));
    } else {
      assert Enabled(s, Process(false, Ok(0))) && ProgramStep(Process(false, Ok(0)));
    }
  }

  const BEGIN_COST: nat := 20
  const MESSAGE_COST: nat := 4

  function CallCost(pc: Pc): nat
  {
    match pc
    case CheckActor => BEGIN_COST
    case CheckCaller => 19
    case Lock => 18
    case CheckClosed => 17
    case Select => 16
    case Unlock(sent) => if sent then 1 else 4
    case Failed => 3
    case FailTerminated => 2
    case FailCancelled => 2
    case DeadLetter => 2
    case Returned => 0
  }

  function PhaseCost(p: Phase): nat
  {
    match p
    case Idle => 10
    case Receiving => 10
    case Handling(_) => 12
    case Answering(_, _) => 11
    case Closing => 9
    case AwaitLock => 8
    case StoreClosed => 7
    case CloseChan => 6
    case ReleaseLock => 5
    case DrainStart => 4
    case Draining => 3
    case Discarding(_) => 5
    case Terminating(_) => 4
    case Done => 0
  }

  function CallsCost(calls: seq<Call>): nat
  {
    if calls == [] then 0 else CallCost(calls[0].pc) + CallsCost(calls[1..])
  }

  /** The part of the measure that the processing loop spends. */
  function LoopCost(s: State): nat
  {
    MESSAGE_COST * |s.box.queue| + PhaseCost(s.phase)
  }

  /** The work left, over callers, queue length and phase. */
  function Measure(s: State): nat
  {
    CallsCost(s.calls) + LoopCost(s)
  }

  lemma {:induction false} CostUpdate(calls: seq<Call>, c: nat, k: Call)
    requires c < |calls|
    ensures CallsCost(calls[c := k]) == CallsCost(calls) - CallCost(calls[c].pc) + CallCost(k.pc)
  {
    if c == 0 {
      assert calls[c := k][1..] == calls[1..];
    } else {
      assert calls[c := k][1..] == calls[1..][c - 1 := k];
      CostUpdate(calls[1..], c - 1, k);
    }
  }

  lemma {:induction false} CostAppend(calls: seq<Call>, k: Call)
    ensures CallsCost(calls + [k]) == CallsCost(calls) + CallCost(k.pc)
  {
    if calls != [] {
      assert (calls + [k])[1..] == calls[1..] + [k];
      CostAppend(calls[1..], k);
    } else {
      assert [k][1..] == [];
    }
  }

  ghost predicate SameCode(a: seq<Call>, b: seq<Call>)
  {
    |a| == |b| && forall c :: 0 <= c < |a| ==> a[c].pc == b[c].pc
  }

  /** The costs change only with program counters. */
  lemma {:induction false} CostSame(a: seq<Call>, b: seq<Call>)
    requires SameCode(a, b)
    ensures CallsCost(a) == CallsCost(b)
  {
    if a != [] { CostSame(a[1..], b[1..]); }
  }

  lemma AdvanceCost(s: State, c: nat, branch: Branch)
    requires LockInv(s) && AdvanceEnabled(s, c, branch)
    ensures Measure(AdvanceStep(s, c, branch)) < Measure(s)
  {
    CostUpdate(s.calls, c, NextCall(s, s.calls[c], branch));
  }

  lemma ReceiveCost(s: State, take: bool, reply: Reply)
    requires ProcessEnabled(s, take) && InReceive(s.phase)
    ensures LoopCost(ReceiveStep(s, take, reply)) < LoopCost(s)
    ensures SameCode(s.calls, ReceiveStep(s, take, reply).calls)
  {
  }

  lemma CloseCost(s: State)
    requires LockInv(s) && ProcessEnabled(s, false) && InClose(s.phase)
    ensures LoopCost(CloseStep(s)) < LoopCost(s)
    ensures SameCode(s.calls, CloseStep(s).calls)
  {
  }

  lemma DrainCost(s: State)
    requires ProcessEnabled(s, false) && InDrain(s.phase)
    ensures LoopCost(DrainStep(s)) < LoopCost(s)
    ensures SameCode(s.calls, DrainStep(s).calls)
  {
  }

  lemma ProcessCost(s: State, take: bool, reply: Reply)
    requires LockInv(s) && ProcessEnabled(s, take)
    ensures Measure(Apply(s, Process(take, reply))) < Measure(s)
  {
    if InReceive(s.phase) { ReceiveCost(s, take, reply); }
    else if InClose(s.phase) { CloseCost(s); }
    else { DrainCost(s); }
    CostSame(s.calls, Apply(s, Process(take, reply)).calls);
  }

  /** Program steps use the measure up; only the beginning of a call adds to it. */
  lemma StepCost(s: State, step: Step)
    requires LockInv(s) && Enabled(s, step)
    ensures ProgramStep(step) ==> Measure(Apply(s, step)) < Measure(s)
    ensures !ProgramStep(step) ==>
              Measure(Apply(s, step)) <= Measure(s) + if step.Begin? then BEGIN_COST else 0
  {
    match step
    case Advance(c, branch) => AdvanceCost(s, c, branch);
    case Process(take, reply) => ProcessCost(s, take, reply);
    case Begin(ask) =>
      CostAppend(s.calls, Call(ask, CheckActor, false, None, Unsent, None, false, 0));
    case Cancel(c) => CostSame(s.calls, Apply(s, step).calls);
    case _ =>
  }

  function ProgramSteps(run: seq<Step>): nat
  {
    if run == [] then 0 else (if ProgramStep(run[0]) then 1 else 0) + ProgramSteps(run[1..])
  }

  function Begins(run: seq<Step>): nat
  {
    if run == [] then 0 else (if run[0].Begin? then 1 else 0) + Begins(run[1..])
  }

  /** In every run the program takes boundedly many steps, whatever the scheduler does. */
  lemma {:induction false} RunCost(s: State, run: seq<Step>)
    requires Inv(s) && Legal(s, run)
    ensures ProgramSteps(run) + Measure(Exec(s, run)) <= Measure(s) + BEGIN_COST * Begins(run)
    decreases |run|
  {
    if run != [] {
      StepCost(s, run[0]);
      StepKeepsInv(s, run[0]);
      RunCost(Apply(s, run[0]), run[1..]);
    }
  }

  /**
    After Stop of a started actor, a run in which no new call begins has at most
    `Measure` program steps, and when none is left to take, `process` has
    returned, every call has returned and every Ask is answered.
  */
  lemma ShutdownCompletes(s: State, run: seq<Step>)
    requires Reachable(s) && s.stopped && !s.phase.Idle?
    requires Legal(s, run) && Begins(run) == 0
    ensures ProgramSteps(run) <= Measure(s)
    ensures (forall step :: ProgramStep(step) ==> !Enabled(Exec(s, run), step)) ==>
              && Exec(s, run).phase.Done? && Quiescent(Exec(s, run))
              && (forall c :: 0 <= c < |Exec(s, run).calls| && Exec(s, run).calls[c].ask ==>
                    Exec(s, run).calls[c].promise.Some?)
  {
    ReachableInv(s);
    RunCost(s, run);
    RunExtends(s, run);
    RunStarted(s, run);
    var t := Exec(s, run);
    ReachableRun(s, run);
    if forall step :: ProgramStep(step) ==> !Enabled(t, step) {
      if !Quiescent(t) { Progress(t); }
      forall c | 0 <= c < |t.calls| && t.calls[c].ask ensures t.calls[c].promise.Some? {
        AskResolved(t, c);
      }
    }
  }

  lemma {:induction false} RunStarted(s: State, run: seq<Step>)
    requires Legal(s, run) && !s.phase.Idle?
    ensures !Exec(s, run).phase.Idle?
    decreases |run|
  {
    if run != [] { RunStarted(Apply(s, run[0]), run[1..]); }
  }

  lemma {:induction false} Compose(s: State, first: seq<Step>, second: seq<Step>)
    requires Legal(s, first) && Legal(Exec(s, first), second)
    ensures Legal(s, first + second) && Exec(s, first + second) == Exec(Exec(s, first), second)
    decreases |first|
  {
    if first == [] {
      assert first + second == second;
    } else {
      assert (first + second)[1..] == first[1..] + second;
      Compose(Apply(s, first[0]), first[1..], second);
    }
  }

  lemma ReachableRun(s: State, run: seq<Step>)
    requires Reachable(s) && Legal(s, run)
    ensures Reachable(Exec(s, run))
  {
    var mailboxSize: int, hasDlo: bool, first: seq<Step> :|
      Legal(Init(mailboxSize, hasDlo), first) && s == Exec(Init(mailboxSize, hasDlo), first);
    Compose(Init(mailboxSize, hasDlo), first, run);
  }
}
