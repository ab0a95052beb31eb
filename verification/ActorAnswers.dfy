/** What a call is answered, by what the behaviour returned and by when contexts ended. */
module ActorAnswers {
  import opened Options
  import opened ActorRuntime
  import opened ActorInvariant
  import opened ActorTheorems

  // ----- What a step changes in a call ------------------------------------

  /** What the processing loop may do to a call: a call not sent is left alone, and only the behaviour replies. */
  ghost predicate LoopChange(s: State, c: nat, k: Call, k': Call, reply: Reply)
  {
    && k'.cancelled == k.cancelled
    && (k.place == Unsent ==> k' == k)
    && (k'.reply == k.reply || (s.phase == Handling(c) && k'.reply == Some(reply)))
    && (k'.lettered == k.lettered || (s.hasDlo && InDrain(s.phase)))
  }

  ghost predicate LoopChanges(s: State, t: State, reply: Reply)
  {
    && t.box.capacity == s.box.capacity && t.hasDlo == s.hasDlo && t.stopped == s.stopped
    && !t.phase.Idle? && |t.calls| == |s.calls|
    && forall c :: 0 <= c < |s.calls| ==> LoopChange(s, c, s.calls[c], t.calls[c], reply)
  }

  lemma ReceiveChanges(s: State, take: bool, reply: Reply)
    requires PlaceInv(s) && HandInv(s) && ProcessEnabled(s, take) && InReceive(s.phase)
    ensures LoopChanges(s, ReceiveStep(s, take, reply), reply)
  {
    match s.phase
    case Receiving => ReceiveTakes(s, take, reply);
    case Handling(e) => ReceiveHandles(s, take, e, reply);
    case Answering(e, _) => ReceiveAnswers(s, take, e, reply);
    case _ =>
  }

  lemma ReceiveTakes(s: State, take: bool, reply: Reply)
    requires PlaceInv(s) && s.phase == Receiving
    ensures LoopChanges(s, ReceiveStep(s, take, reply), reply)
  {
  }

  lemma ReceiveHandles(s: State, take: bool, e: nat, reply: Reply)
    requires HandInv(s) && s.phase == Handling(e)
    ensures LoopChanges(s, ReceiveStep(s, take, reply), reply)
  {
  }

  lemma ReceiveAnswers(s: State, take: bool, e: nat, reply: Reply)
    requires HandInv(s) && s.phase.Answering? && s.phase.env == e
    ensures LoopChanges(s, ReceiveStep(s, take, reply), reply)
  {
  }

  lemma CloseChanges(s: State, reply: Reply)
    requires InClose(s.phase)
    ensures LoopChanges(s, CloseStep(s), reply)
  {
  }

  lemma DrainChanges(s: State, reply: Reply)
    requires PlaceInv(s) && HandInv(s) && InDrain(s.phase)
    ensures LoopChanges(s, DrainStep(s), reply)
  {
    match s.phase
    case Draining => DrainTakes(s, reply);
    case Discarding(e) => DrainDiscards(s, e, reply);
    case Terminating(e) => DrainTerminates(s, e, reply);
    case _ =>
  }

  lemma DrainTakes(s: State, reply: Reply)
    requires PlaceInv(s) && s.phase == Draining
    ensures LoopChanges(s, DrainStep(s), reply)
  {
  }

  lemma DrainDiscards(s: State, e: nat, reply: Reply)
    requires HandInv(s) && s.phase == Discarding(e)
    ensures LoopChanges(s, DrainStep(s), reply)
  {
  }

  lemma DrainTerminates(s: State, e: nat, reply: Reply)
    requires HandInv(s) && s.phase == Terminating(e)
    ensures LoopChanges(s, DrainStep(s), reply)
  {
  }

  lemma ProcessChanges(s: State, take: bool, reply: Reply)
    requires Inv(s) && ProcessEnabled(s, take)
    ensures LoopChanges(s, Apply(s, Process(take, reply)), reply)
  {
    if InReceive(s.phase) {
      ReceiveChanges(s, take, reply);
    } else if InClose(s.phase) {
      CloseChanges(s, reply);
    } else {
      DrainChanges(s, reply);
    }
  }

  /** A caller's step changes its own call only. */
  ghost predicate CallChanges(s: State, t: State, c: nat, branch: Branch)
    requires c < |s.calls|
  {
    && t.box.capacity == s.box.capacity && t.hasDlo == s.hasDlo && t.stopped == s.stopped && t.phase == s.phase
    && t.calls == s.calls[c := NextCall(s, s.calls[c], branch)]
  }

  lemma AdvanceChanges(s: State, c: nat, branch: Branch)
    requires LockInv(s) && AdvanceEnabled(s, c, branch)
    ensures CallChanges(s, AdvanceStep(s, c, branch), c, branch)
  {
  }

  lemma NextCallChanges(s: State, k: Call, branch: Branch)
    ensures var k' := NextCall(s, k, branch);
            && k'.cancelled == k.cancelled && k'.reply == k.reply
            && (k'.lettered <==> k.lettered || (k.pc.DeadLetter? && s.hasDlo))
  {
  }

  // ----- The behaviour's own answer ---------------------------------------

  /** Whenever the behaviour handles envelope `e` in the run, it returns `f(e)`. */
  ghost predicate Returns(s: State, run: seq<Step>, f: nat -> Reply)
    requires Legal(s, run)
    decreases |run|
  {
    run == [] ||
    ((run[0].Process? && s.phase.Handling? ==> run[0].reply == f(s.phase.env)) &&
     Returns(Apply(s, run[0]), run[1..], f))
  }

  ghost predicate Told(s: State, f: nat -> Reply)
  {
    forall c :: 0 <= c < |s.calls| && s.calls[c].reply.Some? ==> s.calls[c].reply == Some(f(c))
  }

  lemma StepTold(s: State, step: Step, f: nat -> Reply)
    requires Inv(s) && Enabled(s, step) && Told(s, f)
    requires step.Process? && s.phase.Handling? ==> step.reply == f(s.phase.env)
    ensures Told(Apply(s, step), f)
  {
    match step
    case Advance(c, branch) =>
      AdvanceChanges(s, c, branch);
      NextCallChanges(s, s.calls[c], branch);
    case Process(take, reply) =>
      ProcessChanges(s, take, reply);
      LoopTold(s, Apply(s, step), reply, f);
    case _ =>
  }

  lemma LoopTold(s: State, t: State, reply: Reply, f: nat -> Reply)
    requires Told(s, f) && LoopChanges(s, t, reply) && (s.phase.Handling? ==> reply == f(s.phase.env))
    ensures Told(t, f)
  {
    forall c | 0 <= c < |t.calls| && t.calls[c].reply.Some? ensures t.calls[c].reply == Some(f(c)) {
      assert LoopChange(s, c, s.calls[c], t.calls[c], reply);
    }
  }

  lemma {:induction false} RunTold(s: State, run: seq<Step>, f: nat -> Reply)
    requires Inv(s) && Legal(s, run) && Returns(s, run, f) && Told(s, f)
    ensures Told(Exec(s, run), f)
    decreases |run|
  {
    if run != [] {
      StepTold(s, run[0], f);
      StepKeepsInv(s, run[0]);
      RunTold(Apply(s, run[0]), run[1..], f);
    }
  }

  /** Whatever the behaviour returns: an answered Ask that reached it holds just that. */
  lemma AnswerIsReturned(mailboxSize: int, hasDlo: bool, run: seq<Step>, f: nat -> Reply, c: nat)
    requires Legal(Init(mailboxSize, hasDlo), run) && Returns(Init(mailboxSize, hasDlo), run, f)
    ensures var t := Exec(Init(mailboxSize, hasDlo), run);
            c < |t.calls| && t.calls[c].ask && t.calls[c].promise.Some? && c in t.h.received ==>
              t.calls[c].promise == Some(f(c))
  {
    var s := Init(mailboxSize, hasDlo);
    InitInv(mailboxSize, hasDlo);
    RunTold(s, run, f);
    var t := Exec(s, run);
    assert Reachable(t);
    if c < |t.calls| && t.calls[c].ask { AskOutcome(t, c); }
  }

  // ----- What the run was given -------------------------------------------

  /**
    The mailbox has the size asked for, or one, and the actor the dead letter
    office it was given; it is started and stopped, and contexts are cancelled,
    exactly by the steps that say so.
  */
  lemma {:induction false} RunGiven(s: State, run: seq<Step>)
    requires Inv(s) && Legal(s, run)
    ensures var t := Exec(s, run);
            && t.box.capacity == s.box.capacity && t.hasDlo == s.hasDlo
            && (t.stopped <==> s.stopped || Step.Stop in run)
            && (t.phase.Idle? <==> s.phase.Idle? && Start !in run)
            && |t.calls| == |s.calls| + Begins(run)
            && (forall c :: 0 <= c < |t.calls| ==>
                  (t.calls[c].cancelled <==> (c < |s.calls| && s.calls[c].cancelled) || Cancel(c) in run))
    decreases |run|
  {
    if run != [] {
      StepGiven(s, run[0]);
      StepKeepsInv(s, run[0]);
      RunGiven(Apply(s, run[0]), run[1..]);
      assert forall e :: e in run <==> e == run[0] || e in run[1..];
    }
  }

  ghost predicate Given(s: State, t: State, step: Step)
  {
    && t.box.capacity == s.box.capacity && t.hasDlo == s.hasDlo
    && (t.stopped <==> s.stopped || step == Step.Stop)
    && (t.phase.Idle? <==> s.phase.Idle? && step != Start)
    && |t.calls| == |s.calls| + (if step.Begin? then 1 else 0)
    && (forall c :: 0 <= c < |t.calls| ==>
          (t.calls[c].cancelled <==> (c < |s.calls| && s.calls[c].cancelled) || step == Cancel(c)))
  }

  lemma StepGiven(s: State, step: Step)
    requires Inv(s) && Enabled(s, step)
    ensures Given(s, Apply(s, step), step)
  {
    match step
    case Advance(c, branch) =>
      AdvanceChanges(s, c, branch);
      NextCallChanges(s, s.calls[c], branch);
    case Process(take, reply) =>
      ProcessChanges(s, take, reply);
      LoopGiven(s, Apply(s, step), step);
    case _ =>
  }

  lemma LoopGiven(s: State, t: State, step: Step)
    requires step.Process? && LoopChanges(s, t, step.reply) && !s.phase.Idle?
    ensures Given(s, t, step)
  {
    forall c | 0 <= c < |t.calls| ensures t.calls[c].cancelled == s.calls[c].cancelled {
      assert LoopChange(s, c, s.calls[c], t.calls[c], step.reply);
    }
  }

  lemma FromInit(mailboxSize: int, hasDlo: bool, run: seq<Step>)
    requires Legal(Init(mailboxSize, hasDlo), run)
    ensures var t := Exec(Init(mailboxSize, hasDlo), run);
            && t.box.capacity == (if mailboxSize <= 0 then 1 else mailboxSize) && t.hasDlo == hasDlo
            && (t.stopped <==> Step.Stop in run) && (t.phase.Idle? <==> Start !in run)
            && |t.calls| == Begins(run)
            && (forall c :: 0 <= c < |t.calls| ==> (t.calls[c].cancelled <==> Cancel(c) in run))
  {
    InitInv(mailboxSize, hasDlo);
    RunGiven(Init(mailboxSize, hasDlo), run);
  }

  // ----- Calls whose envelope is not sent ---------------------------------

  /** Such a call changes by its own steps only. */
  lemma UnsentStep(s: State, step: Step, c: nat)
    requires Inv(s) && Enabled(s, step) && c < |s.calls| && s.calls[c].place == Unsent
    ensures c < |Apply(s, step).calls|
    ensures var k, k' := s.calls[c], Apply(s, step).calls[c];
            if step.Advance? && step.c == c then k' == NextCall(s, k, step.branch)
            else k' == if step == Cancel(c) then k.(cancelled := true) else k
  {
    match step
    case Advance(d, branch) => AdvanceChanges(s, d, branch);
    case Process(take, reply) =>
      ProcessChanges(s, take, reply);
      assert LoopChange(s, c, s.calls[c], Apply(s, step).calls[c], reply);
    case _ =>
  }

  /** The call ended as one of a terminated actor. */
  predicate Terminal(k: Call, hasDlo: bool)
  {
    if k.ask then k.promise == Some(Err(Some(ActorTerminated))) else k.promise.None? && k.lettered == hasDlo
  }

  /** A call of an actor whose context is done, not sent: if it ends like this, it ends terminated. */
  predicate Doomed(k: Call, hasDlo: bool)
  {
    && k.place == Unsent && k.pc != CheckCaller && k.pc != FailCancelled && k.pc != Unlock(true)
    && (k.pc == Returned ==> Terminal(k, hasDlo))
    && (k.pc != Returned ==> k.promise.None? && !k.lettered)
  }

  /** A call that began when the actor's context was done already. */
  predicate Late(k: Call, hasDlo: bool)
  {
    Doomed(k, hasDlo) && (k.pc in {CheckActor, Returned} || k.pc == if k.ask then FailTerminated else DeadLetter)
  }

  /** An Ask whose context was cancelled before it looked at it. */
  predicate Barred(k: Call)
  {
    k.ask && k.cancelled && k.place == Unsent
    && k.pc in {CheckActor, CheckCaller, FailTerminated, FailCancelled, Returned}
  }

  lemma StepDoomed(s: State, step: Step, c: nat)
    requires Inv(s) && Enabled(s, step) && s.stopped && c < |s.calls| && Doomed(s.calls[c], s.hasDlo)
    ensures var t := Apply(s, step);
            c < |t.calls| && t.stopped && t.hasDlo == s.hasDlo
            && (Doomed(t.calls[c], t.hasDlo) || t.calls[c].place != Unsent)
            && (Late(s.calls[c], s.hasDlo) ==> Late(t.calls[c], t.hasDlo))
  {
    UnsentStep(s, step, c);
    StepExtends(s, step);
  }

  lemma {:induction false} RunDoomed(s: State, run: seq<Step>, c: nat)
    requires Inv(s) && Legal(s, run) && s.stopped && c < |s.calls|
    requires Doomed(s.calls[c], s.hasDlo) || s.calls[c].place != Unsent
    ensures var t := Exec(s, run);
            c < |t.calls| && (Doomed(t.calls[c], t.hasDlo) || t.calls[c].place != Unsent)
            && (Late(s.calls[c], s.hasDlo) ==> Late(t.calls[c], t.hasDlo))
    decreases |run|
  {
    if run != [] {
      StepKeepsInv(s, run[0]);
      StepExtends(s, run[0]);
      if s.calls[c].place == Unsent { StepDoomed(s, run[0], c); } else { SentStays(s, run[0], c); }
      RunDoomed(Apply(s, run[0]), run[1..], c);
    }
  }

  lemma SentStays(s: State, step: Step, c: nat)
    requires Inv(s) && Enabled(s, step) && c < |s.calls| && s.calls[c].place != Unsent
    ensures c < |Apply(s, step).calls| && Apply(s, step).calls[c].place != Unsent
  {
    StepKeepsInv(s, step);
    StepExtends(s, step);
    PlaceOf(s, c);
    PlaceOf(Apply(s, step), c);
  }

  /**
    The actor's context comes first: a call that is on its way when the context
    is done, and has not read its caller's context as the reason to fail, is
    sent, or ends as one of a terminated actor.
  */
  lemma StoppedOnTheWay(s: State, run: seq<Step>, c: nat)
    requires Reachable(s) && Legal(s, run) && s.stopped && c < |s.calls| && Doomed(s.calls[c], s.hasDlo)
    ensures var t := Exec(s, run);
            c < |t.calls| && (c !in t.h.accepted && t.calls[c].pc.Returned? ==> Terminal(t.calls[c], t.hasDlo))
  {
    ReachableInv(s);
    RunDoomed(s, run, c);
    RunKeepsInv(s, run);
    PlaceOf(Exec(s, run), c);
  }

  lemma BeginsLate(s: State, step: Step, c: nat)
    requires Inv(s) && Enabled(s, step) && |s.calls| <= c < |Apply(s, step).calls|
    ensures Late(Apply(s, step).calls[c], s.hasDlo) && Apply(s, step).hasDlo == s.hasDlo
  {
    StepGiven(s, step);
  }

  lemma {:induction false} RunLate(s: State, run: seq<Step>, c: nat)
    requires Inv(s) && Legal(s, run) && s.stopped && |s.calls| <= c < |Exec(s, run).calls|
    ensures Late(Exec(s, run).calls[c], s.hasDlo) && Exec(s, run).hasDlo == s.hasDlo
    decreases |run|
  {
    if run != [] {
      var t := Apply(s, run[0]);
      StepKeepsInv(s, run[0]);
      StepExtends(s, run[0]);
      if c < |t.calls| {
        BeginsLate(s, run[0], c);
        RunDoomed(t, run[1..], c);
        RunExtends(t, run[1..]);
      } else {
        RunLate(t, run[1..], c);
      }
    }
  }

  /** A call that begins after Stop is never sent: an Ask fails, a Tell is a dead letter if there is an office. */
  lemma AfterStop(s: State, run: seq<Step>, c: nat)
    requires Reachable(s) && Legal(s, run) && s.stopped && |s.calls| <= c < |Exec(s, run).calls|
    ensures var t := Exec(s, run);
            c !in t.h.accepted && (t.calls[c].pc.Returned? ==> Terminal(t.calls[c], s.hasDlo))
  {
    ReachableInv(s);
    RunLate(s, run, c);
    RunKeepsInv(s, run);
    PlaceOf(Exec(s, run), c);
  }

  lemma {:induction false} RunBarred(s: State, run: seq<Step>, c: nat)
    requires Inv(s) && Legal(s, run) && c < |s.calls| && Barred(s.calls[c])
    ensures c < |Exec(s, run).calls| && Barred(Exec(s, run).calls[c])
    decreases |run|
  {
    if run != [] {
      UnsentStep(s, run[0], c);
      StepKeepsInv(s, run[0]);
      RunBarred(Apply(s, run[0]), run[1..], c);
    }
  }

  /** An Ask whose context is cancelled before it looks at it is never sent. */
  lemma CancelledBefore(s: State, run: seq<Step>, c: nat)
    requires Reachable(s) && Legal(s, run) && c < |s.calls|
    requires s.calls[c].ask && s.calls[c].cancelled && s.calls[c].pc in {CheckActor, CheckCaller}
    ensures c !in Exec(s, run).h.accepted
  {
    ReachableInv(s);
    RunBarred(s, run, c);
    RunKeepsInv(s, run);
    PlaceOf(Exec(s, run), c);
  }

  // ----- The dead letter office -------------------------------------------

  ghost predicate LettersStopped(s: State)
  {
    forall c :: 0 <= c < |s.calls| && s.calls[c].lettered ==> s.stopped && s.hasDlo
  }

  lemma StepLetters(s: State, step: Step)
    requires Inv(s) && Enabled(s, step) && LettersStopped(s)
    ensures LettersStopped(Apply(s, step))
  {
    match step
    case Advance(c, branch) =>
      AdvanceChanges(s, c, branch);
      NextCallChanges(s, s.calls[c], branch);
      assert CallOk(s.stopped, s.hasDlo, s.calls[c]);
    case Process(take, reply) =>
      ProcessChanges(s, take, reply);
      LoopLetters(s, Apply(s, step), reply);
    case _ =>
  }

  lemma LoopLetters(s: State, t: State, reply: Reply)
    requires LettersStopped(s) && LoopChanges(s, t, reply) && (InDrain(s.phase) ==> s.stopped)
    ensures LettersStopped(t)
  {
    forall c | 0 <= c < |t.calls| && t.calls[c].lettered ensures t.stopped && t.hasDlo {
      assert LoopChange(s, c, s.calls[c], t.calls[c], reply);
    }
  }

  lemma {:induction false} RunLetters(s: State, run: seq<Step>)
    requires Inv(s) && Legal(s, run) && LettersStopped(s)
    ensures LettersStopped(Exec(s, run))
    decreases |run|
  {
    if run != [] {
      StepLetters(s, run[0]);
      StepKeepsInv(s, run[0]);
      RunLetters(Apply(s, run[0]), run[1..]);
    }
  }

  /**
    The office gets messages of a stopped actor only: all that are drained, Asks
    among them, and Tells that were not sent; never one that reached the behaviour.
  */
  lemma DeadLetters(s: State, c: nat)
    requires Reachable(s) && c < |s.calls|
    ensures c in s.dlo ==> s.hasDlo && s.stopped && c !in s.h.received
    ensures c in s.dlo && s.calls[c].ask ==> c in s.h.drained
    ensures c in s.h.drained && s.phase != Discarding(c) ==> (c in s.dlo <==> s.hasDlo)
  {
    ReachableInv(s);
    var mailboxSize: int, hasDlo: bool, run: seq<Step> :|
      Legal(Init(mailboxSize, hasDlo), run) && s == Exec(Init(mailboxSize, hasDlo), run);
    InitInv(mailboxSize, hasDlo);
    RunLetters(Init(mailboxSize, hasDlo), run);
    PlaceOf(s, c);
    assert HandOf(s.calls[c].place, s.phase, c);
    assert CallOk(s.stopped, s.hasDlo, s.calls[c]);
  }

  // ----- A started actor --------------------------------------------------

  /** When a started actor that is not stopped can do nothing more, all calls have returned and Asks are answered. */
  lemma ServedAtRest(s: State)
    requires Reachable(s) && !s.phase.Idle? && !s.stopped && forall step :: ProgramStep(step) ==> !Enabled(s, step)
    ensures s.phase == Receiving && s.box.queue == [] && s.h.accepted == s.h.received
    ensures forall c :: 0 <= c < |s.calls| ==> s.calls[c].pc.Returned? && (s.calls[c].ask ==> s.calls[c].promise.Some?)
  {
    ReachableInv(s);
    assert !Enabled(s, Process(true, Ok(0)));
    forall c | 0 <= c < |s.calls| ensures s.calls[c].pc.Returned? && (s.calls[c].ask ==> s.calls[c].promise.Some?) {
      assert !Enabled(s, Advance(c, Enqueue));
      PlaceOf(s, c);
      assert HandOf(s.calls[c].place, s.phase, c) && CallOk(s.stopped, s.hasDlo, s.calls[c]);
    }
  }

  lemma Answering(s: State, step: Step, f: nat -> Reply) returns (e: Step)
    requires ProgramStep(step) && Enabled(s, step)
    ensures ProgramStep(e) && Enabled(s, e) && (e.Process? && s.phase.Handling? ==> e.reply == f(s.phase.env))
  {
    e := if step.Process? && s.phase.Handling? then step.(reply := f(s.phase.env)) else step;
  }

  lemma FirstThen(s: State, e: Step, rest: seq<Step>, f: nat -> Reply)
    requires Enabled(s, e) && Legal(Apply(s, e), rest) && Returns(Apply(s, e), rest, f)
    requires e.Process? && s.phase.Handling? ==> e.reply == f(s.phase.env)
    ensures Legal(s, [e] + rest) && Returns(s, [e] + rest, f) && Exec(s, [e] + rest) == Exec(Apply(s, e), rest)
  {
    assert ([e] + rest)[1..] == rest;
  }

  /** From every state some run of the program goes as far as it can, whatever the behaviour returns. */
  lemma {:induction false} ProgramFinishes(s: State, f: nat -> Reply) returns (run: seq<Step>)
    requires Inv(s)
    ensures Legal(s, run) && forall i :: 0 <= i < |run| ==> ProgramStep(run[i])
    ensures Returns(s, run, f)
    ensures forall step :: ProgramStep(step) ==> !Enabled(Exec(s, run), step)
    decreases Measure(s)
  {
    if step :| ProgramStep(step) && Enabled(s, step) {
      var e := Answering(s, step, f);
      StepCost(s, e);
      StepKeepsInv(s, e);
      var rest := ProgramFinishes(Apply(s, e), f);
      run := [e] + rest;
      FirstThen(s, e, rest, f);
    } else {
      run := [];
    }
  }

  /** The environment's steps are possible at any time. */
  lemma AtAnyTime(s: State, ask: bool, c: nat)
    ensures Enabled(s, Begin(ask)) && Enabled(s, Start) && Enabled(s, Step.Stop)
    ensures c < |s.calls| ==> Enabled(s, Cancel(c))
  {
  }

  /** An Ask of a started actor that is not stopped can be answered with what the behaviour returns for it. */
  lemma AskIsServed(s: State, f: nat -> Reply) returns (run: seq<Step>)
    requires Reachable(s) && !s.phase.Idle? && !s.stopped && Told(s, f)
    ensures Legal(Apply(s, Begin(true)), run)
    ensures var t := Exec(Apply(s, Begin(true)), run);
            |s.calls| < |t.calls| && t.calls[|s.calls|].promise == Some(f(|s.calls|))
  {
    var c, s1 := |s.calls|, Apply(s, Begin(true));
    ReachableInv(s);
    StepKeepsInv(s, Begin(true));
    run := ProgramFinishes(s1, f);
    var t := Exec(s1, run);
    RunGiven(s1, run);
    RunExtends(s1, run);
    RunTold(s1, run, f);
    RunKeepsInv(s1, run);
    ReachableBegin(s, run);
    ServedAtRest(t);
    AskOutcome(t, c);
  }

  lemma ReachableBegin(s: State, run: seq<Step>)
    requires Reachable(s) && Legal(Apply(s, Begin(true)), run)
    ensures Reachable(Exec(Apply(s, Begin(true)), run))
  {
    var rest := [Begin(true)] + run;
    assert rest[1..] == run;
    assert Legal(s, rest) && Exec(s, rest) == Exec(Apply(s, Begin(true)), run);
    ReachableRun(s, rest);
  }

  // ----- Selects and locks ------------------------------------------------

  /** A select may take any branch that is ready: the loop a message after Stop, a sender a context with room left. */
  lemma SelectsAreFree(s: State, c: nat, reply: Reply)
    requires !s.box.chanClosed
    ensures s.phase.Receiving? ==>
              && (Enabled(s, Process(true, reply)) <==> s.box.queue != [])
              && (Enabled(s, Process(false, reply)) <==> s.stopped)
    ensures c < |s.calls| && s.calls[c].pc.Select? ==>
              && (Enabled(s, Advance(c, Enqueue)) <==> |s.box.queue| < s.box.capacity)
              && (Enabled(s, Advance(c, OnCaller)) <==> s.calls[c].cancelled)
              && (Enabled(s, Advance(c, OnActor)) <==> s.stopped)
  {
  }

  /** While Close waits for the lock nobody else gets hold of it. */
  lemma {:induction false} CloseNotStarved(s: State, run: seq<Step>)
    requires Inv(s) && Legal(s, run) && s.phase.AwaitLock? && Exec(s, run).phase.AwaitLock?
    ensures Exec(s, run).box.readers <= s.box.readers
    decreases |run|
  {
    if run != [] {
      var t := Apply(s, run[0]);
      StepKeepsInv(s, run[0]);
      if t.phase.AwaitLock? {
        CloseNotStarved(t, run[1..]);
      } else {
        PastWaiting(t, run[1..]);
      }
    }
  }

  predicate StillWaiting(p: Phase) { p.Idle? || InReceive(p) || p.Closing? || p.AwaitLock? }

  lemma {:induction false} PastWaiting(s: State, run: seq<Step>)
    requires Legal(s, run) && !StillWaiting(s.phase)
    ensures !StillWaiting(Exec(s, run).phase)
    decreases |run|
  {
    if run != [] { PastWaiting(Apply(s, run[0]), run[1..]); }
  }
}
