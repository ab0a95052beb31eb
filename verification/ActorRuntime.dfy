/**
  The actor runtime of actor/actor.go and actor/mailbox.go, as a small-step
  protocol.  Goroutines are program counters, a run is any interleaving of
  their steps, and every `select` is a nondeterministic choice among its ready
  branches.

  A Tell or Ask call is known by its index in `State.calls`, and so is the
  envelope it builds: "the same message" is then meaningful even when two calls
  send equal payloads.
*/
module ActorRuntime {
  import opened Options

  datatype Error = ActorTerminated | CallerCancelled | Behaviour(code: int)

  /** fn.Result[R]; `Err(None)` is an error result that wraps a nil error. */
  datatype Reply = Ok(value: int) | Err(error: Option<Error>)

  /** Where the goroutine of a Tell or Ask call is. */
  datatype Pc =
    | CheckActor           // `ref.actor.ctx.Err()` at the head of the call
    | CheckCaller          // Ask only: `ctx.Err()`
    | Lock                 // Send: waiting for `mu.RLock()`
    | CheckClosed          // Send: read lock held, about to load `closed`
    | Select               // Send: read lock held, inside the select
    | Unlock(sent: bool)   // Send: deferred `mu.RUnlock()`
    | Failed               // Send returned false: re-check the actor context
    | FailTerminated       // Ask: about to complete with ErrActorTerminated
    | FailCancelled        // Ask: about to complete with `ctx.Err()`
    | DeadLetter           // Tell: inside trySendToDLO
    | Returned

  /** Where the envelope of a call is; bookkeeping that no step reads. */
  datatype Place =
    | Unsent
    | Queued
    | Held        // taken by Receive, the behaviour is running
    | Replied     // the behaviour returned, the promise is not completed yet
    | Processed
    | Taken       // taken by Drain
    | Lettered    // past the dead letter office, the promise is not completed yet
    | Drained

  /**
    A call.  `cancelled` is its caller's context, `promise` the result its
    promise was completed with, and the last three fields are bookkeeping:
    the behaviour's result for it, whether its message was handed to the dead
    letter office, and how many Complete calls on its promise returned false.
  */
  datatype Call = Call(
    ask: bool,
    pc: Pc,
    cancelled: bool,
    promise: Option<Reply>,
    place: Place,
    reply: Option<Reply>,
    lettered: bool,
    lost: nat
  )

  /** Where the processing goroutine is. */
  datatype Phase =
    | Idle                              // Start has not been called
    | Receiving                         // in the select of Receive
    | Handling(env: nat)                // the behaviour is running
    | Answering(env: nat, reply: Reply)
    | Closing                           // Close: about to call `mu.Lock()`
    | AwaitLock                         // Close: writer queued on the lock
    | StoreClosed                       // Close: lock held, `closed.Store(true)` next
    | CloseChan                         // Close: `close(m.ch)` next
    | ReleaseLock                       // Close: deferred `mu.Unlock()` next
    | DrainStart                        // Drain: about to load `closed`
    | Draining                          // Drain: in its select
    | Discarding(env: nat)              // handing a drained message to the DLO
    | Terminating(env: nat)             // completing a drained promise
    | Done

  /** ChannelMailbox; a queued writer blocks new readers of the RWMutex. */
  datatype Mailbox = Mailbox(
    capacity: nat,
    queue: seq<nat>,
    chanClosed: bool,
    closed: bool,
    readers: set<nat>,
    waiting: bool,
    writing: bool
  )

  /** The order in which messages were enqueued, and taken by each loop. */
  datatype History = History(accepted: seq<nat>, received: seq<nat>, drained: seq<nat>)

  datatype State = State(
    box: Mailbox,
    hasDlo: bool,
    stopped: bool,                // the actor's context is done
    phase: Phase,
    calls: seq<Call>,
    dlo: seq<nat>,                // messages handed to the dead letter office
    panicked: bool,               // send on, or close of, a closed channel
    h: History
  )

  /** The branches of the select in Send. */
  datatype Branch = Enqueue | OnCaller | OnActor

  /** Begin, Cancel, Start and Stop are the environment's; the rest are the program's. */
  datatype Step =
    | Begin(ask: bool)
    | Cancel(c: nat)
    | Start
    | Stop
    | Advance(c: nat, branch: Branch)
    | Process(take: bool, reply: Reply)

  // ----- Callers ----------------------------------------------------------

  /** promise.Complete: the first call stores the result, a later one loses. */
  function Complete(k: Call, reply: Reply): Call
  {
    if k.promise.None? then k.(promise := Some(reply)) else k.(lost := k.lost + 1)
  }

  /** context.Context.Err of the caller's context; None is nil. */
  function CallerErr(k: Call): Option<Error>
  {
    if k.cancelled then Some(CallerCancelled) else None
  }

  predicate BranchReady(s: State, k: Call, branch: Branch)
  {
    match branch
    case Enqueue => s.box.chanClosed || |s.box.queue| < s.box.capacity
    case OnCaller => k.cancelled
    case OnActor => s.stopped
  }

  predicate AdvanceEnabled(s: State, c: nat, branch: Branch)
  {
    c < |s.calls| &&
    match s.calls[c].pc
    case Returned => false
    case Lock => !s.box.waiting && !s.box.writing
    case Select => BranchReady(s, s.calls[c], branch)
    case _ => true
  }

  /** The code of Tell, Ask and Send, seen from the call itself. */
  function NextCall(s: State, k: Call, branch: Branch): Call
  {
    match k.pc
    case CheckActor =>
      if s.stopped then k.(pc := if k.ask then FailTerminated else DeadLetter)
      else k.(pc := if k.ask then CheckCaller else Lock)
    case CheckCaller => k.(pc := if k.cancelled then FailCancelled else Lock)
    case Lock => k.(pc := CheckClosed)
    case CheckClosed => k.(pc := if s.box.closed then Unlock(false) else Select)
    case Select =>
      if branch == Enqueue then k.(pc := Unlock(true), place := Queued) else k.(pc := Unlock(false))
    case Unlock(sent) => k.(pc := if sent then Returned else Failed)
    case Failed =>
      if k.ask then k.(pc := if s.stopped then FailTerminated else FailCancelled)
      else k.(pc := if s.stopped then DeadLetter else Returned)
    case FailTerminated => Complete(k, Err(Some(ActorTerminated))).(pc := Returned)
    case FailCancelled => Complete(k, Err(CallerErr(k))).(pc := Returned)
    case DeadLetter => k.(pc := Returned, lettered := k.lettered || s.hasDlo)
    case Returned => k
  }

  /** The same step, with what it does to the mailbox and the dead letter office. */
  function AdvanceStep(s: State, c: nat, branch: Branch): State
    requires AdvanceEnabled(s, c, branch)
  {
    var k := s.calls[c];
    var t := s.(calls := s.calls[c := NextCall(s, k, branch)]);
    match k.pc
    case Lock => t.(box := s.box.(readers := s.box.readers + {c}))
    case Unlock(_) => t.(box := s.box.(readers := s.box.readers - {c}))
    case Select =>
      if branch != Enqueue then t
      else if s.box.chanClosed then s.(panicked := true)
      else t.(box := s.box.(queue := s.box.queue + [c]),
              h := s.h.(accepted := s.h.accepted + [c]))
    case DeadLetter => if s.hasDlo then t.(dlo := s.dlo + [c]) else t
    case _ => t
  }

  // ----- The processing loop ----------------------------------------------

  predicate ProcessEnabled(s: State, take: bool)
  {
    match s.phase
    case Idle => false
    case Done => false
    case Receiving => if take then |s.box.queue| > 0 || s.box.chanClosed else s.stopped
    case AwaitLock => s.box.readers == {}
    case _ => true
  }

  function SetCall(s: State, e: nat, k: Call): State
  {
    if e < |s.calls| then s.(calls := s.calls[e := k]) else s
  }

  /** The call an envelope came from. */
  function CallOf(s: State, e: nat): Call
  {
    if e < |s.calls| then s.calls[e] else Call(false, Returned, false, None, Unsent, None, false, 0)
  }

  /** The receive loop of `process`; `take` picks the branch of the select. */
  function ReceiveStep(s: State, take: bool, reply: Reply): State
  {
    match s.phase
    case Receiving =>
      if take && |s.box.queue| > 0 then
        var e := s.box.queue[0];
        SetCall(s, e, CallOf(s, e).(place := Held))
          .(box := s.box.(queue := s.box.queue[1..]),
            h := s.h.(received := s.h.received + [e]), phase := Handling(e))
      else s.(phase := Closing)
    case Handling(e) =>
      var k := CallOf(s, e);
      SetCall(s, e, k.(reply := Some(reply), place := if k.ask then Replied else Processed))
        .(phase := if k.ask then Answering(e, reply) else Receiving)
    case Answering(e, r) =>
      SetCall(s, e, Complete(CallOf(s, e), r).(place := Processed)).(phase := Receiving)
    case _ => s
  }

  /** `Close`. */
  function CloseStep(s: State): State
  {
    match s.phase
    case Closing => s.(box := s.box.(waiting := true), phase := AwaitLock)
    case AwaitLock => s.(box := s.box.(waiting := false, writing := true), phase := StoreClosed)
    case StoreClosed => s.(box := s.box.(closed := true), phase := CloseChan)
    case CloseChan =>
      if s.box.chanClosed then s.(panicked := true)
      else s.(box := s.box.(chanClosed := true), phase := ReleaseLock)
    case ReleaseLock => s.(box := s.box.(writing := false), phase := DrainStart)
    case _ => s
  }

  /** The drain loop of `process`. */
  function DrainStep(s: State): State
  {
    match s.phase
    case DrainStart => s.(phase := if s.box.closed then Draining else Done)
    case Draining =>
      if |s.box.queue| > 0 then
        var e := s.box.queue[0];
        SetCall(s, e, CallOf(s, e).(place := Taken))
          .(box := s.box.(queue := s.box.queue[1..]),
            h := s.h.(drained := s.h.drained + [e]), phase := Discarding(e))
      else s.(phase := Done)
    case Discarding(e) =>
      var k := CallOf(s, e);
      SetCall(s, e, k.(lettered := k.lettered || s.hasDlo,
                       place := if k.ask then Lettered else Drained))
        .(dlo := if s.hasDlo then s.dlo + [e] else s.dlo,
          phase := if k.ask then Terminating(e) else Draining)
    case Terminating(e) =>
      SetCall(s, e, Complete(CallOf(s, e), Err(Some(ActorTerminated))).(place := Drained))
        .(phase := Draining)
    case _ => s
  }

  predicate InReceive(p: Phase) { p.Receiving? || p.Handling? || p.Answering? }

  predicate InClose(p: Phase)
  {
    p.Closing? || p.AwaitLock? || p.StoreClosed? || p.CloseChan? || p.ReleaseLock?
  }

  predicate InDrain(p: Phase)
  {
    p.DrainStart? || p.Draining? || p.Discarding? || p.Terminating? || p.Done?
  }

  // ----- Runs -------------------------------------------------------------

  /** NewActor; a non-positive mailbox size becomes 1. */
  function Init(mailboxSize: int, hasDlo: bool): State
  {
    State(Mailbox(if mailboxSize <= 0 then 1 else mailboxSize, [], false, false, {}, false, false),
          hasDlo, false, Idle, [], [], false, History([], [], []))
  }

  predicate Enabled(s: State, step: Step)
  {
    match step
    case Cancel(c) => c < |s.calls|
    case Advance(c, branch) => AdvanceEnabled(s, c, branch)
    case Process(take, _) => ProcessEnabled(s, take)
    case _ => true
  }

  function Apply(s: State, step: Step): State
    requires Enabled(s, step)
  {
    match step
    case Begin(ask) =>
      s.(calls := s.calls + [Call(ask, CheckActor, false, None, Unsent, None, false, 0)])
    case Cancel(c) => s.(calls := s.calls[c := s.calls[c].(cancelled := true)])
    case Start => if s.phase.Idle? then s.(phase := Receiving) else s
    case Stop => s.(stopped := true)
    case Advance(c, branch) => AdvanceStep(s, c, branch)
    case Process(take, reply) =>
      if InReceive(s.phase) then ReceiveStep(s, take, reply)
      else if InClose(s.phase) then CloseStep(s)
      else DrainStep(s)
  }

  /** Every step of the sequence is enabled when its turn comes. */
  ghost predicate Legal(s: State, run: seq<Step>)
    decreases |run|
  {
    run == [] || (Enabled(s, run[0]) && Legal(Apply(s, run[0]), run[1..]))
  }

  ghost function Exec(s: State, run: seq<Step>): State
    requires Legal(s, run)
    decreases |run|
  {
    if run == [] then s else Exec(Apply(s, run[0]), run[1..])
  }
}
