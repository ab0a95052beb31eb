/**
  Futures and promises, actor/future.go, as the steps of the goroutines that
  complete them, await them and chain them with ThenApply. One step is one
  operation on the once-guard, the cached result or the `done` channel.
*/
module Futures {
  import opened Options

  datatype Result<T> = Ok(value: T) | Err(error: string)

  /** sync.Once: nobody yet, one caller inside, or that caller has left. */
  datatype Once = Free | Taken(holder: nat) | Over(holder: nat)

  /** `origin` is the ThenApply that made the future, if one did: then only it can complete the future. */
  datatype Future<T> = Future(cache: Option<Result<T>>, done: bool, once: Once, origin: Option<nat>)

  datatype CompletePc = Calling | Storing | Closing | Leaving | Returned(success: bool)

  /** A call of Complete. */
  datatype Completer<T> = Completer(future: nat, result: Result<T>, pc: CompletePc)

  datatype AwaitPc<T> = Loading | Selecting | Reloading | Observed(result: Result<T>) | Abandoned

  /** A call of Await; `reason` is the error its context gives once it is cancelled. */
  datatype Waiter<T> = Waiter(future: nat, reason: string, cancelled: bool, pc: AwaitPc<T>)

  /** A goroutine of ThenApply: it awaits the source, then completes the target. */
  datatype Link<!T> = Link(source: nat, target: nat, apply: T -> T, waiter: nat, completer: Option<nat>)

  datatype State<!T> = State(
    futures: seq<Future<T>>,
    completers: seq<Completer<T>>,
    waiters: seq<Waiter<T>>,
    links: seq<Link<T>>,
    panicked: bool
  )

  datatype Step<!T> =
    | NewPromise
    | CallComplete(future: nat, result: Result<T>)
    | CallAwait(future: nat, reason: string)
    | ThenApply(future: nat, apply: T -> T, reason: string)
    | Cancel(waiter: nat)
    | Complete(completer: nat)
    | Await(waiter: nat, onDone: bool)
    | Forward(link: nat)

  function Init<T>(): State<T> { State([], [], [], [], false) }

  predicate HasReturned<T>(w: Waiter<T>) { w.pc.Observed? || w.pc.Abandoned? }

  /** What the call of Await returned. */
  function Returns<T>(w: Waiter<T>): Result<T>
    requires HasReturned(w)
  {
    if w.pc.Observed? then w.pc.result else Err(w.reason)
  }

  /** What ThenApply makes of a result. */
  function Mapped<T>(f: T -> T, r: Result<T>): Result<T>
  {
    match r case Ok(v) => Ok(f(v)) case Err(e) => Err(e)
  }

  predicate CanComplete<T>(s: State<T>, c: nat)
  {
    c < |s.completers| && s.completers[c].future < |s.futures| && !s.completers[c].pc.Returned?
    && (s.completers[c].pc.Calling? ==> !s.futures[s.completers[c].future].once.Taken?)
  }

  predicate CanAwait<T>(s: State<T>, w: nat, onDone: bool)
  {
    && w < |s.waiters| && s.waiters[w].future < |s.futures| && !HasReturned(s.waiters[w])
    && (s.waiters[w].pc.Selecting? ==> if onDone then s.futures[s.waiters[w].future].done else s.waiters[w].cancelled)
  }

  predicate CanForward<T>(s: State<T>, l: nat)
  {
    l < |s.links| && s.links[l].completer.None?
    && s.links[l].waiter < |s.waiters| && HasReturned(s.waiters[s.links[l].waiter])
  }

  predicate Enabled<T>(s: State<T>, e: Step<T>)
  {
    match e
    case NewPromise => true
    case CallComplete(f, _) => f < |s.futures| && s.futures[f].origin.None?
    case CallAwait(f, _) => f < |s.futures|
    case ThenApply(f, _, _) => f < |s.futures|
    case Cancel(w) => w < |s.waiters|
    case Complete(c) => CanComplete(s, c)
    case Await(w, onDone) => CanAwait(s, w, onDone)
    case Forward(l) => CanForward(s, l)
  }

  function CompleteStep<T>(s: State<T>, c: nat): State<T>
    requires CanComplete(s, c)
  {
    var me := s.completers[c];
    var f := s.futures[me.future];
    match me.pc
    case Calling =>
      if f.once.Free? then Completed(s, c, f.(once := Taken(c)), Storing)
      else Completed(s, c, f, Returned(false))
    case Storing => Completed(s, c, f.(cache := Some(me.result)), Closing)
    case Closing =>
      // Closing a closed channel panics.
      if f.done then s.(panicked := true) else Completed(s, c, f.(done := true), Leaving)
    case Leaving => Completed(s, c, f.(once := Over(c)), Returned(true))
    case Returned(_) => s
  }

  function Completed<T>(s: State<T>, c: nat, f: Future<T>, pc: CompletePc): State<T>
    requires c < |s.completers| && s.completers[c].future < |s.futures|
  {
    s.(futures := s.futures[s.completers[c].future := f], completers := s.completers[c := s.completers[c].(pc := pc)])
  }

  function AwaitStep<T>(s: State<T>, w: nat, onDone: bool): State<T>
    requires CanAwait(s, w, onDone)
  {
    var cache := s.futures[s.waiters[w].future].cache;
    match s.waiters[w].pc
    case Loading => Awaited(s, w, if cache.Some? then Observed(cache.value) else Selecting)
    case Selecting => Awaited(s, w, if onDone then Reloading else Abandoned)
    case Reloading =>
      // Loading nil here is a nil dereference.
      if cache.None? then s.(panicked := true) else Awaited(s, w, Observed(cache.value))
    case _ => s
  }

  function Awaited<T>(s: State<T>, w: nat, pc: AwaitPc<T>): State<T>
    requires w < |s.waiters|
  {
    s.(waiters := s.waiters[w := s.waiters[w].(pc := pc)])
  }

  function ForwardStep<T>(s: State<T>, l: nat): State<T>
    requires CanForward(s, l)
  {
    var link := s.links[l];
    s.(completers := s.completers
                     + [Completer(link.target, Mapped(link.apply, Returns(s.waiters[link.waiter])), Calling)],
       links := s.links[l := link.(completer := Some(|s.completers|))])
  }

  function Apply<T>(s: State<T>, e: Step<T>): State<T>
    requires Enabled(s, e)
  {
    match e
    case NewPromise => s.(futures := s.futures + [Future(None, false, Free, None)])
    case CallComplete(f, r) => s.(completers := s.completers + [Completer(f, r, Calling)])
    case CallAwait(f, reason) => s.(waiters := s.waiters + [Waiter(f, reason, false, Loading)])
    case ThenApply(f, g, reason) =>
      s.(futures := s.futures + [Future(None, false, Free, Some(|s.links|))],
         waiters := s.waiters + [Waiter(f, reason, false, Loading)],
         links := s.links + [Link(f, |s.futures|, g, |s.waiters|, None)])
    case Cancel(w) => s.(waiters := s.waiters[w := s.waiters[w].(cancelled := true)])
    case Complete(c) => CompleteStep(s, c)
    case Await(w, onDone) => AwaitStep(s, w, onDone)
    case Forward(l) => ForwardStep(s, l)
  }

  predicate Legal<T>(s: State<T>, run: seq<Step<T>>)
    decreases |run|
  {
    run == [] || (Enabled(s, run[0]) && Legal(Apply(s, run[0]), run[1..]))
  }

  function Exec<T>(s: State<T>, run: seq<Step<T>>): State<T>
    requires Legal(s, run)
    decreases |run|
  {
    if run == [] then s else Exec(Apply(s, run[0]), run[1..])
  }

  // ----- The invariant ----------------------------------------------------

  ghost predicate FutureOk<T>(s: State<T>, f: nat)
    requires f < |s.futures|
  {
    var fut := s.futures[f];
    && (fut.once.Free? ==> fut.cache.None? && !fut.done)
    && (!fut.once.Free? ==> fut.once.holder < |s.completers| && s.completers[fut.once.holder].future == f)
    && (fut.once.Taken? ==> s.completers[fut.once.holder].pc in {Storing, Closing, Leaving})
    && (fut.once.Over? ==> s.completers[fut.once.holder].pc == Returned(true))
    && (fut.origin.Some? ==> fut.origin.value < |s.links| && s.links[fut.origin.value].target == f)
  }

  ghost predicate CompleterOk<T>(s: State<T>, c: nat)
    requires c < |s.completers|
  {
    var me := s.completers[c];
    && me.future < |s.futures|
    && var fut := s.futures[me.future];
    && (match me.pc
        case Calling => fut.once.Free? || fut.once.holder != c
        case Storing => fut.once == Taken(c) && fut.cache.None? && !fut.done
        case Closing => fut.once == Taken(c) && fut.cache == Some(me.result) && !fut.done
        case Leaving => fut.once == Taken(c) && fut.cache == Some(me.result) && fut.done
        case Returned(won) => fut.once.Over? && (won <==> fut.once.holder == c) && fut.done
                              && (won ==> fut.cache == Some(me.result)))
    && (fut.origin.Some? ==> fut.origin.value < |s.links| && s.links[fut.origin.value].completer == Some(c))
  }

  ghost predicate WaiterOk<T>(s: State<T>, w: nat)
    requires w < |s.waiters|
  {
    var me := s.waiters[w];
    && me.future < |s.futures|
    && (me.pc.Reloading? ==> s.futures[me.future].done)
    && (me.pc.Observed? ==> s.futures[me.future].cache == Some(me.pc.result))
    && (me.pc.Abandoned? ==> me.cancelled)
  }

  ghost predicate LinkOk<T>(s: State<T>, l: nat)
    requires l < |s.links|
  {
    var link := s.links[l];
    && link.source < link.target < |s.futures| && s.futures[link.target].origin == Some(l)
    && link.waiter < |s.waiters| && s.waiters[link.waiter].future == link.source
    && (link.completer.Some? ==>
          && link.completer.value < |s.completers| && HasReturned(s.waiters[link.waiter])
          && s.completers[link.completer.value].future == link.target
          && s.completers[link.completer.value].result == Mapped(link.apply, Returns(s.waiters[link.waiter])))
  }

  ghost predicate Inv<T>(s: State<T>)
  {
    && !s.panicked
    && (forall f :: 0 <= f < |s.futures| ==> FutureOk(s, f))
    && (forall c :: 0 <= c < |s.completers| ==> CompleterOk(s, c))
    && (forall w :: 0 <= w < |s.waiters| ==> WaiterOk(s, w))
    && (forall l :: 0 <= l < |s.links| ==> LinkOk(s, l))
  }

  /** A future that is done has its result. */
  lemma DoneHasResult<T>(s: State<T>, f: nat)
    requires Inv(s) && f < |s.futures|
    ensures s.futures[f].done ==> s.futures[f].cache.Some?
    ensures s.futures[f].cache.Some? ==> !s.futures[f].once.Free? && s.futures[f].once.holder < |s.completers|
    ensures s.futures[f].cache.Some? ==> s.futures[f].cache == Some(s.completers[s.futures[f].once.holder].result)
  {
    assert FutureOk(s, f);
    if !s.futures[f].once.Free? { assert CompleterOk(s, s.futures[f].once.holder); }
  }

  lemma KeepRest<T>(s: State<T>, e: Step<T>)
    requires Inv(s) && Enabled(s, e) && (e.NewPromise? || e.CallAwait? || e.ThenApply? || e.Cancel?)
    ensures Inv(Apply(s, e))
  {
    var s' := Apply(s, e);
    forall f | 0 <= f < |s'.futures| ensures FutureOk(s', f) { if f < |s.futures| { assert FutureOk(s, f); } }
    forall c | 0 <= c < |s'.completers| ensures CompleterOk(s', c) { assert CompleterOk(s, c); }
    forall w | 0 <= w < |s'.waiters| ensures WaiterOk(s', w) { if w < |s.waiters| { assert WaiterOk(s, w); } }
    forall l | 0 <= l < |s'.links| ensures LinkOk(s', l) { if l < |s.links| { assert LinkOk(s, l); } }
  }

  lemma KeepCalls<T>(s: State<T>, e: Step<T>)
    requires Inv(s) && Enabled(s, e) && (e.CallComplete? || e.Forward?)
    ensures Inv(Apply(s, e))
  {
    var s' := Apply(s, e);
    if e.Forward? { assert LinkOk(s, e.link); }
    forall f | 0 <= f < |s'.futures| ensures FutureOk(s', f) { assert FutureOk(s, f); }
    forall l | 0 <= l < |s'.links| ensures LinkOk(s', l) { assert LinkOk(s, l); }
    forall c | 0 <= c < |s'.completers| ensures CompleterOk(s', c) {
      if c < |s.completers| {
        assert CompleterOk(s, c);
      } else {
        assert FutureOk(s, s'.completers[c].future);
      }
    }
    forall w | 0 <= w < |s'.waiters| ensures WaiterOk(s', w) { assert WaiterOk(s, w); }
  }

  lemma KeepComplete<T>(s: State<T>, c: nat)
    requires Inv(s) && CanComplete(s, c)
    ensures Inv(CompleteStep(s, c))
  {
    var s' := CompleteStep(s, c);
    assert CompleterOk(s, c) && FutureOk(s, s.completers[c].future);
    forall f | 0 <= f < |s'.futures| ensures FutureOk(s', f) { assert FutureOk(s, f); }
    forall b | 0 <= b < |s'.completers| ensures CompleterOk(s', b) { KeepCompleter(s, c, b); }
    forall w | 0 <= w < |s'.waiters| ensures WaiterOk(s', w) { assert WaiterOk(s, w); }
    forall l | 0 <= l < |s'.links| ensures LinkOk(s', l) { assert LinkOk(s, l); }
  }

  lemma KeepCompleter<T>(s: State<T>, c: nat, b: nat)
    requires Inv(s) && CanComplete(s, c) && b < |s.completers|
    ensures CompleterOk(CompleteStep(s, c), b)
  {
    assert CompleterOk(s, c) && CompleterOk(s, b);
    var f := s.completers[c].future;
    assert FutureOk(s, f);
    if s.futures[f].once.Over? { assert CompleterOk(s, s.futures[f].once.holder); }
  }

  lemma KeepAwait<T>(s: State<T>, w: nat, onDone: bool)
    requires Inv(s) && CanAwait(s, w, onDone)
    ensures Inv(AwaitStep(s, w, onDone))
  {
    var s' := AwaitStep(s, w, onDone);
    DoneHasResult(s, s.waiters[w].future);
    assert WaiterOk(s, w);
    forall f | 0 <= f < |s'.futures| ensures FutureOk(s', f) { assert FutureOk(s, f); }
    forall c | 0 <= c < |s'.completers| ensures CompleterOk(s', c) { assert CompleterOk(s, c); }
    forall v | 0 <= v < |s'.waiters| ensures WaiterOk(s', v) { assert WaiterOk(s, v); }
    forall l | 0 <= l < |s'.links| ensures LinkOk(s', l) { assert LinkOk(s, l); }
  }

  lemma StepKeepsInv<T>(s: State<T>, e: Step<T>)
    requires Inv(s) && Enabled(s, e)
    ensures Inv(Apply(s, e))
  {
    match e
    case Complete(c) => KeepComplete(s, c);
    case Await(w, onDone) => KeepAwait(s, w, onDone);
    case CallComplete(_, _) => KeepCalls(s, e);
    case Forward(_) => KeepCalls(s, e);
    case _ => KeepRest(s, e);
  }

  lemma {:induction false} RunKeepsInv<T>(s: State<T>, run: seq<Step<T>>)
    requires Inv(s) && Legal(s, run)
    ensures Inv(Exec(s, run))
    decreases |run|
  {
    if run != [] {
      StepKeepsInv(s, run[0]);
      RunKeepsInv(Apply(s, run[0]), run[1..]);
    }
  }
}
