/** What callers of Complete, Await and ThenApply can rely on, over all runs. */
module FutureTheorems {
  import opened Options
  import opened Sums
  import opened Futures

  ghost predicate Reachable<T(!new)>(s: State<T>)
  {
    exists run :: Legal(Init(), run) && Exec(Init(), run) == s
  }

  lemma ReachableInv<T(!new)>(s: State<T>)
    requires Reachable(s)
    ensures Inv(s)
  {
    var run :| Legal(Init(), run) && Exec(Init(), run) == s;
    RunKeepsInv(Init(), run);
  }

  // ----- One result -------------------------------------------------------

  /** `done` is never closed twice, and the load after `done` is never nil. */
  lemma NeverPanics<T(!new)>(s: State<T>)
    requires Reachable(s)
    ensures !s.panicked
    ensures forall w :: 0 <= w < |s.waiters| && s.waiters[w].pc.Reloading? && s.waiters[w].future < |s.futures| ==>
              s.futures[s.waiters[w].future].cache.Some?
  {
    ReachableInv(s);
    forall w | 0 <= w < |s.waiters| && s.waiters[w].pc.Reloading? && s.waiters[w].future < |s.futures|
      ensures s.futures[s.waiters[w].future].cache.Some?
    {
      assert WaiterOk(s, w);
      DoneHasResult(s, s.waiters[w].future);
    }
  }

  predicate Won<T>(s: State<T>, c: nat, f: nat)
  {
    c < |s.completers| && s.completers[c].future == f && s.completers[c].pc == Returned(true)
  }

  /**
    Of the calls of Complete on one future at most one returns true; if one
    returned false, another one returned true. What any Await observed is the
    result of the call that returned true, or will.
  */
  lemma OneWinner<T(!new)>(s: State<T>, f: nat)
    requires Reachable(s) && f < |s.futures|
    ensures forall b: nat, c: nat :: Won(s, b, f) && Won(s, c, f) ==> b == c
    ensures forall c: nat :: Won(s, c, f) ==> s.futures[f].done && s.futures[f].cache == Some(s.completers[c].result)
    ensures forall c :: 0 <= c < |s.completers| && s.completers[c].future == f
                        && s.completers[c].pc == Returned(false) ==>
              exists b: nat :: b != c && Won(s, b, f)
  {
    ReachableInv(s);
    assert FutureOk(s, f);
    forall c: nat | Won(s, c, f) ensures CompleterOk(s, c) && s.futures[f].once == Over(c) {
      assert CompleterOk(s, c);
    }
    forall c | 0 <= c < |s.completers| && s.completers[c].future == f && s.completers[c].pc == Returned(false)
      ensures exists b: nat :: b != c && Won(s, b, f)
    {
      assert CompleterOk(s, c);
      assert Won(s, s.futures[f].once.holder, f);
    }
  }

  /** All calls of Await that observe a completion return the same result, whenever they return. */
  lemma {:induction false} ResultIsStable<T(!new)>(s: State<T>, run: seq<Step<T>>, f: nat)
    requires Inv(s) && Legal(s, run) && f < |s.futures| && s.futures[f].cache.Some?
    ensures f < |Exec(s, run).futures| && Exec(s, run).futures[f].cache == s.futures[f].cache
    decreases |run|
  {
    if run != [] {
      if run[0].Complete? { assert CompleterOk(s, run[0].completer); }
      StepKeepsInv(s, run[0]);
      ResultIsStable(Apply(s, run[0]), run[1..], f);
    }
  }

  lemma AwaitsAgree<T(!new)>(s: State<T>, run: seq<Step<T>>, v: nat, w: nat)
    requires Reachable(s) && Legal(s, run) && v < |s.waiters| && w < |Exec(s, run).waiters|
    requires s.waiters[v].pc.Observed? && Exec(s, run).waiters[w].pc.Observed?
    requires s.waiters[v].future == Exec(s, run).waiters[w].future
    ensures s.waiters[v].pc.result == Exec(s, run).waiters[w].pc.result
  {
    ReachableInv(s);
    assert WaiterOk(s, v);
    ResultIsStable(s, run, s.waiters[v].future);
    RunKeepsInv(s, run);
    assert WaiterOk(Exec(s, run), w);
  }

  // ----- ThenApply --------------------------------------------------------

  /** The target of a ThenApply has one Complete call at most, and that call wins. */
  lemma TargetCompletedOnce<T(!new)>(s: State<T>, l: nat, b: nat, c: nat)
    requires Reachable(s) && l < |s.links| && b < |s.completers| && c < |s.completers|
    requires s.completers[b].future == s.completers[c].future == s.links[l].target
    ensures b == c && s.completers[c].pc != Returned(false)
  {
    ReachableInv(s);
    assert LinkOk(s, l) && CompleterOk(s, b) && CompleterOk(s, c);
    var f := s.links[l].target;
    assert FutureOk(s, f);
    if s.futures[f].once.Over? { assert CompleterOk(s, s.futures[f].once.holder); }
  }

  /**
    What a completed target holds: the function's value at the value of the
    source, the error of the source, or the error of a cancelled context.
  */
  lemma TargetResult<T(!new)>(s: State<T>, l: nat)
    requires Inv(s) && l < |s.links|
    ensures var link := s.links[l];
            link.target < |s.futures| && link.source < |s.futures| && link.waiter < |s.waiters|
            && (s.futures[link.target].cache.Some? ==>
                  if s.waiters[link.waiter].pc.Abandoned?
                  then s.waiters[link.waiter].cancelled
                       && s.futures[link.target].cache == Some(Err(s.waiters[link.waiter].reason))
                  else s.futures[link.source].cache.Some?
                       && match s.futures[link.source].cache.value
                          case Ok(v) => s.futures[link.target].cache == Some(Ok(link.apply(v)))
                          case Err(e) => s.futures[link.target].cache == Some(Err(e)))
  {
    var link := s.links[l];
    assert LinkOk(s, l) && WaiterOk(s, link.waiter);
    DoneHasResult(s, link.target);
    var fut := s.futures[link.target];
    if fut.cache.Some? {
      assert FutureOk(s, link.target) && CompleterOk(s, fut.once.holder);
    }
  }

  /** Links each of which takes up the target of the one before, none with a cancelled context. */
  ghost predicate Chain<T>(s: State<T>, ls: seq<nat>)
  {
    && (forall i :: 0 <= i < |ls| ==> ls[i] < |s.links| && s.links[ls[i]].waiter < |s.waiters|
                                      && !s.waiters[s.links[ls[i]].waiter].cancelled)
    && (forall i, j :: 0 <= i && j == i + 1 < |ls| ==> s.links[ls[i]].target == s.links[ls[j]].source)
  }

  /** All functions of the chain, one after the other. */
  function Composed<T>(s: State<T>, ls: seq<nat>, v: T): T
    requires forall i :: 0 <= i < |ls| ==> ls[i] < |s.links|
    decreases |ls|
  {
    if ls == [] then v else (s.links[ls[|ls| - 1]].apply)(Composed(s, ls[..|ls| - 1], v))
  }

  /** On a value; an error passes through. */
  function Through<T>(s: State<T>, ls: seq<nat>, r: Result<T>): Result<T>
    requires forall i :: 0 <= i < |ls| ==> ls[i] < |s.links|
  {
    match r case Ok(v) => Ok(Composed(s, ls, v)) case Err(e) => Err(e)
  }

  /** The end of a chain holds what its functions make of the result at its head. */
  lemma {:induction false} ChainResult<T(!new)>(s: State<T>, ls: seq<nat>)
    requires Inv(s) && Chain(s, ls) && ls != []
    requires forall i :: 0 <= i < |ls| ==> s.links[ls[i]].target < |s.futures| && s.links[ls[i]].source < |s.futures|
    requires s.futures[s.links[ls[|ls| - 1]].target].cache.Some?
    ensures s.futures[s.links[ls[0]].source].cache.Some?
    ensures s.futures[s.links[ls[|ls| - 1]].target].cache
         == Some(Through(s, ls, s.futures[s.links[ls[0]].source].cache.value))
    decreases |ls|
  {
    var last := ls[|ls| - 1];
    var front := ls[..|ls| - 1];
    TargetResult(s, last);
    assert LinkOk(s, last) && WaiterOk(s, s.links[last].waiter);
    var head := s.futures[s.links[ls[0]].source].cache;
    if front == [] {
      assert Through(s, front, head.value) == head.value;
    } else {
      assert Chain(s, front) && s.links[front[|front| - 1]].target == s.links[last].source;
      ChainResult(s, front);
    }
    ThroughLast(s, ls, head.value);
  }

  lemma ThroughLast<T>(s: State<T>, ls: seq<nat>, r: Result<T>)
    requires ls != [] && forall i :: 0 <= i < |ls| ==> ls[i] < |s.links|
    ensures Through(s, ls, r)
         == match Through(s, ls[..|ls| - 1], r)
            case Ok(v) => Ok((s.links[ls[|ls| - 1]].apply)(v))
            case Err(e) => Err(e)
  {
  }

  // ----- What a call was given --------------------------------------------

  ghost predicate SameCompleter<T>(c: Completer<T>, c': Completer<T>) { c'.future == c.future && c'.result == c.result }

  ghost predicate SameWaiter<T>(w: Waiter<T>, w': Waiter<T>) { w'.future == w.future && w'.reason == w.reason }

  ghost predicate SameLink<T>(l: Link<T>, l': Link<T>)
  {
    l'.source == l.source && l'.target == l.target && l'.apply == l.apply && l'.waiter == l.waiter
  }

  /** Calls keep what they were called with, and their contexts are cancelled by nothing but a cancellation. */
  ghost predicate Kept<T(!new)>(s: State<T>, t: State<T>, run: seq<Step<T>>)
  {
    && |s.futures| <= |t.futures| && |s.completers| <= |t.completers|
    && |s.waiters| <= |t.waiters| && |s.links| <= |t.links|
    && (forall c :: 0 <= c < |s.completers| ==> SameCompleter(s.completers[c], t.completers[c]))
    && (forall w :: 0 <= w < |s.waiters| ==> SameWaiter(s.waiters[w], t.waiters[w]))
    && (forall l :: 0 <= l < |s.links| ==> SameLink(s.links[l], t.links[l]))
    && (forall w :: 0 <= w < |s.waiters| ==>
          (t.waiters[w].cancelled <==> s.waiters[w].cancelled || Step<T>.Cancel(w) in run))
  }

  lemma StepKept<T(!new)>(s: State<T>, e: Step<T>)
    requires Enabled(s, e)
    ensures Kept(s, Apply(s, e), [e])
  {
  }

  lemma {:induction false} RunKept<T(!new)>(s: State<T>, run: seq<Step<T>>)
    requires Legal(s, run)
    ensures Kept(s, Exec(s, run), run)
    decreases |run|
  {
    if run != [] {
      var t := Apply(s, run[0]);
      StepKept(s, run[0]);
      RunKept(t, run[1..]);
      KeptThen(s, t, Exec(t, run[1..]), run);
    }
  }

  lemma KeptThen<T(!new)>(s: State<T>, t: State<T>, u: State<T>, run: seq<Step<T>>)
    requires run != [] && Kept(s, t, [run[0]]) && Kept(t, u, run[1..])
    ensures Kept(s, u, run)
  {
    forall c | 0 <= c < |s.completers| ensures SameCompleter(s.completers[c], u.completers[c]) {
      assert SameCompleter(s.completers[c], t.completers[c]) && SameCompleter(t.completers[c], u.completers[c]);
    }
    forall w | 0 <= w < |s.waiters| ensures SameWaiter(s.waiters[w], u.waiters[w]) {
      assert SameWaiter(s.waiters[w], t.waiters[w]) && SameWaiter(t.waiters[w], u.waiters[w]);
    }
    forall l | 0 <= l < |s.links| ensures SameLink(s.links[l], u.links[l]) {
      assert SameLink(s.links[l], t.links[l]) && SameLink(t.links[l], u.links[l]);
    }
    assert forall e :: e in run <==> e == run[0] || e in run[1..];
  }

  /**
    The future that ThenApply returns, after any run: if it is completed, then
    with the function's value at the result of the original future, with that
    future's error, or, its context cancelled, with the context's error.
  */
  lemma ThenApplyGives<T(!new)>(s: State<T>, f: nat, g: T -> T, reason: string, run: seq<Step<T>>)
    requires Reachable(s) && f < |s.futures| && Legal(Apply(s, Step<T>.ThenApply(f, g, reason)), run)
    ensures var t, n := Exec(Apply(s, Step<T>.ThenApply(f, g, reason)), run), |s.futures|;
            && f < n < |t.futures|
            && (t.futures[n].cache.Some? ==>
                  || (t.futures[n].cache == Some(Err(reason)) && Step<T>.Cancel(|s.waiters|) in run)
                  || (t.futures[f].cache.Some? && t.futures[f].cache.value.Ok?
                      && t.futures[n].cache == Some(Ok(g(t.futures[f].cache.value.value))))
                  || (t.futures[f].cache.Some? && t.futures[f].cache.value.Err?
                      && t.futures[n].cache == t.futures[f].cache))
  {
    var s1 := Apply(s, Step<T>.ThenApply(f, g, reason));
    var t, l := Exec(s1, run), |s.links|;
    ReachableInv(s);
    StepKeepsInv(s, Step<T>.ThenApply(f, g, reason));
    RunKeepsInv(s1, run);
    RunKept(s1, run);
    assert SameLink(s1.links[l], t.links[l]) && SameWaiter(s1.waiters[|s.waiters|], t.waiters[|s.waiters|]);
    TargetResult(t, l);
  }

  /** A call of Complete that has returned true, after any run: the future holds the result it was given. */
  lemma CompleteGives<T(!new)>(s: State<T>, f: nat, r: Result<T>, run: seq<Step<T>>)
    requires Reachable(s) && Enabled(s, CallComplete(f, r)) && Legal(Apply(s, CallComplete(f, r)), run)
    ensures var t, c := Exec(Apply(s, CallComplete(f, r)), run), |s.completers|;
            f < |t.futures| && c < |t.completers|
            && (t.completers[c].pc == Returned(true) ==> t.futures[f].done && t.futures[f].cache == Some(r))
  {
    var s1 := Apply(s, CallComplete(f, r));
    ReachableInv(s);
    StepKeepsInv(s, CallComplete(f, r));
    RunKeepsInv(s1, run);
    RunKept(s1, run);
    var t, c := Exec(s1, run), |s.completers|;
    assert SameCompleter(s1.completers[c], t.completers[c]) && CompleterOk(t, c);
  }

  /** A call of Await that has returned, after any run: the future's result, or the error of its cancelled context. */
  lemma AwaitGives<T(!new)>(s: State<T>, f: nat, reason: string, run: seq<Step<T>>)
    requires Reachable(s) && Enabled(s, CallAwait(f, reason)) && Legal(Apply(s, CallAwait(f, reason)), run)
    ensures var t, w := Exec(Apply(s, CallAwait(f, reason)), run), |s.waiters|;
            f < |t.futures| && w < |t.waiters|
            && (HasReturned(t.waiters[w]) ==>
                  || t.futures[f].cache == Some(Returns(t.waiters[w]))
                  || (Returns(t.waiters[w]) == Err(reason) && Step<T>.Cancel(w) in run))
  {
    var s1 := Apply(s, CallAwait(f, reason));
    ReachableInv(s);
    StepKeepsInv(s, CallAwait(f, reason));
    RunKeepsInv(s1, run);
    RunKept(s1, run);
    var t, w := Exec(s1, run), |s.waiters|;
    assert SameWaiter(s1.waiters[w], t.waiters[w]) && WaiterOk(t, w);
  }

  /** Await of a completed future returns its result, also when its context is cancelled. */
  lemma {:induction false} AwaitOfCompleted<T(!new)>(s: State<T>, run: seq<Step<T>>, w: nat)
    requires Inv(s) && Legal(s, run) && w < |s.waiters| && s.waiters[w].pc.Loading?
    requires s.waiters[w].future < |s.futures| && s.futures[s.waiters[w].future].cache.Some?
    ensures var t, r := Exec(s, run), s.futures[s.waiters[w].future].cache.value;
            w < |t.waiters| && (HasReturned(t.waiters[w]) ==> Returns(t.waiters[w]) == r)
            && (t.waiters[w].pc.Loading? || t.waiters[w].pc.Observed?)
    decreases |run|
  {
    if run != [] {
      var e, t, f := run[0], Apply(s, run[0]), s.waiters[w].future;
      StepKeepsInv(s, e);
      StepKept(s, e);
      ResultIsStable(s, [e], f);
      StepIsRun(s, e);
      assert SameWaiter(s.waiters[w], t.waiters[w]);
      if t.waiters[w].pc.Loading? { AwaitOfCompleted(t, run[1..], w); } else { ReturnedStays(t, run[1..], w); }
    }
  }

  lemma StepIsRun<T(!new)>(s: State<T>, e: Step<T>)
    requires Enabled(s, e)
    ensures Legal(s, [e]) && Exec(s, [e]) == Apply(s, e)
  {
    assert [e][1..] == [];
    assert Legal(Apply(s, e), []) && Exec(Apply(s, e), []) == Apply(s, e);
  }

  lemma {:induction false} ReturnedStays<T(!new)>(s: State<T>, run: seq<Step<T>>, w: nat)
    requires Legal(s, run) && w < |s.waiters| && HasReturned(s.waiters[w])
    ensures w < |Exec(s, run).waiters| && Exec(s, run).waiters[w].pc == s.waiters[w].pc
    decreases |run|
  {
    if run != [] { ReturnedStays(Apply(s, run[0]), run[1..], w); }
  }

  /**
    Calls can be made at any time, of Complete on every future that no ThenApply
    made; and a waiting Await may take either branch that is ready.
  */
  lemma CallsAreFree<T(!new)>(s: State<T>, f: nat, r: Result<T>, g: T -> T, reason: string, w: nat)
    ensures Enabled(s, CallComplete(f, r)) <==> f < |s.futures| && s.futures[f].origin.None?
    ensures Enabled(s, CallAwait(f, reason)) <==> f < |s.futures|
    ensures Enabled(s, Step<T>.ThenApply(f, g, reason)) <==> f < |s.futures|
    ensures Enabled(s, Step<T>.NewPromise)
    ensures w < |s.waiters| ==> Enabled(s, Step<T>.Cancel(w))
    ensures w < |s.waiters| && s.waiters[w].pc.Selecting? && s.waiters[w].future < |s.futures| ==>
              && (Enabled(s, Step<T>.Await(w, true)) <==> s.futures[s.waiters[w].future].done)
              && (Enabled(s, Step<T>.Await(w, false)) <==> s.waiters[w].cancelled)
  {
  }

  // ----- Completion -------------------------------------------------------

  /** A step inside a call that is under way. */
  predicate Internal<T>(e: Step<T>) { e.Complete? || e.Await? || e.Forward? }

  ghost predicate Idle<T(!new)>(s: State<T>) { forall e: Step<T> :: Internal(e) ==> !Enabled(s, e) }

  /**
    When no step inside a call is possible: every future on which Complete was
    called is done, every Await on a completed future or with a cancelled context
    has returned, and so has the ThenApply behind it.
  */
  lemma IdleMeansComplete<T(!new)>(s: State<T>, f: nat)
    requires Reachable(s) && Idle(s) && f < |s.futures|
    ensures (exists c :: 0 <= c < |s.completers| && s.completers[c].future == f) <==> s.futures[f].done
    ensures s.futures[f].done <==> s.futures[f].cache.Some?
    ensures forall w :: 0 <= w < |s.waiters| && s.waiters[w].future == f ==>
              (HasReturned(s.waiters[w]) <==> s.futures[f].done || s.waiters[w].cancelled)
  {
    ReachableInv(s);
    IdleCompleters(s);
    assert FutureOk(s, f);
    DoneHasResult(s, f);
    if s.futures[f].cache.Some? { assert CompleterOk(s, s.futures[f].once.holder); }
    forall w | 0 <= w < |s.waiters| && s.waiters[w].future == f
      ensures HasReturned(s.waiters[w]) <==> s.futures[f].done || s.waiters[w].cancelled
    {
      assert WaiterOk(s, w);
      assert !Enabled(s, Step<T>.Await(w, true)) && !Enabled(s, Step<T>.Await(w, false));
    }
    forall c | 0 <= c < |s.completers| && s.completers[c].future == f ensures s.futures[f].done {
      assert CompleterOk(s, c);
    }
  }

  lemma IdleCompleters<T(!new)>(s: State<T>)
    requires Inv(s) && Idle(s)
    ensures forall c :: 0 <= c < |s.completers| ==> s.completers[c].pc.Returned?
  {
    forall f | 0 <= f < |s.futures| ensures !s.futures[f].once.Taken? {
      assert FutureOk(s, f);
      assert s.futures[f].once.Taken? ==> Enabled(s, Step<T>.Complete(s.futures[f].once.holder));
    }
    forall c | 0 <= c < |s.completers| ensures s.completers[c].pc.Returned? {
      assert CompleterOk(s, c);
      assert !Enabled(s, Step<T>.Complete(c));
    }
  }

  /** And a chain whose head is complete is complete at its end. */
  lemma {:induction false} IdleChain<T(!new)>(s: State<T>, ls: seq<nat>)
    requires Reachable(s) && Idle(s) && Chain(s, ls) && ls != []
    requires forall i :: 0 <= i < |ls| ==> s.links[ls[i]].target < |s.futures| && s.links[ls[i]].source < |s.futures|
    requires s.futures[s.links[ls[0]].source].cache.Some?
    ensures s.futures[s.links[ls[|ls| - 1]].target].cache
         == Some(Through(s, ls, s.futures[s.links[ls[0]].source].cache.value))
    decreases |ls|
  {
    ReachableInv(s);
    var last := ls[|ls| - 1];
    var front := ls[..|ls| - 1];
    if front != [] {
      assert Chain(s, front) && s.links[front[|front| - 1]].target == s.links[last].source;
      IdleChain(s, front);
    }
    IdleLink(s, last);
    ChainResult(s, ls);
  }

  lemma IdleLink<T(!new)>(s: State<T>, l: nat)
    requires Reachable(s) && Idle(s) && l < |s.links|
    requires s.links[l].source < |s.futures| && s.links[l].target < |s.futures|
    requires s.futures[s.links[l].source].cache.Some?
    ensures s.futures[s.links[l].target].cache.Some?
  {
    ReachableInv(s);
    IdleMeansComplete(s, s.links[l].source);
    IdleMeansComplete(s, s.links[l].target);
    assert LinkOk(s, l);
    assert !Enabled(s, Step<T>.Forward(l));
  }

  function CompleterCost<T>(c: Completer<T>): nat
  {
    match c.pc case Calling => 4 case Storing => 3 case Closing => 2 case Leaving => 1 case Returned(_) => 0
  }

  function WaiterCost<T>(w: Waiter<T>): nat
  {
    match w.pc case Loading => 3 case Selecting => 2 case Reloading => 1 case _ => 0
  }

  function LinkCost<T>(l: Link<T>): nat { if l.completer.Some? then 0 else 5 }

  function Cost<T>(s: State<T>): nat
  {
    Total(CompleterCost, s.completers) + Total(WaiterCost, s.waiters) + Total(LinkCost, s.links)
  }

  lemma StepCosts<T(!new)>(s: State<T>, e: Step<T>)
    requires Inv(s) && Enabled(s, e) && Internal(e)
    ensures Cost(Apply(s, e)) < Cost(s)
  {
    var s' := Apply(s, e);
    match e
    case Complete(c) =>
      assert CompleterOk(s, c);
      TotalUpdate(CompleterCost, s.completers, c, s'.completers[c]);
    case Await(w, onDone) =>
      assert WaiterOk(s, w);
      DoneHasResult(s, s.waiters[w].future);
      TotalUpdate(WaiterCost, s.waiters, w, s'.waiters[w]);
    case Forward(l) =>
      var call := s'.completers[|s.completers|];
      TotalConcat(CompleterCost, s.completers, [call]);
      TotalOfEqual(CompleterCost, [call], 4);
      TotalUpdate(LinkCost, s.links, l, s'.links[l]);
    case _ =>
  }

  /** Without new calls the calls under way come to an end. */
  lemma {:induction false} CallsEnd<T(!new)>(s: State<T>, run: seq<Step<T>>)
    requires Inv(s) && Legal(s, run) && forall i :: 0 <= i < |run| ==> Internal(run[i])
    ensures |run| <= Cost(s)
    decreases |run|
  {
    if run != [] {
      StepCosts(s, run[0]);
      StepKeepsInv(s, run[0]);
      CallsEnd(Apply(s, run[0]), run[1..]);
    }
  }

  /** From every state some run of the calls under way goes as far as it can. */
  lemma {:induction false} CallsFinish<T(!new)>(s: State<T>) returns (run: seq<Step<T>>)
    requires Inv(s)
    ensures Legal(s, run) && Idle(Exec(s, run)) && forall i :: 0 <= i < |run| ==> Internal(run[i])
    decreases Cost(s)
  {
    if e :| Internal(e) && Enabled(s, e) {
      StepCosts(s, e);
      StepKeepsInv(s, e);
      var rest := CallsFinish(Apply(s, e));
      run := [e] + rest;
      assert run[1..] == rest;
    } else {
      run := [];
    }
  }

  /** ThenApply on a completed future can always be brought to its end, and then holds the function's value. */
  lemma ThenApplyCompletes<T(!new)>(s: State<T>, f: nat, g: T -> T, reason: string, v: T) returns (run: seq<Step<T>>)
    requires Reachable(s) && f < |s.futures| && s.futures[f].cache == Some(Ok(v))
    ensures Enabled(s, Step<T>.ThenApply(f, g, reason)) && Legal(Apply(s, Step<T>.ThenApply(f, g, reason)), run)
    ensures var t := Exec(Apply(s, Step<T>.ThenApply(f, g, reason)), run);
            |s.futures| < |t.futures| && t.futures[|s.futures|].cache == Some(Ok(g(v)))
  {
    var e := Step<T>.ThenApply(f, g, reason);
    ReachableInv(s);
    StepKeepsInv(s, e);
    var s1 := Apply(s, e);
    run := CallsFinish(s1);
    var t := Exec(s1, run);
    RunKept(s1, run);
    RunKeepsInv(s1, run);
    ResultIsStable(s1, run, f);
    ReachableAfter(s, e, run);
    var l := |s.links|;
    assert SameLink(s1.links[l], t.links[l]) && LinkOk(t, l);
    IdleLink(t, l);
    ThenApplyGives(s, f, g, reason, run);
  }

  lemma {:induction false} ExecConcat<T(!new)>(s: State<T>, a: seq<Step<T>>, b: seq<Step<T>>)
    requires Legal(s, a) && Legal(Exec(s, a), b)
    ensures Legal(s, a + b) && Exec(s, a + b) == Exec(Exec(s, a), b)
    decreases |a|
  {
    if a == [] {
      assert a + b == b;
    } else {
      assert (a + b)[1..] == a[1..] + b;
      ExecConcat(Apply(s, a[0]), a[1..], b);
    }
  }

  lemma ReachableAfter<T(!new)>(s: State<T>, e: Step<T>, run: seq<Step<T>>)
    requires Reachable(s) && Enabled(s, e) && Legal(Apply(s, e), run)
    ensures Reachable(Exec(Apply(s, e), run))
  {
    var first :| Legal(Init(), first) && Exec(Init(), first) == s;
    var rest := [e] + run;
    assert rest[1..] == run;
    assert Legal(s, rest) && Exec(s, rest) == Exec(Apply(s, e), run);
    ExecConcat(Init(), first, rest);
  }
}
