/** What one goroutine of the actor runtime does on its own, as runs of the protocol. */
module ActorRuns {
  import opened ActorRuntime
  import opened ActorTheorems

  /** The processing goroutine, or the goroutine of one call. */
  datatype Who = Loop | Caller(call: nat)

  /** A step of that goroutine; `Begin` and `Cancel` stand for the call with its context. */
  predicate Own(who: Who, step: Step)
  {
    match who
    case Loop => step.Process?
    case Caller(c) => step.Begin? || step == Cancel(c) || (step.Advance? && step.c == c)
  }

  ghost predicate ByRun(s: State, t: State, who: Who, run: seq<Step>)
  {
    Legal(s, run) && Exec(s, run) == t && forall i :: 0 <= i < |run| ==> Own(who, run[i])
  }

  /** Some run of that goroutine alone leads from `s` to `t`. */
  ghost predicate Proceeds(s: State, t: State, who: Who) { exists run :: ByRun(s, t, who, run) }

  lemma ProceedsNot(s: State, who: Who)
    ensures Proceeds(s, s, who)
  {
    assert ByRun(s, s, who, []);
  }

  lemma ProceedsThen(s: State, t: State, u: State, who: Who)
    requires Proceeds(s, t, who) && Proceeds(t, u, who)
    ensures Proceeds(s, u, who)
  {
    var run :| ByRun(s, t, who, run);
    var more :| ByRun(t, u, who, more);
    Compose(s, run, more);
    assert ByRun(s, u, who, run + more);
  }

  lemma ProceedsOne(s: State, t: State, who: Who, step: Step)
    requires Own(who, step) && Enabled(s, step) && t == Apply(s, step)
    ensures Proceeds(s, t, who)
  {
    var run := [step];
    assert run[1..] == [];
    assert Legal(t, run[1..]) && Exec(t, run[1..]) == t;
    assert ByRun(s, t, who, run);
  }

  lemma ProceedsReachable(s: State, t: State, who: Who)
    requires Reachable(s) && Proceeds(s, t, who)
    ensures Reachable(t)
  {
    var run :| ByRun(s, t, who, run);
    ReachableRun(s, run);
  }

  lemma ReachableAtFirst(mailboxSize: int, hasDlo: bool)
    ensures Reachable(Init(mailboxSize, hasDlo))
  {
    var none: seq<Step> := [];
    assert Legal(Init(mailboxSize, hasDlo), none) && Exec(Init(mailboxSize, hasDlo), none) == Init(mailboxSize, hasDlo);
  }

  lemma ReachableStep(s: State, step: Step)
    requires Reachable(s) && Enabled(s, step)
    ensures Reachable(Apply(s, step))
  {
    var run := [step];
    assert run[1..] == [] && Legal(Apply(s, step), run[1..]);
    assert Legal(s, run) && Exec(s, run) == Apply(s, step);
    ReachableRun(s, run);
  }

  lemma FirstQueued(s: State)
    requires Reachable(s) && s.box.queue != []
    ensures s.box.queue[0] < |s.calls|
  {
    ReachableInv(s);
  }

  lemma OpenUntilClosed(s: State)
    requires Reachable(s) && s.phase == Receiving
    ensures !s.box.chanClosed
  {
    ReachableInv(s);
  }
}
