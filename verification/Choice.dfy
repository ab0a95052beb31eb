/**
  Weighted random choice, autopilot/choice.go, over the reals. What
  rand.Float64 returns is a parameter: one number for a single choice, the
  sequence of draws for choosing several nodes.
*/
module Choice {

  datatype Choice = Chosen(index: nat) | NoPositive | Unable

  /** The sum of the first `k` weights. */
  function Prefix(w: seq<real>, k: nat): real
    requires k <= |w|
  {
    if k == 0 then 0.0 else Prefix(w, k - 1) + w[k - 1]
  }

  function Sum(w: seq<real>): real { Prefix(w, |w|) }

  /** The subtracting loop, from index `i` with `r` left. */
  function FirstBelow(w: seq<real>, r: real, i: nat): Choice
    requires i <= |w|
    decreases |w| - i
  {
    if i == |w| then Unable
    else if r - w[i] <= 0.0 then Chosen(i)
    else FirstBelow(w, r - w[i], i + 1)
  }

  /** The draw's share of the total. */
  function Target(u: real, sum: real): real { u * sum }

  function Pick(w: seq<real>, u: real): Choice
  {
    if Sum(w) <= 0.0 then NoPositive else FirstBelow(w, Target(u, Sum(w)), 0)
  }

  method WeightedChoice(w: array<real>, u: real) returns (c: Choice)
    ensures c == Pick(w[..], u)
  {
    var sum := 0.0;
    for i := 0 to w.Length
      invariant sum == Prefix(w[..], i)
    {
      sum := sum + w[i];
    }
    if sum <= 0.0 { return NoPositive; }
    var r := Target(u, sum);
    for i := 0 to w.Length
      invariant FirstBelow(w[..], r, i) == Pick(w[..], u)
    {
      r := r - w[i];
      if r <= 0.0 { return Chosen(i); }
    }
    return Unable;
  }

  // ----- What is picked ---------------------------------------------------

  /** The first index at which the running sum reaches `x`. */
  ghost predicate Reaches(w: seq<real>, x: real, i: nat)
  {
    i < |w| && x <= Prefix(w, i + 1) && forall k :: 0 < k <= i ==> Prefix(w, k) < x
  }

  lemma {:induction false} FirstBelowMeans(w: seq<real>, x: real, i: nat)
    requires i <= |w| && forall k :: 0 < k <= i ==> Prefix(w, k) < x
    ensures var c := FirstBelow(w, x - Prefix(w, i), i);
            && !c.NoPositive?
            && (c.Chosen? ==> Reaches(w, x, c.index))
            && (c.Unable? ==> forall k :: 0 < k <= |w| ==> Prefix(w, k) < x)
    decreases |w| - i
  {
    if i < |w| && x > Prefix(w, i + 1) { FirstBelowMeans(w, x, i + 1); }
  }

  lemma ReachesOnce(w: seq<real>, x: real, i: nat, j: nat)
    requires Reaches(w, x, i) && Reaches(w, x, j)
    ensures i == j
  {
  }

  lemma Share(u: real, sum: real)
    requires 0.0 <= u < 1.0 && sum > 0.0
    ensures 0.0 <= Target(u, sum) < sum
    ensures u > 0.0 <==> Target(u, sum) > 0.0
  {
  }

  lemma PickTarget(w: seq<real>, u: real, i: nat)
    requires 0.0 <= u < 1.0
    ensures Pick(w, u).NoPositive? <==> Sum(w) <= 0.0
    ensures !Pick(w, u).Unable?
    ensures Pick(w, u) == Chosen(i) <==> Sum(w) > 0.0 && Reaches(w, Target(u, Sum(w)), i)
  {
    if Sum(w) > 0.0 {
      FirstBelowMeans(w, Target(u, Sum(w)), 0);
      Share(u, Sum(w));
      assert |w| > 0;
      assert Prefix(w, |w|) == Sum(w);
      var c := Pick(w, u);
      if c.Chosen? && Reaches(w, Target(u, Sum(w)), i) { ReachesOnce(w, Target(u, Sum(w)), i, c.index); }
    }
  }

  lemma TargetIs(u: real, sum: real)
    ensures Target(u, sum) == u * sum
  {
  }

  lemma ReachesSame(w: seq<real>, x: real, y: real, i: nat)
    requires x == y
    ensures Reaches(w, x, i) <==> Reaches(w, y, i)
  {
  }

  /**
    Of all weights, negative ones too, and all draws below one: the first index
    at which the running sum reaches the draw's share of the total, or no choice
    exactly when the total is not positive. The error exit is never taken.
  */
  lemma PickMeans(w: seq<real>, u: real, i: nat)
    requires 0.0 <= u < 1.0
    ensures Pick(w, u).NoPositive? <==> Sum(w) <= 0.0
    ensures !Pick(w, u).Unable?
    ensures Pick(w, u) == Chosen(i) <==> Sum(w) > 0.0 && Reaches(w, u * Sum(w), i)
  {
    PickTarget(w, u, i);
    TargetIs(u, Sum(w));
    ReachesSame(w, Target(u, Sum(w)), u * Sum(w), i);
  }

  ghost predicate NonNegative(w: seq<real>) { forall i :: 0 <= i < |w| ==> w[i] >= 0.0 }

  lemma {:induction false} PrefixGrows(w: seq<real>, i: nat, j: nat)
    requires NonNegative(w) && i <= j <= |w|
    ensures Prefix(w, i) <= Prefix(w, j)
    decreases j
  {
    if i < j { PrefixGrows(w, i, j - 1); }
  }

  lemma ReachesInterval(w: seq<real>, x: real, i: nat)
    requires NonNegative(w) && x > 0.0
    ensures Reaches(w, x, i) <==> i < |w| && Prefix(w, i) < x <= Prefix(w, i + 1)
  {
    if i < |w| && Prefix(w, i) < x {
      forall k | 0 < k <= i ensures Prefix(w, k) < x { PrefixGrows(w, k, i); }
    }
  }

  lemma TargetInterval(w: seq<real>, u: real, i: nat)
    requires NonNegative(w) && 0.0 < u < 1.0 && Sum(w) > 0.0
    ensures Pick(w, u) == Chosen(i) <==> i < |w| && Prefix(w, i) < Target(u, Sum(w)) <= Prefix(w, i + 1)
    ensures Pick(w, u) == Chosen(i) ==> w[i] > 0.0
  {
    PickTarget(w, u, i);
    Share(u, Sum(w));
    ReachesInterval(w, Target(u, Sum(w)), i);
  }

  /** Each index owns the interval of its weight: a draw in (0, 1) picks it exactly when it falls there. */
  lemma PickInterval(w: seq<real>, u: real, i: nat)
    requires NonNegative(w) && 0.0 < u < 1.0 && Sum(w) > 0.0
    ensures Pick(w, u) == Chosen(i) <==> i < |w| && Prefix(w, i) < u * Sum(w) <= Prefix(w, i + 1)
    ensures Pick(w, u) == Chosen(i) ==> w[i] > 0.0
  {
    TargetInterval(w, u, i);
    TargetIs(u, Sum(w));
  }

  /** A draw of zero picks the first index, whatever its weight. */
  lemma ZeroDraw(w: seq<real>)
    requires NonNegative(w) && Sum(w) > 0.0
    ensures Pick(w, 0.0) == Chosen(0)
  {
    PrefixGrows(w, 0, 1);
    PickTarget(w, 0.0, 0);
    assert Target(0.0, Sum(w)) == 0.0;
  }

  /** A zero weight is picked exactly when the draw is zero and the first weight is. */
  lemma ZeroWeightPicked(w: seq<real>, u: real)
    requires NonNegative(w) && 0.0 <= u < 1.0 && Sum(w) > 0.0
    ensures Pick(w, u).Chosen? && Pick(w, u).index < |w|
    ensures w[Pick(w, u).index] == 0.0 <==> u == 0.0 && w[0] == 0.0
  {
    PickTarget(w, u, if Pick(w, u).Chosen? then Pick(w, u).index else 0);
    if u > 0.0 {
      TargetInterval(w, u, Pick(w, u).index);
    } else {
      ZeroDraw(w);
    }
  }

  // ----- Choosing several -------------------------------------------------

  type NodeID = seq<nat>

  datatype NodeScore = NodeScore(nodeID: NodeID, score: real)

  /** `OutOfDraws`: the loop is still going when the given draws are used up. */
  datatype Outcome =
    | Done(chosen: map<NodeID, NodeScore>)
    | Failed
    | OutOfDraws(chosen: map<NodeID, NodeScore>)

  /** The keys of the map in some order. */
  ghost predicate Lists(nodes: seq<NodeID>, s: map<NodeID, NodeScore>)
  {
    && (forall id :: id in nodes <==> id in s)
    && (forall i, j :: 0 <= i < j < |nodes| ==> nodes[i] != nodes[j])
  }

  function Scores(nodes: seq<NodeID>, s: map<NodeID, NodeScore>): (w: seq<real>)
    requires forall i :: 0 <= i < |nodes| ==> nodes[i] in s
  {
    seq(|nodes|, i requires 0 <= i < |nodes| => s[nodes[i]].score)
  }

  /** The loop of `chooseN`. */
  function Rounds(n: nat, nodes: seq<NodeID>, s: map<NodeID, NodeScore>, scores: seq<real>,
                  chosen: map<NodeID, NodeScore>, draws: seq<real>): Outcome
    requires |scores| == |nodes| && forall i :: 0 <= i < |nodes| ==> nodes[i] in s
    requires forall k :: 0 <= k < |draws| ==> 0.0 <= draws[k] < 1.0
    decreases |draws|
  {
    if |chosen| >= n || |nodes| == 0 || Sum(scores) <= 0.0 then Done(chosen)
    else if draws == [] then OutOfDraws(chosen)
    else
      var p := Pick(scores, draws[0]);
      PickTarget(scores, draws[0], if p.Chosen? then p.index else 0);
      match p
      case NoPositive => Done(chosen)
      case Unable => Failed
      case Chosen(i) =>
        Rounds(n, nodes, s, scores[i := 0.0], chosen[nodes[i] := s[nodes[i]]], draws[1..])
  }

  lemma NextRound(n: nat, nodes: seq<NodeID>, s: map<NodeID, NodeScore>, scores: seq<real>,
                  chosen: map<NodeID, NodeScore>, draws: seq<real>, i: nat)
    requires |scores| == |nodes| && forall i :: 0 <= i < |nodes| ==> nodes[i] in s
    requires forall k :: 0 <= k < |draws| ==> 0.0 <= draws[k] < 1.0
    requires |chosen| < n && draws != [] && Pick(scores, draws[0]) == Chosen(i)
    ensures i < |nodes|
    ensures Rounds(n, nodes, s, scores, chosen, draws)
         == Rounds(n, nodes, s, scores[i := 0.0], chosen[nodes[i] := s[nodes[i]]], draws[1..])
  {
    PickTarget(scores, draws[0], i);
  }

  /** The slices that `chooseN` fills from the map, whose order is not determined. */
  method Collect(s: map<NodeID, NodeScore>) returns (nodes: seq<NodeID>, scores: array<real>)
    ensures Lists(nodes, s) && fresh(scores) && scores[..] == Scores(nodes, s)
  {
    scores := new real[|s|];
    nodes := [];
    var todo := s.Keys;
    while todo != {}
      invariant todo <= s.Keys && |todo| + |nodes| == |s| && forall id :: id in nodes <==> id in s && id !in todo
      invariant forall i, j :: 0 <= i < j < |nodes| ==> nodes[i] != nodes[j]
      invariant forall i :: 0 <= i < |nodes| ==> nodes[i] in s && scores[i] == s[nodes[i]].score
      decreases todo
    {
      var k :| k in todo;
      scores[|nodes|] := s[k].score;
      nodes := nodes + [k];
      todo := todo - {k};
    }
  }

  method ChooseN(n: nat, s: map<NodeID, NodeScore>, draws: seq<real>) returns (nodes: seq<NodeID>, r: Outcome)
    requires forall k :: 0 <= k < |draws| ==> 0.0 <= draws[k] < 1.0
    ensures Lists(nodes, s) && r == Rounds(n, nodes, s, Scores(nodes, s), map[], draws)
  {
    var scores: array<real>;
    nodes, scores := Collect(s);
    var rem := |nodes|;
    var chosen: map<NodeID, NodeScore> := map[];
    var used := 0;
    while |chosen| < n && rem > 0
      invariant used <= |draws| && rem == |nodes| == scores.Length
      invariant Rounds(n, nodes, s, scores[..], chosen, draws[used..])
             == Rounds(n, nodes, s, Scores(nodes, s), map[], draws)
      decreases |draws| - used
    {
      if used == |draws| {
        r := if Sum(scores[..]) <= 0.0 then Done(chosen) else OutOfDraws(chosen);
        return;
      }
      var choice := WeightedChoice(scores, draws[used]);
      if choice.NoPositive? { r := Done(chosen); return; }
      if choice.Unable? { r := Failed; return; }
      NextRound(n, nodes, s, scores[..], chosen, draws[used..], choice.index);
      assert draws[used..][1..] == draws[used + 1..];
      var nID := nodes[choice.index];
      chosen := chosen[nID := s[nID]];
      scores[choice.index] := 0.0;
      used := used + 1;
    }
    r := Done(chosen);
  }

  // ----- What the result is -----------------------------------------------

  /** The nodes with a positive score. */
  function Positive(s: map<NodeID, NodeScore>): set<NodeID> { set id | id in s && s[id].score > 0.0 }

  function Min(a: nat, b: nat): nat { if a <= b then a else b }

  /** What rand.Float64 may return. */
  ghost predicate Draws(draws: seq<real>) { forall k :: 0 <= k < |draws| ==> 0.0 <= draws[k] < 1.0 }

  ghost predicate Scored(nodes: seq<NodeID>, s: map<NodeID, NodeScore>)
  {
    Lists(nodes, s) && forall id :: id in s ==> s[id].score >= 0.0
  }

  /** Entries of the map, unchanged, and positive but for the first node. */
  ghost predicate OwnEntries(nodes: seq<NodeID>, s: map<NodeID, NodeScore>, chosen: map<NodeID, NodeScore>)
  {
    forall id :: id in chosen ==>
      id in s && chosen[id] == s[id] && (s[id].score > 0.0 || (nodes != [] && id == nodes[0]))
  }

  /** The first node is chosen without a score. */
  predicate Stray(nodes: seq<NodeID>, s: map<NodeID, NodeScore>, chosen: map<NodeID, NodeScore>)
  {
    nodes != [] && nodes[0] in chosen && nodes[0] in s && s[nodes[0]].score == 0.0
  }

  /** How many nodes there are to choose. */
  function Supply(nodes: seq<NodeID>, s: map<NodeID, NodeScore>, chosen: map<NodeID, NodeScore>): nat
  {
    |Positive(s)| + if Stray(nodes, s, chosen) then 1 else 0
  }

  /** What the loop keeps: chosen nodes have their score set to zero, the others their own. */
  ghost predicate Between(nodes: seq<NodeID>, s: map<NodeID, NodeScore>, scores: seq<real>,
                          chosen: map<NodeID, NodeScore>)
  {
    && Scored(nodes, s) && |scores| == |nodes| && OwnEntries(nodes, s, chosen)
    && (forall i :: 0 <= i < |nodes| ==> nodes[i] in s)
    && (forall i :: 0 <= i < |nodes| ==> scores[i] == if nodes[i] in chosen then 0.0 else s[nodes[i]].score)
  }

  lemma {:induction false} SumPositive(w: seq<real>, k: nat)
    requires NonNegative(w) && k <= |w|
    ensures Prefix(w, k) > 0.0 <==> exists i :: 0 <= i < k && w[i] > 0.0
    ensures Prefix(w, k) >= 0.0
    decreases k
  {
    if k > 0 { SumPositive(w, k - 1); }
  }

  /** The scores are used up exactly when every positive node is chosen. */
  lemma UsedUp(nodes: seq<NodeID>, s: map<NodeID, NodeScore>, scores: seq<real>, chosen: map<NodeID, NodeScore>)
    requires Between(nodes, s, scores, chosen)
    ensures NonNegative(scores)
    ensures Sum(scores) <= 0.0 <==> Positive(s) <= chosen.Keys
  {
    SumPositive(scores, |scores|);
    if Sum(scores) <= 0.0 {
      forall id | id in Positive(s) ensures id in chosen {
        var i :| 0 <= i < |nodes| && nodes[i] == id;
        assert !(scores[i] > 0.0);
      }
    }
  }

  /** And then as many nodes are chosen as there are to choose. */
  lemma AllChosen(nodes: seq<NodeID>, s: map<NodeID, NodeScore>, chosen: map<NodeID, NodeScore>)
    requires OwnEntries(nodes, s, chosen) && forall id :: id in s ==> s[id].score >= 0.0
    ensures |chosen| <= Supply(nodes, s, chosen)
    ensures |chosen| == Supply(nodes, s, chosen) <==> Positive(s) <= chosen.Keys
  {
    var own := chosen.Keys * Positive(s);
    Subset(own, Positive(s));
    if Stray(nodes, s, chosen) {
      assert chosen.Keys == own + {nodes[0]};
    } else {
      assert chosen.Keys == own;
    }
    assert own == Positive(s) <==> Positive(s) <= chosen.Keys;
  }

  lemma Subset<T>(a: set<T>, b: set<T>)
    requires a <= b
    ensures |a| <= |b| && (|a| == |b| <==> a == b)
  {
    assert b == a + (b - a);
  }

  /** A positive draw picks a node that is not chosen yet, and has a score. */
  lemma PickedIsNew(nodes: seq<NodeID>, s: map<NodeID, NodeScore>, scores: seq<real>,
                    chosen: map<NodeID, NodeScore>, u: real, i: nat)
    requires Between(nodes, s, scores, chosen) && 0.0 < u < 1.0 && Pick(scores, u) == Chosen(i)
    ensures i < |nodes| && nodes[i] !in chosen && nodes[i] in s && s[nodes[i]].score > 0.0
  {
    UsedUp(nodes, s, scores, chosen);
    PickTarget(scores, u, i);
    TargetInterval(scores, u, i);
  }

  lemma ChosenNext(nodes: seq<NodeID>, s: map<NodeID, NodeScore>, scores: seq<real>,
                   chosen: map<NodeID, NodeScore>, i: nat)
    requires Between(nodes, s, scores, chosen) && i < |nodes| && (i == 0 || s[nodes[i]].score > 0.0)
    ensures Between(nodes, s, scores[i := 0.0], chosen[nodes[i] := s[nodes[i]]])
  {
    var scores', chosen' := scores[i := 0.0], chosen[nodes[i] := s[nodes[i]]];
    forall k | 0 <= k < |nodes|
      ensures scores'[k] == if nodes[k] in chosen' then 0.0 else s[nodes[k]].score
    {
      if k != i { assert nodes[k] != nodes[i]; }
    }
  }

  lemma ChosenCount(nodes: seq<NodeID>, s: map<NodeID, NodeScore>, chosen: map<NodeID, NodeScore>, id: NodeID)
    requires OwnEntries(nodes, s, chosen) && id in s && nodes != [] && nodes[0] in s
    requires id == nodes[0] || s[id].score > 0.0
    requires s[id].score >= 0.0
    ensures |chosen[id := s[id]]| == |chosen| + if id in chosen then 0 else 1
    ensures Stray(nodes, s, chosen[id := s[id]]) <==> Stray(nodes, s, chosen) || s[id].score == 0.0
  {
    if id in chosen {
      assert chosen[id := s[id]] == chosen;
    } else {
      assert chosen[id := s[id]].Keys == chosen.Keys + {id};
    }
  }

  /** One more round: a positive draw chooses a new positive node, a zero draw the first node. */
  lemma OneRound(n: nat, nodes: seq<NodeID>, s: map<NodeID, NodeScore>, scores: seq<real>,
                 chosen: map<NodeID, NodeScore>, draws: seq<real>)
    returns (i: nat, scores': seq<real>, chosen': map<NodeID, NodeScore>)
    requires Between(nodes, s, scores, chosen) && |chosen| < n && Sum(scores) > 0.0 && draws != [] && Draws(draws)
    ensures i < |nodes| && scores' == scores[i := 0.0] && chosen' == chosen[nodes[i] := s[nodes[i]]]
    ensures Between(nodes, s, scores', chosen')
    ensures Rounds(n, nodes, s, scores, chosen, draws) == Rounds(n, nodes, s, scores', chosen', draws[1..])
    ensures Used(n, nodes, s, scores, chosen, draws) == 1 + Used(n, nodes, s, scores', chosen', draws[1..])
    ensures |chosen| <= |chosen'| <= |chosen| + 1 && (draws[0] > 0.0 ==> |chosen'| == |chosen| + 1)
    ensures Stray(nodes, s, chosen') && |chosen'| == |chosen| ==> Stray(nodes, s, chosen)
    ensures Stray(nodes, s, chosen') <==>
              Stray(nodes, s, chosen) || (draws[0] == 0.0 && s[nodes[0]].score == 0.0)
  {
    var u := draws[0];
    UsedUp(nodes, s, scores, chosen);
    PickTarget(scores, u, 0);
    i := Pick(scores, u).index;
    PickTarget(scores, u, i);
    if u > 0.0 { PickedIsNew(nodes, s, scores, chosen, u, i); } else { ZeroDraw(scores); }
    NextRound(n, nodes, s, scores, chosen, draws, i);
    ChosenNext(nodes, s, scores, chosen, i);
    ChosenCount(nodes, s, chosen, nodes[i]);
    scores', chosen' := scores[i := 0.0], chosen[nodes[i] := s[nodes[i]]];
  }

  /** How many of the draws the loop uses. */
  function Used(n: nat, nodes: seq<NodeID>, s: map<NodeID, NodeScore>, scores: seq<real>,
                chosen: map<NodeID, NodeScore>, draws: seq<real>): (k: nat)
    requires |scores| == |nodes| && forall i :: 0 <= i < |nodes| ==> nodes[i] in s
    requires forall k :: 0 <= k < |draws| ==> 0.0 <= draws[k] < 1.0
    ensures k <= |draws|
    decreases |draws|
  {
    if |chosen| >= n || |nodes| == 0 || draws == [] then 0
    else
      var p := Pick(scores, draws[0]);
      PickTarget(scores, draws[0], if p.Chosen? then p.index else 0);
      if p.NoPositive? then 0
      else
        var id := nodes[p.index];
        1 + Used(n, nodes, s, scores[p.index := 0.0], chosen[id := s[id]], draws[1..])
  }

  /** The number of positive draws. */
  function Hits(draws: seq<real>): nat
  {
    if draws == [] then 0 else (if draws[0] > 0.0 then 1 else 0) + Hits(draws[1..])
  }

  predicate ZeroAmong(draws: seq<real>, k: nat)
  {
    exists j :: 0 <= j < k && j < |draws| && draws[j] == 0.0
  }

  lemma ZeroAmongNext(draws: seq<real>, k: nat)
    requires draws != []
    ensures ZeroAmong(draws, k + 1) <==> draws[0] == 0.0 || ZeroAmong(draws[1..], k)
  {
    if j :| 0 < j < k + 1 && j < |draws| && draws[j] == 0.0 { assert draws[1..][j - 1] == 0.0; }
    if j :| 0 <= j < k && j < |draws[1..]| && draws[1..][j] == 0.0 { assert draws[j + 1] == 0.0; }
  }

  lemma LastRound(n: nat, nodes: seq<NodeID>, s: map<NodeID, NodeScore>, scores: seq<real>,
                  chosen: map<NodeID, NodeScore>, draws: seq<real>)
    requires Between(nodes, s, scores, chosen) && Draws(draws)
    requires |chosen| >= n || Sum(scores) <= 0.0 || draws == []
    ensures Rounds(n, nodes, s, scores, chosen, draws)
         == if |chosen| >= n || Sum(scores) <= 0.0 then Done(chosen) else OutOfDraws(chosen)
    ensures Used(n, nodes, s, scores, chosen, draws) == 0
  {
  }

  /** What an outcome that uses `used` of the draws is, seen from a state of the loop with `chosen`. */
  ghost predicate Meets(n: nat, nodes: seq<NodeID>, s: map<NodeID, NodeScore>,
                        chosen: map<NodeID, NodeScore>, draws: seq<real>, r: Outcome, used: nat)
  {
    && !r.Failed? && OwnEntries(nodes, s, r.chosen)
    && (r.Done? ==> |r.chosen| == Min(n, Supply(nodes, s, r.chosen)))
    && (|chosen| + Hits(draws) >= Min(n, Supply(nodes, s, chosen)) ==> r.Done?)
    && |chosen| <= |r.chosen| <= |chosen| + |draws|
    && (r.OutOfDraws? ==> |r.chosen| >= |chosen| + Hits(draws))
    && (Stray(nodes, s, r.chosen) <==>
          || Stray(nodes, s, chosen)
          || (ZeroAmong(draws, used) && nodes != [] && nodes[0] in s && s[nodes[0]].score == 0.0))
  }

  lemma MeetsBefore(n: nat, nodes: seq<NodeID>, s: map<NodeID, NodeScore>, chosen: map<NodeID, NodeScore>,
                    chosen': map<NodeID, NodeScore>, draws: seq<real>, r: Outcome, used: nat)
    requires nodes != [] && nodes[0] in s && draws != [] && draws[0] >= 0.0
    requires Meets(n, nodes, s, chosen', draws[1..], r, used)
    requires |chosen| <= |chosen'| <= |chosen| + 1 && (draws[0] > 0.0 ==> |chosen'| == |chosen| + 1)
    requires Stray(nodes, s, chosen') && |chosen'| == |chosen| ==> Stray(nodes, s, chosen)
    requires Stray(nodes, s, chosen') <==>
               Stray(nodes, s, chosen) || (draws[0] == 0.0 && s[nodes[0]].score == 0.0)
    ensures Meets(n, nodes, s, chosen, draws, r, used + 1)
  {
    ZeroAmongNext(draws, used);
    assert Hits(draws) == (if draws[0] > 0.0 then 1 else 0) + Hits(draws[1..]);
  }

  lemma MeetsAtEnd(n: nat, nodes: seq<NodeID>, s: map<NodeID, NodeScore>, scores: seq<real>,
                   chosen: map<NodeID, NodeScore>, draws: seq<real>)
    requires Between(nodes, s, scores, chosen) && |chosen| <= n && Draws(draws)
    requires |chosen| >= n || Sum(scores) <= 0.0 || draws == []
    ensures Meets(n, nodes, s, chosen, draws, Rounds(n, nodes, s, scores, chosen, draws),
                  Used(n, nodes, s, scores, chosen, draws))
  {
    UsedUp(nodes, s, scores, chosen);
    AllChosen(nodes, s, chosen);
    LastRound(n, nodes, s, scores, chosen, draws);
  }

  /** From any state of the loop. */
  lemma {:induction false} RoundsMean(n: nat, nodes: seq<NodeID>, s: map<NodeID, NodeScore>, scores: seq<real>,
                                      chosen: map<NodeID, NodeScore>, draws: seq<real>)
    requires Between(nodes, s, scores, chosen) && |chosen| <= n && Draws(draws)
    ensures Meets(n, nodes, s, chosen, draws, Rounds(n, nodes, s, scores, chosen, draws),
                  Used(n, nodes, s, scores, chosen, draws))
    decreases |draws|
  {
    if |chosen| < n && Sum(scores) > 0.0 && draws != [] {
      var i, scores', chosen' := OneRound(n, nodes, s, scores, chosen, draws);
      RoundsMean(n, nodes, s, scores', chosen', draws[1..]);
      MeetsBefore(n, nodes, s, chosen, chosen', draws, Rounds(n, nodes, s, scores', chosen', draws[1..]),
                  Used(n, nodes, s, scores', chosen', draws[1..]));
    } else {
      MeetsAtEnd(n, nodes, s, scores, chosen, draws);
    }
  }

  // ----- chooseN ----------------------------------------------------------

  lemma Begin(nodes: seq<NodeID>, s: map<NodeID, NodeScore>)
    requires Scored(nodes, s)
    ensures (forall i :: 0 <= i < |nodes| ==> nodes[i] in s)
    ensures Between(nodes, s, Scores(nodes, s), map[]) && !Stray(nodes, s, map[])
  {
    forall i | 0 <= i < |nodes| ensures nodes[i] in s { assert nodes[i] in nodes; }
  }

  /**
    For scores that are not negative and all draws that rand.Float64 may return:
    the result has unchanged entries of the map only, all positive exactly
    unless the first node has no score and a zero is used; it is done once
    min(n, number of positive scores) draws are positive, and not before there
    are as many draws; and then it has n entries, or else all positive ones, and
    the first if that was picked without a score.
  */
  lemma ChooseNMeans(n: nat, nodes: seq<NodeID>, s: map<NodeID, NodeScore>, draws: seq<real>)
    requires Scored(nodes, s) && Draws(draws)
    ensures forall i :: 0 <= i < |nodes| ==> nodes[i] in s
    ensures var r := Rounds(n, nodes, s, Scores(nodes, s), map[], draws);
            var used := Used(n, nodes, s, Scores(nodes, s), map[], draws);
            var size := Min(n, |Positive(s)|);
            && !r.Failed?
            && (forall id :: id in r.chosen ==> id in s && r.chosen[id] == s[id])
            && (r.chosen.Keys <= Positive(s) <==>
                  !(ZeroAmong(draws, used) && s[nodes[0]].score == 0.0))
            && (r.Done? ==> |r.chosen| == Min(n, Supply(nodes, s, r.chosen)))
            && (Hits(draws) >= size ==> r.Done?)
            && (r.Done? ==> |draws| >= size)
  {
    Begin(nodes, s);
    var none: map<NodeID, NodeScore> := map[];
    RoundsMean(n, nodes, s, Scores(nodes, s), none, draws);
  }

  lemma {:induction false} AllHits(draws: seq<real>)
    requires forall k :: 0 <= k < |draws| ==> 0.0 < draws[k]
    ensures Hits(draws) == |draws|
    decreases |draws|
  {
    if draws != [] { AllHits(draws[1..]); }
  }

  /** With draws in (0, 1) it is done after exactly that many draws, with that many positive entries. */
  lemma ChooseNPositive(n: nat, nodes: seq<NodeID>, s: map<NodeID, NodeScore>, draws: seq<real>)
    requires Scored(nodes, s) && Draws(draws) && forall k :: 0 <= k < |draws| ==> 0.0 < draws[k]
    ensures forall i :: 0 <= i < |nodes| ==> nodes[i] in s
    ensures var r := Rounds(n, nodes, s, Scores(nodes, s), map[], draws);
            var size := Min(n, |Positive(s)|);
            && !r.Failed?
            && (forall id :: id in r.chosen ==> id in s && r.chosen[id] == s[id] && s[id].score > 0.0)
            && |r.chosen| == Min(size, |draws|)
            && (r.Done? <==> |draws| >= size)
  {
    Begin(nodes, s);
    var none: map<NodeID, NodeScore> := map[];
    ChooseNMeans(n, nodes, s, draws);
    RoundsMean(n, nodes, s, Scores(nodes, s), none, draws);
    AllHits(draws);
    var r := Rounds(n, nodes, s, Scores(nodes, s), map[], draws);
    AllChosen(nodes, s, r.chosen);
  }

  /** `k` draws of one half. */
  function HalfDraws(k: nat): (draws: seq<real>)
    ensures |draws| == k && forall i :: 0 <= i < k ==> draws[i] == 0.5
  {
    seq(k, i => 0.5)
  }

  ghost predicate AlwaysDone(n: nat, nodes: seq<NodeID>, s: map<NodeID, NodeScore>, k: nat)
    requires forall i :: 0 <= i < |nodes| ==> nodes[i] in s
  {
    forall draws :: Draws(draws) && Hits(draws) == k ==> Rounds(n, nodes, s, Scores(nodes, s), map[], draws).Done?
  }

  /**
    Every sequence of draws with `k` positive ones, and zeros anywhere between
    them, brings `chooseN` to its end exactly if `k` is at least
    min(n, number of positive scores).
  */
  lemma EndsExactly(n: nat, nodes: seq<NodeID>, s: map<NodeID, NodeScore>, k: nat)
    requires Scored(nodes, s)
    ensures forall i :: 0 <= i < |nodes| ==> nodes[i] in s
    ensures AlwaysDone(n, nodes, s, k) <==> k >= Min(n, |Positive(s)|)
  {
    Begin(nodes, s);
    if k >= Min(n, |Positive(s)|) {
      forall draws | Draws(draws) && Hits(draws) == k
        ensures Rounds(n, nodes, s, Scores(nodes, s), map[], draws).Done?
      {
        ChooseNMeans(n, nodes, s, draws);
      }
    } else {
      AllHits(HalfDraws(k));
      ChooseNMeans(n, nodes, s, HalfDraws(k));
      assert Draws(HalfDraws(k)) && Hits(HalfDraws(k)) == k;
    }
  }

  // ----- Draws of zero ----------------------------------------------------

  /** A zero among the draws is no progress once the first node has no score left. */
  lemma {:induction false} StuckRounds(n: nat, nodes: seq<NodeID>, s: map<NodeID, NodeScore>, scores: seq<real>,
                                       chosen: map<NodeID, NodeScore>, draws: seq<real>)
    requires Lists(nodes, s) && |scores| == |nodes| && (forall i :: 0 <= i < |nodes| ==> nodes[i] in s)
    requires NonNegative(scores) && Sum(scores) > 0.0 && scores[0] == 0.0 && |chosen| < n
    requires nodes[0] in chosen && chosen[nodes[0]] == s[nodes[0]]
    requires forall k :: 0 <= k < |draws| ==> draws[k] == 0.0
    ensures Rounds(n, nodes, s, scores, chosen, draws) == OutOfDraws(chosen)
    decreases |draws|
  {
    if draws != [] {
      ZeroDraw(scores);
      NextRound(n, nodes, s, scores, chosen, draws, 0);
      assert scores[0 := 0.0] == scores && chosen[nodes[0] := s[nodes[0]]] == chosen;
      StuckRounds(n, nodes, s, scores, chosen, draws[1..]);
    }
  }

  /**
    With zeros only and a positive score behind the first node, choosing two or
    more never ends, and keeps a first node without score.
  */
  lemma ZerosNeverEnd(n: nat, nodes: seq<NodeID>, s: map<NodeID, NodeScore>, draws: seq<real>, k: nat)
    requires Lists(nodes, s) && (forall i :: 0 <= i < |nodes| ==> nodes[i] in s)
    requires (forall id :: id in s ==> s[id].score >= 0.0) && 0 < k < |nodes| && s[nodes[k]].score > 0.0
    requires n >= 2 && draws != [] && forall k :: 0 <= k < |draws| ==> draws[k] == 0.0
    ensures Rounds(n, nodes, s, Scores(nodes, s), map[], draws) == OutOfDraws(map[nodes[0] := s[nodes[0]]])
  {
    var scores := Scores(nodes, s);
    var rest := scores[0 := 0.0];
    SumPositive(scores, |scores|);
    SumPositive(rest, |rest|);
    assert scores[k] > 0.0 && rest[k] > 0.0;
    ZeroDraw(scores);
    NextRound(n, nodes, s, scores, map[], draws, 0);
    var one: map<NodeID, NodeScore> := map[];
    assert one[nodes[0] := s[nodes[0]]] == map[nodes[0] := s[nodes[0]]];
    assert |map[nodes[0] := s[nodes[0]]]| == 1;
    StuckRounds(n, nodes, s, rest, map[nodes[0] := s[nodes[0]]], draws[1..]);
  }
}
