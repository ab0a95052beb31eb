/** A state that takes in a sequence of inputs, one by one. */
module Folds {

  function Fold<S, T>(f: (S, T) -> S, s: S, ws: seq<T>): S
    decreases |ws|
  {
    if ws == [] then s else Fold(f, f(s, ws[0]), ws[1..])
  }

  lemma {:induction false} FoldConcat<S, T>(f: (S, T) -> S, s: S, v: seq<T>, w: seq<T>)
    ensures Fold(f, s, v + w) == Fold(f, Fold(f, s, v), w)
    decreases |v|
  {
    if v == [] {
      assert v + w == w;
    } else {
      assert (v + w)[1..] == v[1..] + w;
      FoldConcat(f, f(s, v[0]), v[1..], w);
    }
  }

  ghost predicate KeepsStatesApart<S(!new), T(!new)>(f: (S, T) -> S)
  {
    forall s, t, w :: f(s, w) == f(t, w) ==> s == t
  }

  lemma {:induction false} FoldInjective<S(!new), T(!new)>(f: (S, T) -> S, s: S, t: S, w: seq<T>)
    requires KeepsStatesApart(f) && Fold(f, s, w) == Fold(f, t, w)
    ensures s == t
    decreases |w|
  {
    if w != [] { FoldInjective(f, f(s, w[0]), f(t, w[0]), w[1..]); }
  }

  /** If inputs that agree outside a window end in the same state, the window alone leads to one state. */
  lemma WindowDecides<S(!new), T(!new)>(f: (S, T) -> S, s: S, v: seq<T>, w: seq<T>, lo: nat, hi: nat)
    requires KeepsStatesApart(f) && Fold(f, s, v) == Fold(f, s, w)
    requires |v| == |w| && lo <= hi <= |v| && v[..lo] == w[..lo] && v[hi..] == w[hi..]
    ensures Fold(f, Fold(f, s, v[..lo]), v[lo..hi]) == Fold(f, Fold(f, s, v[..lo]), w[lo..hi])
  {
    var t := Fold(f, s, v[..lo]);
    assert v == v[..lo] + (v[lo..hi] + v[hi..]) && w == w[..lo] + (w[lo..hi] + w[hi..]);
    FoldConcat(f, s, v[..lo], v[lo..hi] + v[hi..]);
    FoldConcat(f, s, w[..lo], w[lo..hi] + w[hi..]);
    FoldConcat(f, t, v[lo..hi], v[hi..]);
    FoldConcat(f, t, w[lo..hi], w[hi..]);
    FoldInjective(f, Fold(f, t, v[lo..hi]), Fold(f, t, w[lo..hi]), v[hi..]);
  }
}
