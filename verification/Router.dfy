/** The round-robin strategy and the router of actor/router.go. */
module Router {
  import opened Options
  import opened Bits
  import opened Receptionist

  const WRAP: nat := 0x1_0000_0000_0000_0000

  class RoundRobinStrategy {
    var index: nat

    ghost predicate Valid()
      reads this
    {
      index < WRAP
    }

    constructor ()
      ensures Valid() && index == 0
    {
      index := 0;
    }

    /** The increment is one atomic step, so calls of concurrent callers follow each other. */
    method Select(refs: seq<Ref>) returns (selected: Option<Ref>)
      requires Valid()
      modifies this
      ensures Valid()
      ensures refs == [] ==> selected == None && index == old(index)
      ensures refs != [] ==> selected == Some(refs[old(index) % |refs|]) && index == Advanced(old(index), 1)
    {
      if |refs| == 0 { return None; }
      index := Advanced(index, 1);
      var idx := (index - 1) % WRAP;
      assert idx == old(index);
      selected := Some(refs[idx % |refs|]);
    }
  }

  class Router {
    const receptionist: Receptionist
    const serviceKey: ServiceKey
    const strategy: RoundRobinStrategy

    constructor (r: Receptionist, key: ServiceKey, s: RoundRobinStrategy)
      ensures receptionist == r && serviceKey == key && strategy == s
    {
      receptionist, serviceKey, strategy := r, key, s;
    }

    method GetActor() returns (selected: Option<Ref>)
      requires strategy.Valid()
      modifies strategy
      ensures strategy.Valid()
      ensures var refs := Find(receptionist.registrations, serviceKey);
              if refs == [] then selected == None && strategy.index == old(strategy.index)
              else selected == Some(refs[old(strategy.index) % |refs|])
                   && strategy.index == Advanced(old(strategy.index), 1)
    {
      var availableActors := receptionist.FindInReceptionist(serviceKey);
      if |availableActors| == 0 { return None; }
      selected := strategy.Select(availableActors);
    }

    /** `m` selections in a row, by whichever callers. */
    method GetActors(m: nat) returns (selected: seq<Option<Ref>>)
      requires strategy.Valid()
      modifies strategy
      ensures strategy.Valid() && |selected| == m
      ensures var refs := Find(receptionist.registrations, serviceKey);
              forall k :: 0 <= k < m ==>
                selected[k] == if refs == [] then None else Some(refs[Position(old(strategy.index), k, |refs|)])
    {
      selected := [];
      ghost var refs := Find(receptionist.registrations, serviceKey);
      ghost var x := strategy.index;
      for k := 0 to m
        invariant strategy.Valid() && |selected| == k
        invariant refs == Find(receptionist.registrations, serviceKey)
        invariant strategy.index == if refs == [] then x else Advanced(x, k)
        invariant forall i :: 0 <= i < k ==>
                    selected[i] == if refs == [] then None else Some(refs[Position(x, i, |refs|)])
      {
        AdvancedNext(x, k);
        var next := GetActor();
        selected := selected + [next];
      }
    }
  }

  // ----- Positions --------------------------------------------------------

  /** The index after `k` increments. */
  function Advanced(x: nat, k: nat): nat { (x + k) % WRAP }

  lemma AdvancedNext(x: nat, k: nat)
    ensures Advanced(Advanced(x, k), 1) == Advanced(x, k + 1)
  {
  }

  /** The position that selection `k` picks, counted from index `x`, among `n`. */
  function Position(x: nat, k: nat, n: nat): (p: nat)
    requires n > 0
    ensures p < n
  {
    Advanced(x, k) % n
  }

  /** How often the next `m` selections pick position `j`. */
  function Picked(x: nat, m: nat, n: nat, j: nat): nat
    requires n > 0
  {
    if m == 0 then 0 else Picked(x, m - 1, n, j) + if Position(x, m - 1, n) == j then 1 else 0
  }

  ghost predicate FairTo(x: nat, m: nat, n: nat, j: nat)
    requires n > 0
  {
    m / n <= Picked(x, m, n, j) <= (m + n - 1) / n
  }

  // ----- Counting without the wrap ----------------------------------------

  /** How many of the first `y` numbers leave remainder `j`. */
  function Below(y: nat, n: nat, j: nat): nat
    requires j < n
  {
    (y + n - 1 - j) / n
  }

  lemma Euclid(a: nat, n: nat, q: nat, r: nat)
    requires n > 0 && a == n * q + r && r < n
    ensures a / n == q && a % n == r
  {
    Quotient(a, n, q, r);
  }

  lemma BelowNext(y: nat, n: nat, j: nat)
    requires j < n
    ensures Below(y + 1, n, j) == Below(y, n, j) + if y % n == j then 1 else 0
  {
    var q, r := y / n, y % n;
    assert y == n * q + r;
    QuotientAt(n, q, r, n - 1 - j);
    QuotientAt(n, q, r, n - j);
  }

  lemma QuotientAt(n: nat, q: nat, r: nat, k: nat)
    requires r < n && k <= n
    ensures (n * q + r + k) / n == q + if r + k < n then 0 else 1
  {
    Distribute(n, q, 1);
    if r + k < n { Euclid(n * q + r + k, n, q, r + k); } else { Euclid(n * q + r + k, n, q + 1, r + k - n); }
  }

  /** Selections whose positions are those of counting on from `x`. */
  ghost predicate Counts(x: nat, m: nat, n: nat)
    requires n > 0
  {
    forall k :: 0 <= k < m ==> Position(x, k, n) == (x + k) % n
  }

  lemma {:induction false} PickedExactly(x: nat, m: nat, n: nat, j: nat)
    requires j < n && Counts(x, m, n)
    ensures Picked(x, m, n, j) == Below(x + m, n, j) - Below(x, n, j)
  {
    if m > 0 {
      PickedExactly(x, m - 1, n, j);
      BelowNext(x + m - 1, n, j);
    }
  }

  lemma SumQuotient(n: nat, p: nat, r: nat, q: nat, t: nat)
    requires r < n && t < n
    ensures (n * p + r + n * q + t) / n == p + q + if r + t < n then 0 else 1
  {
    var a := n * p + r + n * q + t;
    Distribute(n, p, q);
    Distribute(n, p + q, 1);
    if r + t < n { Euclid(a, n, p + q, r + t); } else { Euclid(a, n, p + q + 1, r + t - n); }
  }

  /** Adding `m` raises a quotient by `m / n`, rounded down or up. */
  lemma Raise(a: nat, m: nat, n: nat)
    requires n > 0
    ensures m / n <= (a + m) / n - a / n <= (m + n - 1) / n
  {
    var p, r, q, t := a / n, a % n, m / n, m % n;
    assert a == n * p + r && m == n * q + t;
    RaiseParts(a, m, n, p, r, q, t);
  }

  lemma RaiseParts(a: nat, m: nat, n: nat, p: nat, r: nat, q: nat, t: nat)
    requires r < n && t < n && a == n * p + r && m == n * q + t
    ensures m / n <= (a + m) / n - a / n <= (m + n - 1) / n
  {
    Euclid(a, n, p, r);
    Euclid(m, n, q, t);
    SumQuotient(n, p, r, q, t);
    SumQuotient(n, q, t, 0, n - 1);
  }

  lemma BelowRaise(x: nat, m: nat, n: nat, j: nat)
    requires j < n
    ensures m / n <= Below(x + m, n, j) - Below(x, n, j) <= (m + n - 1) / n
  {
    Raise(x + n - 1 - j, m, n);
  }

  lemma CountsAreFair(x: nat, m: nat, n: nat, j: nat)
    requires j < n && Counts(x, m, n)
    ensures FairTo(x, m, n, j)
  {
    PickedExactly(x, m, n, j);
    BelowRaise(x, m, n, j);
  }

  /** While the index does not wrap, `m` selections in a row pick each of `n` positions m/n times, up or down. */
  lemma FairWithoutWrap(x: nat, m: nat, n: nat, j: nat)
    requires j < n && x + m <= 0x1_0000_0000_0000_0000
    ensures FairTo(x, m, n, j)
  {
    forall k | 0 <= k < m ensures Position(x, k, n) == (x + k) % n { assert Advanced(x, k) == x + k; }
    CountsAreFair(x, m, n, j);
  }

  // ----- Across the wrap --------------------------------------------------

  lemma WrapKeepsPosition(y: nat, n: nat)
    requires n > 0 && WRAP % n == 0
    ensures y % WRAP % n == y % n
  {
    var w, z := y / WRAP, y % WRAP;
    var d, q := WRAP / n, z / n;
    assert WRAP == n * d;
    assert y == WRAP * w + z && z == n * q + z % n;
    assert WRAP * w == n * (d * w);
    assert n * (d * w + q) == n * (d * w) + n * q;
    Euclid(y, n, d * w + q, z % n);
  }

  lemma {:induction false} PickedAtLeast(x: nat, k: nat, m: nat, n: nat, j: nat)
    requires n > 0 && k <= m
    ensures Picked(x, k, n, j) <= Picked(x, m, n, j)
    decreases m
  {
    if k < m { PickedAtLeast(x, k, m - 1, n, j); }
  }

  /** Otherwise position 0 is picked twice within `n` selections around the wrap. */
  lemma UnfairAcrossWrap(n: nat)
    requires 0 < n < WRAP && WRAP % n != 0
    ensures var r := WRAP % n; !FairTo(WRAP - r, r + 1, n, 0)
  {
    var r := WRAP % n;
    var x := WRAP - r;
    AroundWrap(n, r, x);
    PickedTwice(x, r, n);
    Euclid(r + n, n, 1, r);
  }

  /** The last multiple of `n` before the wrap, and 0 after it. */
  lemma AroundWrap(n: nat, r: nat, x: nat)
    requires 0 < n < WRAP && r == WRAP % n && r > 0 && x == WRAP - r
    ensures Position(x, 0, n) == 0 && Position(x, r, n) == 0
  {
    assert WRAP == n * (WRAP / n) + r;
    Euclid(x, n, WRAP / n, 0);
    assert Advanced(x, 0) == x && Advanced(x, r) == 0;
  }

  lemma PickedTwice(x: nat, r: nat, n: nat)
    requires n > 0 && r > 0 && Position(x, 0, n) == 0 && Position(x, r, n) == 0
    ensures Picked(x, r + 1, n, 0) >= 2
  {
    assert Picked(x, 0, n, 0) == 0;
    assert Picked(x, 1, n, 0) == Picked(x, 0, n, 0) + 1;
    PickedAtLeast(x, 1, r, n, 0);
  }

  /** Selection is fair from every index, over any number of selections, exactly when `n` divides 2^64. */
  lemma FairAcrossWrap(n: nat)
    requires 0 < n < 0x1_0000_0000_0000_0000
    ensures (forall x: nat, m: nat, j: nat :: x < 0x1_0000_0000_0000_0000 && j < n ==> FairTo(x, m, n, j)) <==>
              0x1_0000_0000_0000_0000 % n == 0
  {
    if WRAP % n == 0 {
      forall x: nat, m: nat, j: nat | x < WRAP && j < n ensures FairTo(x, m, n, j) {
        forall k | 0 <= k < m ensures Position(x, k, n) == (x + k) % n { WrapKeepsPosition(x + k, n); }
        CountsAreFair(x, m, n, j);
      }
    } else {
      UnfairAcrossWrap(n);
    }
  }
}
