/** The receptionist of actor/system.go: actor references registered under service keys. */
module Receptionist {

  /** A reference implements ActorRef for one pair of message and response types, its `kind`. */
  datatype Ref = Ref(kind: nat, id: nat)

  datatype ServiceKey = ServiceKey(name: string, kind: nat)

  type Registrations = map<string, seq<Ref>>

  function Listed(m: Registrations, name: string): seq<Ref> { if name in m then m[name] else [] }

  function Without(refs: seq<Ref>, ref: Ref): seq<Ref>
  {
    if refs == [] then []
    else if refs[0] == ref then Without(refs[1..], ref)
    else [refs[0]] + Without(refs[1..], ref)
  }

  /** The references of one kind; the type assertion fails for the others. */
  function OfKind(refs: seq<Ref>, kind: nat): seq<Ref>
  {
    if refs == [] then []
    else if refs[0].kind == kind then [refs[0]] + OfKind(refs[1..], kind)
    else OfKind(refs[1..], kind)
  }

  datatype Op =
    | Register(key: ServiceKey, ref: Ref)
    | Unregister(key: ServiceKey, ref: Ref)

  /** Go's type checker gives key and reference the same kind. */
  predicate Typed(op: Op) { op.ref.kind == op.key.kind }

  function Apply(m: Registrations, op: Op): Registrations
  {
    var refs := Listed(m, op.key.name);
    match op
    case Register(key, ref) => m[key.name := refs + [ref]]
    case Unregister(key, ref) =>
      if ref !in refs then m
      else if Without(refs, ref) == [] then map name | name in m && name != key.name :: m[name]
      else m[key.name := Without(refs, ref)]
  }

  function Exec(m: Registrations, ops: seq<Op>): Registrations
    decreases |ops|
  {
    if ops == [] then m else Exec(Apply(m, ops[0]), ops[1..])
  }

  function Find(m: Registrations, key: ServiceKey): seq<Ref> { OfKind(Listed(m, key.name), key.kind) }

  lemma {:induction false} WithoutNext(refs: seq<Ref>, last: Ref, ref: Ref)
    ensures Without(refs + [last], ref) == Without(refs, ref) + if last == ref then [] else [last]
  {
    if refs != [] {
      assert (refs + [last])[1..] == refs[1..] + [last];
      WithoutNext(refs[1..], last, ref);
    }
  }

  lemma {:induction false} OfKindNext(refs: seq<Ref>, last: Ref, kind: nat)
    ensures OfKind(refs + [last], kind) == OfKind(refs, kind) + if last.kind == kind then [last] else []
  {
    if refs != [] {
      assert (refs + [last])[1..] == refs[1..] + [last];
      OfKindNext(refs[1..], last, kind);
    }
  }

  class Receptionist {
    var registrations: Registrations

    constructor ()
      ensures registrations == map[]
    {
      registrations := map[];
    }

    method RegisterWithReceptionist(key: ServiceKey, ref: Ref)
      modifies this
      ensures registrations == Apply(old(registrations), Register(key, ref))
    {
      if key.name !in registrations {
        registrations := registrations[key.name := []];
      }
      registrations := registrations[key.name := registrations[key.name] + [ref]];
    }

    method UnregisterFromReceptionist(key: ServiceKey, refToRemove: Ref) returns (found: bool)
      requires refToRemove.kind == key.kind
      modifies this
      ensures found <==> refToRemove in Listed(old(registrations), key.name)
      ensures registrations == Apply(old(registrations), Unregister(key, refToRemove))
    {
      if key.name !in registrations { return false; }
      var refs := registrations[key.name];
      found := false;
      var newRefs: seq<Ref> := [];
      for i := 0 to |refs|
        invariant newRefs == Without(refs[..i], refToRemove)
        invariant found <==> refToRemove in refs[..i]
        invariant registrations == old(registrations)
      {
        assert refs[..i + 1] == refs[..i] + [refs[i]];
        WithoutNext(refs[..i], refs[i], refToRemove);
        if refs[i].kind == key.kind && refs[i] == refToRemove {
          found := true;
        } else {
          newRefs := newRefs + [refs[i]];
        }
      }
      assert refs[..|refs|] == refs;
      if !found { return; }
      if |newRefs| == 0 {
        registrations := map name | name in registrations && name != key.name :: registrations[name];
      } else {
        registrations := registrations[key.name := newRefs];
      }
    }

    method FindInReceptionist(key: ServiceKey) returns (typedRefs: seq<Ref>)
      ensures typedRefs == Find(registrations, key)
    {
      typedRefs := [];
      if key.name in registrations {
        var refs := registrations[key.name];
        for i := 0 to |refs|
          invariant typedRefs == OfKind(refs[..i], key.kind)
        {
          assert refs[..i + 1] == refs[..i] + [refs[i]];
          OfKindNext(refs[..i], refs[i], key.kind);
          if refs[i].kind == key.kind {
            typedRefs := typedRefs + [refs[i]];
          }
        }
        assert refs[..|refs|] == refs;
      }
    }
  }

  // ----- Which registrations survive --------------------------------------

  ghost predicate Removes(op: Op, name: string, ref: Ref) { op.Unregister? && op.key.name == name && op.ref == ref }

  /** The registrations under a name that no later operation removes, in order. */
  ghost function Survivors(ops: seq<Op>, name: string): seq<Ref>
  {
    if ops == [] then []
    else
      var op := ops[0];
      if op.Register? && op.key.name == name && !(exists j :: 0 < j < |ops| && Removes(ops[j], name, op.ref))
      then [op.ref] + Survivors(ops[1..], name)
      else Survivors(ops[1..], name)
  }

  /** Those of a list that the operations leave. */
  ghost function Spared(refs: seq<Ref>, ops: seq<Op>, name: string): seq<Ref>
  {
    if refs == [] then []
    else if exists j :: 0 <= j < |ops| && Removes(ops[j], name, refs[0]) then Spared(refs[1..], ops, name)
    else [refs[0]] + Spared(refs[1..], ops, name)
  }

  lemma {:induction false} SparedByNone(refs: seq<Ref>, name: string)
    ensures Spared(refs, [], name) == refs
  {
    if refs != [] { SparedByNone(refs[1..], name); }
  }

  lemma {:induction false} SparedConcat(a: seq<Ref>, b: seq<Ref>, ops: seq<Op>, name: string)
    ensures Spared(a + b, ops, name) == Spared(a, ops, name) + Spared(b, ops, name)
  {
    if a == [] {
      assert a + b == b;
    } else {
      assert (a + b)[1..] == a[1..] + b;
      SparedConcat(a[1..], b, ops, name);
    }
  }

  lemma RemovedLater(ops: seq<Op>, name: string, ref: Ref)
    requires ops != []
    ensures (exists j :: 0 <= j < |ops| && Removes(ops[j], name, ref)) <==>
              Removes(ops[0], name, ref) || exists j :: 0 <= j < |ops[1..]| && Removes(ops[1..][j], name, ref)
    ensures (exists j :: 0 < j < |ops| && Removes(ops[j], name, ref)) <==>
              exists j :: 0 <= j < |ops[1..]| && Removes(ops[1..][j], name, ref)
  {
    forall j | 0 < j < |ops| ensures ops[j] == ops[1..][j - 1] {}
    forall j | 0 <= j < |ops[1..]| ensures ops[1..][j] == ops[j + 1] {}
  }

  lemma {:induction false} SparedByFirst(refs: seq<Ref>, ops: seq<Op>, name: string)
    requires ops != []
    ensures Spared(refs, ops, name)
         == if ops[0].Unregister? && ops[0].key.name == name then Spared(Without(refs, ops[0].ref), ops[1..], name)
            else Spared(refs, ops[1..], name)
  {
    if refs != [] {
      SparedByFirst(refs[1..], ops, name);
      RemovedLater(ops, name, refs[0]);
    }
  }

  lemma {:induction false} AbsentWithout(refs: seq<Ref>, ref: Ref)
    requires ref !in refs
    ensures Without(refs, ref) == refs
  {
    if refs != [] { AbsentWithout(refs[1..], ref); }
  }

  lemma ListedAfter(m: Registrations, op: Op, name: string)
    ensures Listed(Apply(m, op), name)
         == if op.key.name != name then Listed(m, name)
            else if op.Register? then Listed(m, name) + [op.ref]
            else Without(Listed(m, name), op.ref)
  {
    if op.Unregister? && op.ref !in Listed(m, op.key.name) { AbsentWithout(Listed(m, op.key.name), op.ref); }
  }

  /** One operation at the head of the others. */
  lemma SparedAndSurvivors(refs: seq<Ref>, ops: seq<Op>, name: string)
    requires ops != []
    ensures var op, rest := ops[0], ops[1..];
            var next := if op.key.name != name then refs
                        else if op.Register? then refs + [op.ref]
                        else Without(refs, op.ref);
            Spared(next, rest, name) + Survivors(rest, name) == Spared(refs, ops, name) + Survivors(ops, name)
  {
    var op, rest := ops[0], ops[1..];
    SparedByFirst(refs, ops, name);
    if op.Register? && op.key.name == name {
      SparedConcat(refs, [op.ref], rest, name);
      RemovedLater(ops, name, op.ref);
      assert [op.ref][1..] == [];
    }
  }

  /** After any operations a name lists the old references they leave and then the surviving registrations. */
  lemma {:induction false} ListedAfterOps(m: Registrations, ops: seq<Op>, name: string)
    ensures Listed(Exec(m, ops), name) == Spared(Listed(m, name), ops, name) + Survivors(ops, name)
    decreases |ops|
  {
    if ops == [] {
      SparedByNone(Listed(m, name), name);
    } else {
      ListedAfter(m, ops[0], name);
      ListedAfterOps(Apply(m, ops[0]), ops[1..], name);
      SparedAndSurvivors(Listed(m, name), ops, name);
    }
  }

  /** From an empty receptionist: exactly the survivors of the key's kind, in the order registered. */
  lemma FindsSurvivors(ops: seq<Op>, key: ServiceKey)
    ensures Find(Exec(map[], ops), key) == OfKind(Survivors(ops, key.name), key.kind)
  {
    var none: Registrations := map[];
    ListedAfterOps(none, ops, key.name);
    assert Listed(none, key.name) == [] && Spared([], ops, key.name) == [];
    assert Listed(Exec(none, ops), key.name) == Survivors(ops, key.name);
  }

  /** No name is kept with an empty list. */
  lemma {:induction false} NoEmptyLists(m: Registrations, ops: seq<Op>)
    requires forall name :: name in m ==> m[name] != []
    ensures forall name :: name in Exec(m, ops) ==> Exec(m, ops)[name] != []
    decreases |ops|
  {
    if ops != [] { NoEmptyLists(Apply(m, ops[0]), ops[1..]); }
  }

  /** A lookup finds the references that are listed and of the key's types, and no others. */
  lemma FindExactly(m: Registrations, key: ServiceKey, ref: Ref)
    ensures ref in Find(m, key) <==> ref in Listed(m, key.name) && ref.kind == key.kind
  {
    OfKindExactly(Listed(m, key.name), key.kind, ref);
  }

  lemma {:induction false} OfKindExactly(refs: seq<Ref>, kind: nat, ref: Ref)
    ensures ref in OfKind(refs, kind) <==> ref in refs && ref.kind == kind
  {
    if refs != [] { OfKindExactly(refs[1..], kind, ref); }
  }

  ghost function OnlyKind(ops: seq<Op>, kind: nat): seq<Op>
  {
    if ops == [] then []
    else if ops[0].key.kind == kind then [ops[0]] + OnlyKind(ops[1..], kind)
    else OnlyKind(ops[1..], kind)
  }

  lemma {:induction false} OfKindWithout(refs: seq<Ref>, ref: Ref, kind: nat)
    ensures OfKind(Without(refs, ref), kind) == Without(OfKind(refs, kind), ref)
    ensures ref.kind != kind ==> Without(OfKind(refs, kind), ref) == OfKind(refs, kind)
  {
    if refs != [] { OfKindWithout(refs[1..], ref, kind); }
  }

  /** Users of a name under other types do not disturb each other. */
  lemma {:induction false} KindsAreApart(m: Registrations, m': Registrations, ops: seq<Op>, key: ServiceKey)
    requires Find(m, key) == Find(m', key) && forall i :: 0 <= i < |ops| ==> Typed(ops[i])
    ensures Find(Exec(m, ops), key) == Find(Exec(m', OnlyKind(ops, key.kind)), key)
    decreases |ops|
  {
    if ops != [] {
      var op := ops[0];
      FindAfter(m, op, key);
      FindAfter(m', op, key);
      if op.key.kind == key.kind {
        var only := OnlyKind(ops[1..], key.kind);
        assert ([op] + only)[1..] == only;
        KindsAreApart(Apply(m, op), Apply(m', op), ops[1..], key);
      } else {
        KindsAreApart(Apply(m, op), m', ops[1..], key);
      }
    }
  }

  lemma FindAfter(m: Registrations, op: Op, key: ServiceKey)
    requires Typed(op)
    ensures Find(Apply(m, op), key)
         == if op.key.name != key.name || op.key.kind != key.kind then Find(m, key)
            else if op.Register? then Find(m, key) + [op.ref]
            else Without(Find(m, key), op.ref)
  {
    ListedAfter(m, op, key.name);
    OfKindNext(Listed(m, key.name), op.ref, key.kind);
    OfKindWithout(Listed(m, key.name), op.ref, key.kind);
  }
}
