/** The markers the controller puts on nodes, and whose they are
(internal/controller/nodeops.go). */
module Nodeops {
  /** The annotation keys the controller reads or writes on a node, and all others. */
  datatype Key = SurgeFor | DoNotDisrupt | DoNotDisruptOwned | Cordoned | Other(name: string)

  datatype NodeState = NodeState(annotations: map<Key, string>, unschedulable: bool) {
    predicate Has(k: Key) { k in annotations }

    /** The value of an annotation, empty when absent. */
    function Get(k: Key): string { if k in annotations then annotations[k] else "" }

    function With(k: Key, v: string): NodeState { this.(annotations := annotations[k := v]) }

    function Without(k: Key): NodeState { this.(annotations := annotations - {k}) }
  }

  /** An operator's active protection: the only value Karpenter honours, without the
  controller's owned marker. */
  predicate OperatorOwnsDoNotDisrupt(n: NodeState) {
    n.Get(DoNotDisrupt) == "true" && !n.Has(DoNotDisruptOwned)
  }

  function Freeze(n: NodeState, claim: string): NodeState {
    var m := if OperatorOwnsDoNotDisrupt(n) then n else n.With(DoNotDisrupt, "true").With(DoNotDisruptOwned, "true");
    m.With(SurgeFor, claim)
  }

  function Cordon(n: NodeState): NodeState {
    if n.unschedulable && !n.Has(Cordoned) then n
    else n.(unschedulable := true).With(Cordoned, "true")
  }

  function Uncordon(n: NodeState): NodeState {
    if n.Has(Cordoned) then n.Without(Cordoned).(unschedulable := false) else n
  }

  function Unfreeze(n: NodeState): NodeState {
    var m := n.Without(SurgeFor);
    Uncordon(if m.Has(DoNotDisruptOwned) then m.Without(DoNotDisrupt).Without(DoNotDisruptOwned) else m)
  }

  /** The node object the mutators work on in place. Each brings it to the state the
  function of the same name describes and reports whether that changed anything. */
  class Node {
    var annotations: map<Key, string>
    var unschedulable: bool

    function State(): NodeState
      reads this
    {
      NodeState(annotations, unschedulable)
    }

    constructor (s: NodeState)
      ensures State() == s
    {
      annotations, unschedulable := s.annotations, s.unschedulable;
    }

    method SetAnnotation(k: Key, v: string) returns (changed: bool)
      modifies this
      ensures State() == (if v == "" && !old(State()).Has(k) then old(State()) else old(State()).With(k, v))
      ensures changed <==> State() != old(State())
    {
      if (if k in annotations then annotations[k] else "") == v {
        assert k in annotations ==> annotations[k := v] == annotations;
        return false;
      }
      annotations := annotations[k := v];
      assert k in State().annotations && State().annotations[k] == v;
      return true;
    }

    method RemoveAnnotation(k: Key) returns (changed: bool)
      modifies this
      ensures State() == old(State()).Without(k)
      ensures changed <==> old(State()).Has(k)
    {
      if k !in annotations {
        assert annotations - {k} == annotations;
        return false;
      }
      annotations := annotations - {k};
      return true;
    }

    method ApplyFreeze(claim: string) returns (changed: bool)
      requires claim != ""
      modifies this
      ensures State() == Freeze(old(State()), claim)
      ensures changed <==> State() != old(State())
    {
      ghost var before := State();
      changed := false;
      if !OperatorOwnsDoNotDisrupt(State()) {
        var c := SetAnnotation(DoNotDisrupt, "true");
        var d := SetAnnotation(DoNotDisruptOwned, "true");
        changed := c || d;
        assert State().Get(DoNotDisrupt) == "true" && State().Get(DoNotDisruptOwned) == "true";
        assert changed ==> before.Get(DoNotDisrupt) != "true" || before.Get(DoNotDisruptOwned) != "true";
      }
      var e := SetAnnotation(SurgeFor, claim);
      assert State().Get(SurgeFor) == claim;
      assert e ==> before.Get(SurgeFor) != claim;
      changed := e || changed;
    }

    method ApplyCordon() returns (changed: bool)
      modifies this
      ensures State() == Cordon(old(State()))
      ensures changed <==> State() != old(State())
    {
      if unschedulable && Cordoned !in annotations { return false; }
      changed := false;
      if !unschedulable {
        unschedulable := true;
        changed := true;
      }
      var c := SetAnnotation(Cordoned, "true");
      if c { changed := true; }
    }

    method ApplyUncordon() returns (changed: bool)
      modifies this
      ensures State() == Uncordon(old(State()))
      ensures changed <==> State() != old(State())
    {
      if Cordoned !in annotations { return false; }
      var _ := RemoveAnnotation(Cordoned);
      unschedulable := false;
      assert old(State()).Has(Cordoned) && !State().Has(Cordoned);
      return true;
    }

    method ApplyUnfreeze() returns (changed: bool)
      modifies this
      ensures State() == Unfreeze(old(State()))
      ensures changed <==> State() != old(State())
    {
      ghost var before := State();
      changed := RemoveAnnotation(SurgeFor);
      if DoNotDisruptOwned in annotations {
        var c := RemoveAnnotation(DoNotDisrupt);
        var d := RemoveAnnotation(DoNotDisruptOwned);
        changed := c || d || changed;
      }
      ghost var middle := State();
      var e := ApplyUncordon();
      changed := e || changed;
      UnfreezeChanges(before, middle);
    }

    method Mutate(op: Op) returns (changed: bool)
      requires op.DoFreeze? ==> op.claim != ""
      modifies this
      ensures State() == Apply(op, old(State()))
      ensures changed <==> State() != old(State())
    {
      match op
      case DoFreeze(claim) => changed := ApplyFreeze(claim);
      case DoCordon => changed := ApplyCordon();
      case DoUnfreeze => changed := ApplyUnfreeze();
      case DoUncordon => changed := ApplyUncordon();
    }
  }

  /** Unfreezing changes a node exactly when it carries one of the three markers. */
  lemma UnfreezeChanges(n: NodeState, m: NodeState)
    ensures Unfreeze(n) != n <==> n.Has(SurgeFor) || n.Has(DoNotDisruptOwned) || n.Has(Cordoned)
    ensures m == n ==> (Uncordon(m) != m <==> m.Has(Cordoned))
  {
    if n.Has(SurgeFor) { assert !Unfreeze(n).Has(SurgeFor); }
    if n.Has(DoNotDisruptOwned) { assert !Unfreeze(n).Has(DoNotDisruptOwned); }
    if n.Has(Cordoned) { assert !Unfreeze(n).Has(Cordoned); }
    if !n.Has(SurgeFor) { assert n.annotations - {SurgeFor} == n.annotations; }
  }

  // ----- ownership over sequences of mutations -----

  datatype Op = DoFreeze(claim: string) | DoCordon | DoUnfreeze | DoUncordon

  function Apply(op: Op, n: NodeState): NodeState {
    match op
    case DoFreeze(claim) => Freeze(n, claim)
    case DoCordon => Cordon(n)
    case DoUnfreeze => Unfreeze(n)
    case DoUncordon => Uncordon(n)
  }

  function ApplyAll(ops: seq<Op>, n: NodeState): NodeState {
    if ops == [] then n else Apply(ops[|ops| - 1], ApplyAll(ops[..|ops| - 1], n))
  }

  /** Whatever the controller does, an operator's protection stays the operator's ... */
  lemma {:induction false} OperatorProtectionKept(ops: seq<Op>, n: NodeState)
    requires OperatorOwnsDoNotDisrupt(n)
    ensures OperatorOwnsDoNotDisrupt(ApplyAll(ops, n))
  {
    if ops != [] { OperatorProtectionKept(ops[..|ops| - 1], n); }
  }

  /** ... and so does an operator's cordon. */
  lemma {:induction false} OperatorCordonKept(ops: seq<Op>, n: NodeState)
    requires n.unschedulable && !n.Has(Cordoned)
    ensures ApplyAll(ops, n).unschedulable && !ApplyAll(ops, n).Has(Cordoned)
  {
    if ops != [] { OperatorCordonKept(ops[..|ops| - 1], n); }
  }

  /** No other annotation is ever touched. */
  lemma {:induction false} OtherAnnotationsKept(ops: seq<Op>, n: NodeState, name: string)
    ensures ApplyAll(ops, n).Has(Other(name)) == n.Has(Other(name))
    ensures ApplyAll(ops, n).Get(Other(name)) == n.Get(Other(name))
  {
    if ops != [] { OtherAnnotationsKept(ops[..|ops| - 1], n, name); }
  }

  predicate Unmarked(n: NodeState) {
    !n.Has(SurgeFor) && !n.Has(DoNotDisruptOwned) && !n.Has(Cordoned)
  }

  /** `m` is `n` under the controller's markers alone. */
  ghost predicate Dressed(n: NodeState, m: NodeState, frozen: bool) {
    && (forall k :: k !in {SurgeFor, DoNotDisrupt, DoNotDisruptOwned, Cordoned} ==>
          m.Has(k) == n.Has(k) && m.Get(k) == n.Get(k))
    && (m.Has(DoNotDisruptOwned) <==> frozen && !OperatorOwnsDoNotDisrupt(n))
    && (if m.Has(DoNotDisruptOwned) then m.Get(DoNotDisrupt) == "true"
        else m.Has(DoNotDisrupt) == n.Has(DoNotDisrupt) && m.Get(DoNotDisrupt) == n.Get(DoNotDisrupt))
    && (if m.Has(Cordoned) then m.unschedulable && !n.unschedulable else m.unschedulable == n.unschedulable)
  }

  predicate OnlyDressing(ops: seq<Op>) {
    forall op <- ops :: op.DoFreeze? || op.DoCordon?
  }

  predicate SomeFreeze(ops: seq<Op>) {
    exists op <- ops :: op.DoFreeze?
  }

  lemma {:induction false} DressingDresses(ops: seq<Op>, n: NodeState)
    requires Unmarked(n) && OnlyDressing(ops)
    ensures Dressed(n, ApplyAll(ops, n), SomeFreeze(ops))
  {
    if ops != [] {
      var front, last := ops[..|ops| - 1], ops[|ops| - 1];
      assert ops == front + [last];
      DressingDresses(front, n);
      assert SomeFreeze(ops) <==> SomeFreeze(front) || last.DoFreeze?;
      var m := ApplyAll(front, n);
      if last.DoFreeze? {
        FreezeDresses(n, m, SomeFreeze(front), last.claim);
      } else {
        CordonDresses(n, m, SomeFreeze(front));
      }
    }
  }

  lemma FreezeDresses(n: NodeState, m: NodeState, frozen: bool, claim: string)
    requires Unmarked(n) && Dressed(n, m, frozen)
    ensures Dressed(n, Freeze(m, claim), true)
  {
  }

  lemma CordonDresses(n: NodeState, m: NodeState, frozen: bool)
    requires Unmarked(n) && Dressed(n, m, frozen)
    ensures Dressed(n, Cordon(m), frozen)
  {
  }

  /** Rollback after any freezes and cordons restores an unmarked node exactly, if and
  only if it was never frozen or its do-not-disrupt was absent or "true": a
  non-protective value is overwritten by the freeze and not put back. */
  lemma UnfreezeRestoresExactlyWhen(ops: seq<Op>, n: NodeState)
    requires Unmarked(n) && OnlyDressing(ops)
    ensures Unfreeze(ApplyAll(ops, n)) == n <==>
              !SomeFreeze(ops) || !n.Has(DoNotDisrupt) || n.Get(DoNotDisrupt) == "true"
  {
    DressingDresses(ops, n);
    var m := ApplyAll(ops, n);
    UnfreezeUndresses(n, m, SomeFreeze(ops));
  }

  lemma UnfreezeUndresses(n: NodeState, m: NodeState, frozen: bool)
    requires Unmarked(n) && Dressed(n, m, frozen)
    ensures Unfreeze(m) == n <==> !frozen || !n.Has(DoNotDisrupt) || n.Get(DoNotDisrupt) == "true"
  {
    var u := Unfreeze(m);
    assert u.unschedulable == n.unschedulable;
    assert forall k :: k != DoNotDisrupt ==> u.Has(k) == n.Has(k) && u.Get(k) == n.Get(k);
    if m.Has(DoNotDisruptOwned) {
      assert !u.Has(DoNotDisrupt);
    } else {
      assert u.Has(DoNotDisrupt) == n.Has(DoNotDisrupt) && u.Get(DoNotDisrupt) == n.Get(DoNotDisrupt);
    }
    if u.Has(DoNotDisrupt) == n.Has(DoNotDisrupt) {
      SameAnnotations(u, n);
    }
  }

  lemma SameAnnotations(a: NodeState, b: NodeState)
    requires a.unschedulable == b.unschedulable
    requires forall k :: a.Has(k) == b.Has(k) && a.Get(k) == b.Get(k)
    ensures a == b
  {
    forall k
      ensures k in a.annotations <==> k in b.annotations
      ensures k in a.annotations ==> a.annotations[k] == b.annotations[k]
    {
      assert a.Has(k) == b.Has(k) && a.Get(k) == b.Get(k);
    }
    assert a.annotations == b.annotations;
  }
}
