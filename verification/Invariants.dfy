/** What every step of the protocol keeps, in either environment and in the crash
environment. */
module Invariants {
  import opened Clock
  import opened Options
  import opened Notes
  import opened Nodeops
  import opened Protocol

  // ----- what the controller can rely on across steps of others -----

  predicate CellSteady(a: Cell, b: Cell) {
    && a.log != [] && a.log <= b.log
    && (a.gone ==> b.gone)
    && Last(b.log).view.notes == Last(a.log).view.notes
    && Grows(Last(a.log), Last(b.log))
    && (SeenDeleting(a) ==> SeenDeleting(b))
  }

  predicate CellsSteady(s: State, t: State) {
    && s.cells.Keys <= t.cells.Keys
    && (forall c <- s.cells :: CellSteady(s.cells[c], t.cells[c]))
    && (forall c <- t.cells :: c !in s.cells ==> t.cells[c].log != [] && Last(t.cells[c].log).view.notes == NO_CLAIM_NOTES)
  }

  predicate NamesSteady(s: State, t: State) {
    && s.nodes.Keys <= s.usedNodes <= t.usedNodes
    && (forall n <- t.nodes :: n in s.nodes || n !in s.usedNodes)
    && NodeVersions(s, t)
  }

  /** The controller's own annotations are as it left them. */
  predicate Quiet(s: State, t: State) {
    && s.pools != [] && s.pools <= t.pools
    && s.now <= t.now
    && SamePool(Pool(s), Pool(t))
    && t.history == s.history
    && CellsSteady(s, t)
    && NamesSteady(s, t)
  }

  /** So are its markers and placeholders, but for Pods gone or terminating. */
  predicate Steady(s: State, t: State) {
    Quiet(s, t) && NodesSteady(s, t) && PodsSteady(s, t)
  }

  lemma SteadyReflexive(s: State)
    requires Ok(s)
    ensures Steady(s, s) && ByOthers(s, s)
  {
  }

  lemma CellSteadyTransitive(a: Cell, b: Cell, c: Cell)
    requires CellSteady(a, b) && CellSteady(b, c)
    ensures CellSteady(a, c)
  {
  }

  lemma NodesSteadyTransitive(s: State, t: State, u: State)
    requires s.nodes.Keys <= s.usedNodes && NodesSteady(s, t) && NodesSteady(t, u)
    ensures NodesSteady(s, u)
  {
  }

  lemma QuietTransitive(s: State, t: State, u: State)
    requires Quiet(s, t) && Quiet(t, u)
    ensures Quiet(s, u)
  {
    forall c <- s.cells
      ensures CellSteady(s.cells[c], u.cells[c])
    {
      CellSteadyTransitive(s.cells[c], t.cells[c], u.cells[c]);
    }
    NamesSteadyTransitive(s, t, u);
  }

  lemma NamesSteadyTransitive(s: State, t: State, u: State)
    requires NamesSteady(s, t) && NamesSteady(t, u)
    ensures NamesSteady(s, u)
  {
  }

  lemma SteadyTransitive(s: State, t: State, u: State)
    requires Steady(s, t) && Steady(t, u)
    ensures Steady(s, u)
  {
    QuietTransitive(s, t, u);
    NodesSteadyTransitive(s, t, u);
  }

  lemma CellByOthersSteady(a: Cell, b: Cell, c: string, now: Time, used: set<string>)
    requires a.log != [] && (a.seen >= |a.log| ==> a.gone)
    requires CellByOthers(a, b) && CellOk(b, c, now, used)
    ensures CellSteady(a, b)
  {
    var n := |a.log| - 1;
    assert b.log[n] == a.log[n];
    if |a.log| < |b.log| {
      assert Grows(b.log[n], b.log[|b.log| - 1]);
    }
    if SeenDeleting(a) {
      if a.seen < |a.log| {
        assert b.log[a.seen] == a.log[a.seen];
        assert b.seen < |b.log| && a.seen < b.seen ==> Grows(b.log[a.seen], b.log[b.seen]);
      }
    }
  }

  lemma OthersAreSteady(s: State, t: State)
    requires Ok(s) && ByOthers(s, t)
    ensures Steady(s, t)
  {
    forall c <- s.cells
      ensures CellSteady(s.cells[c], t.cells[c])
    {
      CellByOthersSteady(s.cells[c], t.cells[c], c, t.now, t.usedNodes);
    }
    forall c <- t.cells | c !in s.cells
      ensures t.cells[c].log != [] && Last(t.cells[c].log).view.notes == NO_CLAIM_NOTES
    {
      assert CellOk(t.cells[c], c, t.now, t.usedNodes);
      assert Last(t.cells[c].log) in t.cells[c].log;
    }
    PoolByOthers(s, t);
  }

  lemma PoolByOthers(s: State, t: State)
    requires Ok(s) && ByOthers(s, t)
    ensures SamePool(Pool(s), Pool(t))
  {
    if |s.pools| == |t.pools| {
      assert t.pools == t.pools[..|s.pools|];
    }
  }

  // ----- well-formedness is kept -----

  lemma CellAppend(cell: Cell, c: string, now: Time, used: set<string>, o: ClaimObj)
    requires CellOk(cell, c, now, used) && !cell.gone
    requires VersionOk(o, c, now, used) && Grows(Last(cell.log), o)
    requires o.view.notes.phase == Phase.Expired ==> SeenDeleting(cell)
    ensures CellOk(cell.(log := cell.log + [o]), c, now, used)
  {
    var b := cell.(log := cell.log + [o]);
    var n := |cell.log|;
    forall i, j | 0 <= i < j < |b.log|
      ensures Grows(b.log[i], b.log[j])
    {
      if j == n && i < n - 1 { assert Grows(cell.log[i], cell.log[n - 1]); }
    }
  }

  /** The annotations a claim write leaves on a claim created at `createdAt`. */
  lemma WriteKeepsVersion(current: bool, s: State, c: string, a: ClaimAct)
    requires Ok(s) && Live(s, c) && ClaimActAllowed(current, s, c, a)
    ensures var n := ApplyClaim(a, NotesOf(s, c));
            && (n.startedAt.Some? ==> Obj(s, c).view.createdAt <= n.startedAt.value)
            && (n.phase == Phase.Expired ==> SeenDeleting(s.cells[c]))
  {
    assert CellOk(s.cells[c], c, s.now, s.usedNodes);
    assert VersionOk(Obj(s, c), c, s.now, s.usedNodes);
  }

  lemma WithClaimOk(s: State, c: string, o: ClaimObj)
    requires Ok(s) && Live(s, c)
    requires VersionOk(o, c, s.now, s.usedNodes) && Grows(Obj(s, c), o)
    requires o.view.notes.phase == Phase.Expired ==> SeenDeleting(s.cells[c])
    ensures Ok(WithClaim(s, c, o))
  {
    CellAppend(s.cells[c], c, s.now, s.usedNodes, o);
  }

  lemma ClaimWriteOk(current: bool, s: State, c: string, a: ClaimAct)
    requires Ok(s) && Live(s, c) && ClaimActAllowed(current, s, c, a)
    ensures Ok(After(s, ClaimWrite(c, a)))
  {
    var o := Obj(s, c);
    assert VersionOk(o, c, s.now, s.usedNodes) by { assert CellOk(s.cells[c], c, s.now, s.usedNodes); }
    WriteKeepsVersion(current, s, c, a);
    var o' := o.(view := o.view.(notes := ApplyClaim(a, o.view.notes)));
    WithClaimOk(s, c, o');
  }

  lemma ClaimDeleteOk(s: State, c: string)
    requires Ok(s) && Live(s, c)
    ensures Ok(After(s, ClaimDelete(c)))
  {
    var o := Obj(s, c);
    assert CellOk(s.cells[c], c, s.now, s.usedNodes);
    WithClaimOk(s, c, o.(view := o.view.(deleting := true)));
  }

  lemma PoolWriteOk(current: bool, s: State, a: PoolAct)
    requires Ok(s) && PoolActAllowed(current, s, a)
    ensures Ok(After(s, PoolWrite(a)))
  {
    assert Stamped(Pool(s), s.now);
    assert Stamped(ApplyPool(a, Pool(s)), s.now);
  }

  /** Every step leads to a well-formed state. */
  lemma NextKeepsOk(current: bool, s: State, e: Event, t: State)
    requires Ok(s) && Next(current, s, e, t)
    ensures Ok(t)
  {
    match e
    case PoolWrite(a) => PoolWriteOk(current, s, a);
    case ClaimWrite(c, a) => ClaimWriteOk(current, s, c, a);
    case ClaimDelete(c) => ClaimDeleteOk(s, c);
    case _ =>
  }

  // ----- the crash environment -----

  /** Every marker on a node belongs to the anchored claim. */
  predicate NodeAnchored(n: NodeState, active: Option<string>) {
    && (n.Has(SurgeFor) ==> active == Some(n.Get(SurgeFor)))
    && (n.Has(DoNotDisruptOwned) || n.Has(Cordoned) ==> n.Has(SurgeFor))
  }

  predicate MarkersAnchored(s: State)
    requires s.pools != []
  {
    forall n <- s.nodes :: NodeAnchored(s.nodes[n].state, Pool(s).active)
  }

  /** Every placeholder not yet terminating is the anchored claim's, which has a node. */
  predicate PodsAnchored(s: State)
    requires Ok(s)
  {
    forall c <- s.pods :: s.pods[c].terminating || (Pool(s).active == Some(c) && Obj(s, c).node.Some?)
  }

  /** Failed implies already cleaned. */
  predicate FailedIsClean(s: State)
    requires Ok(s)
  {
    Pool(s).active.Some? && Live(s, Pool(s).active.value) && NotesOf(s, Pool(s).active.value).phase == Failed ==> Clean(s)
  }

  /** The rotation's fields exist only while the anchor does. */
  predicate FieldsScoped(s: State)
    requires Ok(s)
  {
    Pool(s).active.None? ==> Pool(s) == Cleared(Pool(s))
  }

  /** A claim drains only once the pool says so, and either surge-less or with a ready
  surge held on a frozen host in this attempt. */
  predicate DrainMirrored(s: State)
    requires Ok(s)
  {
    Pool(s).active.Some? && Live(s, Pool(s).active.value) && NotesOf(s, Pool(s).active.value).phase == Draining ==>
      Pool(s).draining && (Pool(s).fallback || s.history.held.Some?)
  }

  predicate Inv(s: State)
    requires Ok(s)
  {
    MarkersAnchored(s) && PodsAnchored(s) && FailedIsClean(s) && FieldsScoped(s) && DrainMirrored(s)
  }

  lemma UnanchoredIsClean(s: State)
    requires Ok(s) && Inv(s) && Pool(s).active.None?
    ensures Clean(s)
  {
  }

  lemma SteadyKeepsClean(s: State, t: State)
    requires Steady(s, t) && Clean(s)
    ensures Clean(t)
  {
  }

  lemma SteadyKeepsInv(s: State, t: State)
    requires Ok(s) && Ok(t) && Inv(s) && Steady(s, t)
    ensures Inv(t)
  {
    SteadyMarkers(s, t);
    if Clean(s) { SteadyKeepsClean(s, t); }
    var a := Pool(s).active;
    assert a.Some? ==> CellSteady(s.cells[a.value], t.cells[a.value]);
    SteadyPods(s, t);
  }

  lemma SteadyMarkers(s: State, t: State)
    requires Ok(s) && MarkersAnchored(s) && Steady(s, t)
    ensures MarkersAnchored(t)
  {
  }

  lemma SteadyPods(s: State, t: State)
    requires Ok(s) && Ok(t) && PodsAnchored(s) && Steady(s, t)
    ensures PodsAnchored(t)
  {
    forall c <- t.pods | !t.pods[c].terminating
      ensures Pool(t).active == Some(c) && Obj(t, c).node.Some?
    {
      assert !s.pods[c].terminating;
      assert CellSteady(s.cells[c], t.cells[c]);
    }
  }

  lemma ReleaseKeepsInv(s: State, t: State)
    requires Ok(s) && Ok(t) && Clean(s)
    requires t.nodes == s.nodes && t.pods == s.pods
    requires Pool(t).active.None? && Pool(t) == Cleared(Pool(t))
    ensures Inv(t)
  {
    assert Clean(t);
  }

  lemma AnchorKeepsInv(s: State, c: string, why: Start, t: State)
    requires Ok(s) && Inv(s) && PoolActAllowed(true, s, Anchor(c, why)) && t == After(s, PoolWrite(Anchor(c, why))) && Ok(t)
    ensures Inv(t)
  {
    UnanchoredIsClean(s);
    assert Clean(t);
  }

  /** A pool write that keeps the anchor and adds to the rest. */
  lemma SameAnchorKeepsInv(s: State, t: State)
    requires Ok(s) && Inv(s) && Ok(t)
    requires t.nodes == s.nodes && t.pods == s.pods && t.cells == s.cells && t.history.held == s.history.held
    requires Pool(t).active == Pool(s).active
    requires (Pool(s).draining ==> Pool(t).draining) && (Pool(s).fallback ==> Pool(t).fallback)
    requires FieldsScoped(t)
    ensures Inv(t)
  {
    assert Clean(s) ==> Clean(t);
  }

  lemma PoolWriteKeepsInv(s: State, a: PoolAct, t: State)
    requires Ok(s) && Inv(s) && PoolActAllowed(true, s, a) && t == After(s, PoolWrite(a)) && Ok(t)
    ensures Inv(t)
  {
    assert Pool(t) == ApplyPool(a, Pool(s));
    match a
    case Release(_, _) => ReleaseKeepsInv(s, t);
    case Anchor(c, why) => AnchorKeepsInv(s, c, why, t);
    case _ => SameAnchorKeepsInv(s, t);
  }

  lemma ClaimWriteKeepsInv(s: State, c: string, a: ClaimAct, t: State)
    requires Ok(s) && Inv(s) && Live(s, c) && ClaimActAllowed(true, s, c, a) && t == After(s, ClaimWrite(c, a)) && Ok(t)
    ensures Inv(t)
  {
    assert Pool(t) == Pool(s) && t.nodes == s.nodes && t.pods == s.pods;
    assert Clean(s) ==> Clean(t);
  }

  lemma ClaimDeleteKeepsInv(s: State, c: string, t: State)
    requires Ok(s) && Inv(s) && Live(s, c) && t == After(s, ClaimDelete(c)) && Ok(t)
    ensures Inv(t)
  {
    assert Pool(t) == Pool(s) && t.nodes == s.nodes && t.pods == s.pods;
    assert Clean(s) ==> Clean(t);
  }

  lemma NodeWriteKeepsInv(s: State, n: string, op: Op, t: State)
    requires Ok(s) && Inv(s) && Allowed(true, s, NodeWrite(n, op)) && t == After(s, NodeWrite(n, op)) && Ok(t)
    ensures Inv(t)
  {
    var a := Pool(s).active;
    assert NodeAnchored(s.nodes[n].state, a);
    OpKeepsAnchored(s.nodes[n].state, op, a);
    if Clean(s) && !op.DoFreeze? {
      OpKeepsUnmarked(s.nodes[n].state, op);
    }
  }

  lemma OpKeepsAnchored(n: NodeState, op: Op, active: Option<string>)
    requires NodeAnchored(n, active) && !op.DoUncordon?
    requires op.DoFreeze? ==> active == Some(op.claim)
    requires op.DoCordon? ==> n.Has(SurgeFor)
    ensures NodeAnchored(Apply(op, n), active)
  {
  }

  lemma OpKeepsUnmarked(n: NodeState, op: Op)
    requires Unmarked(n) && op.DoUnfreeze?
    ensures Unmarked(Apply(op, n))
  {
  }

  lemma PodWriteKeepsInv(s: State, e: Event, t: State)
    requires e.PodCreate? || e.PodDelete?
    requires Ok(s) && Inv(s) && Allowed(true, s, e) && t == After(s, e) && Ok(t)
    ensures Inv(t)
  {
  }

  /** Observing and announcing change no object. */
  lemma ObservingKeepsInv(s: State, t: State)
    requires Ok(s) && Inv(s) && Ok(t) && t == s.(history := t.history)
    requires s.history.held.Some? ==> t.history.held.Some?
    ensures Inv(t)
  {
    assert Clean(s) ==> Clean(t);
  }

  /** Every step of the crash environment keeps the invariant. */
  lemma NextKeepsInv(s: State, e: Event, t: State)
    requires Ok(s) && Inv(s) && Next(true, s, e, t)
    ensures Ok(t) && Inv(t)
  {
    NextKeepsOk(true, s, e, t);
    match e
    case Others =>
      OthersAreSteady(s, t);
      SteadyKeepsInv(s, t);
    case PoolWrite(a) => PoolWriteKeepsInv(s, a, t);
    case ClaimWrite(c, a) => ClaimWriteKeepsInv(s, c, a, t);
    case ClaimDelete(c) => ClaimDeleteKeepsInv(s, c, t);
    case NodeWrite(n, op) => NodeWriteKeepsInv(s, n, op, t);
    case PodCreate(_) => PodWriteKeepsInv(s, e, t);
    case PodDelete(_) => PodWriteKeepsInv(s, e, t);
    case _ => ObservingKeepsInv(s, t);
  }
}
