/** The startup sweep: what it repairs, what it leaves, and that after a crash it finds
nothing but what governance loss left behind (internal/controller/sweep.go). */
module Sweep {
  import opened Clock
  import opened Options
  import opened Notes
  import opened Nodeops
  import opened Protocol
  import opened Invariants

  // ----- what becomes of each object -----

  /** A pool with a rotation state and no anchor loses three of the five stray fields. */
  function SweptPool(p: PoolNotes): PoolNotes {
    if p.active.None? && p.draining then p.(draining := false, drainingAt := None, fallback := false) else p
  }

  /** A placeholder stays when it bears no claim, or an anchored one. */
  predicate KeptPod(claim: string, anchored: set<string>) {
    claim == "" || claim in anchored
  }

  /** Markers of an anchored claim stay; other frozen nodes are unfrozen, and a cordon
  alone is lifted. */
  function SweptNode(n: NodeState, anchored: set<string>): NodeState {
    if n.Has(SurgeFor) then if n.Get(SurgeFor) in anchored then n else Unfreeze(n)
    else Uncordon(n)
  }

  /** A claim in flight that no pool is anchored on is failed, its retries as they were. */
  function SweptClaim(c: string, n: ClaimNotes, anchored: set<string>, now: Time): ClaimNotes {
    if n.phase in {Pending, Draining} && c !in anchored then ClaimNotes(Phase.Failed, None, Some(now), n.retry, None) else n
  }

  function Anchors(pools: map<string, PoolNotes>): set<string> {
    set p | p in pools && pools[p].active.Some? :: pools[p].active.value
  }

  function SweptPools(pools: map<string, PoolNotes>): map<string, PoolNotes> {
    map p | p in pools :: SweptPool(pools[p])
  }

  function SweptPods(pods: map<string, string>, anchored: set<string>): map<string, string> {
    map p | p in pods && KeptPod(pods[p], anchored) :: pods[p]
  }

  function SweptNodes(nodes: map<string, NodeState>, anchored: set<string>): map<string, NodeState> {
    map n | n in nodes :: SweptNode(nodes[n], anchored)
  }

  function SweptClaims(claims: map<string, ClaimNotes>, anchored: set<string>, now: Time): map<string, ClaimNotes> {
    map c | c in claims :: SweptClaim(c, claims[c], anchored, now)
  }

  /** The objects the sweep lists, with placeholder Pods by the claim on their label. It
  runs before any reconcile, one object at a time. */
  class Sweeper {
    var pools: map<string, PoolNotes>
    var pods: map<string, string>
    var nodes: map<string, NodeState>
    var claims: map<string, ClaimNotes>
    /** The claims announced as failed. */
    var failed: set<string>

    constructor (pools: map<string, PoolNotes>, pods: map<string, string>, nodes: map<string, NodeState>, claims: map<string, ClaimNotes>)
      ensures this.pools == pools && this.pods == pods && this.nodes == nodes && this.claims == claims && failed == {}
    {
      this.pools, this.pods, this.nodes, this.claims, failed := pools, pods, nodes, claims, {};
    }

    method AnchoredClaims() returns (anchored: set<string>)
      modifies this`pools
      ensures anchored == Anchors(old(pools)) && pools == SweptPools(old(pools))
    {
      anchored := {};
      var left := pools.Keys;
      while left != {}
        invariant left <= pools.Keys && pools.Keys == old(pools).Keys
        invariant anchored == set p | p in old(pools) && p !in left && old(pools)[p].active.Some? :: old(pools)[p].active.value
        invariant forall p <- pools :: pools[p] == if p in left then old(pools)[p] else SweptPool(old(pools)[p])
        decreases |left|
      {
        var p :| p in left;
        var notes := pools[p];
        if notes.active.Some? {
          anchored := anchored + {notes.active.value};
        } else if notes.draining {
          pools := pools[p := notes.(draining := false, drainingAt := None, fallback := false)];
        }
        left := left - {p};
      }
    }

    method SweepPlaceholders(anchored: set<string>)
      modifies this`pods
      ensures pods == SweptPods(old(pods), anchored)
    {
      var left := pods.Keys;
      while left != {}
        invariant left <= old(pods).Keys
        invariant forall p :: p in pods <==> p in old(pods) && (p in left || KeptPod(old(pods)[p], anchored))
        invariant forall p <- pods :: pods[p] == old(pods)[p]
        decreases |left|
      {
        var p :| p in left;
        var claim := pods[p];
        if claim != "" && claim !in anchored {
          pods := pods - {p};
        }
        left := left - {p};
      }
    }

    method SweepNodes(anchored: set<string>)
      modifies this`nodes
      ensures nodes == SweptNodes(old(nodes), anchored)
    {
      var left := nodes.Keys;
      while left != {}
        invariant left <= nodes.Keys && nodes.Keys == old(nodes).Keys
        invariant forall n <- nodes :: nodes[n] == if n in left then old(nodes)[n] else SweptNode(old(nodes)[n], anchored)
        decreases |left|
      {
        hide Unfreeze, Uncordon;
        var n :| n in left;
        left := left - {n};
        var state := nodes[n];
        if state.Has(SurgeFor) && state.Get(SurgeFor) in anchored { continue; }
        if !state.Has(SurgeFor) && !state.Has(Cordoned) {
          NothingToUncordon(state);
          continue;
        }
        var node := new Node(state);
        if state.Has(SurgeFor) {
          var _ := node.ApplyUnfreeze();
        } else {
          var _ := node.ApplyUncordon();
        }
        nodes := nodes[n := node.State()];
      }
    }

    method SweepClaims(anchored: set<string>, now: Time)
      modifies this`claims, this`failed
      ensures claims == SweptClaims(old(claims), anchored, now)
      ensures failed == old(failed) + set c | c in old(claims) && claims[c] != old(claims)[c]
    {
      var left := claims.Keys;
      while left != {}
        invariant left <= claims.Keys && claims.Keys == old(claims).Keys
        invariant forall c <- claims :: claims[c] == if c in left then old(claims)[c] else SweptClaim(c, old(claims)[c], anchored, now)
        invariant failed == old(failed) + set c | c in old(claims) && c !in left && SweptClaim(c, old(claims)[c], anchored, now) != old(claims)[c]
        decreases |left|
      {
        var c :| c in left;
        var n := claims[c];
        if n.phase in {Pending, Draining} && c !in anchored {
          claims := claims[c := ClaimNotes(Phase.Failed, None, Some(now), n.retry, None)];
          failed := failed + {c};
        }
        left := left - {c};
      }
    }

    method Sweep(now: Time)
      modifies this
      ensures var anchored := Anchors(old(pools));
              && pools == SweptPools(old(pools)) && pods == SweptPods(old(pods), anchored)
              && nodes == SweptNodes(old(nodes), anchored) && claims == SweptClaims(old(claims), anchored, now)
    {
      var anchored := AnchoredClaims();
      SweepPlaceholders(anchored);
      SweepNodes(anchored);
      SweepClaims(anchored, now);
    }
  }

  lemma NothingToUncordon(n: NodeState)
    requires !n.Has(Cordoned)
    ensures Uncordon(n) == n
  {
  }

  // ----- what the sweep guarantees -----

  /** It never touches what an anchor references, and a second sweep does nothing. */
  lemma SweepIsIdempotent(pools: map<string, PoolNotes>, pods: map<string, string>, nodes: map<string, NodeState>,
                          claims: map<string, ClaimNotes>, now: Time, later: Time)
    ensures var anchored := Anchors(pools);
            && Anchors(SweptPools(pools)) == anchored
            && SweptPools(SweptPools(pools)) == SweptPools(pools)
            && SweptPods(SweptPods(pods, anchored), anchored) == SweptPods(pods, anchored)
            && SweptNodes(SweptNodes(nodes, anchored), anchored) == SweptNodes(nodes, anchored)
            && SweptClaims(SweptClaims(claims, anchored, now), anchored, later) == SweptClaims(claims, anchored, now)
  {
    var anchored := Anchors(pools);
    assert forall p <- pools :: SweptPools(pools)[p].active == pools[p].active;
    forall n <- nodes
      ensures SweptNode(SweptNode(nodes[n], anchored), anchored) == SweptNode(nodes[n], anchored)
    {
      SweptTwice(nodes[n], anchored);
    }
    hide SweptNode;
  }

  lemma SweptTwice(n: NodeState, anchored: set<string>)
    ensures SweptNode(SweptNode(n, anchored), anchored) == SweptNode(n, anchored)
  {
    var m := SweptNode(n, anchored);
    if n.Has(SurgeFor) && n.Get(SurgeFor) !in anchored {
      assert !m.Has(SurgeFor) && !m.Has(Cordoned);
    }
    if !n.Has(SurgeFor) { assert !m.Has(SurgeFor) && !m.Has(Cordoned); }
  }

  /** Of a node no anchor references, nothing of the controller's is left exactly unless
  it bore an owned protection without being marked for a claim. */
  lemma SweptClean(n: NodeState, anchored: set<string>)
    requires n.Has(SurgeFor) ==> n.Get(SurgeFor) !in anchored
    ensures Unmarked(SweptNode(n, anchored)) <==> n.Has(SurgeFor) || !n.Has(DoNotDisruptOwned)
  {
  }

  /** An operator's protection and cordon survive the sweep. */
  lemma SweepSparesTheOperator(n: NodeState, anchored: set<string>)
    ensures OperatorOwnsDoNotDisrupt(n) ==> OperatorOwnsDoNotDisrupt(SweptNode(n, anchored))
    ensures n.unschedulable && !n.Has(Cordoned) ==> SweptNode(n, anchored).unschedulable && !SweptNode(n, anchored).Has(Cordoned)
  {
  }

  /** A pool without an anchor comes out with no field of a rotation exactly when it has
  no stray surge wait or path, and no stray drain start or mode without the state. */
  lemma StrayFieldsGoneExactlyWhen(p: PoolNotes)
    requires p.active.None?
    ensures SweptPool(p) == Cleared(p) <==>
              && p.surgeWait.None? && p.surgePath.None?
              && (p.draining || (p.drainingAt.None? && !p.fallback))
  {
  }

  /** In the crash environment no stop leaves the sweep anything on the pool, on nodes,
  or among placeholders not already going: only a claim in flight without an anchor. */
  lemma SweepFindsNothing(s: State)
    requires Ok(s) && Inv(s)
    ensures var anchored := if Pool(s).active.Some? then {Pool(s).active.value} else {};
            && SweptPool(Pool(s)) == Pool(s)
            && (forall n <- s.nodes :: SweptNode(s.nodes[n].state, anchored) == s.nodes[n].state)
            && (forall c <- s.pods :: KeptPod(c, anchored) || s.pods[c].terminating)
  {
    var anchored := if Pool(s).active.Some? then {Pool(s).active.value} else {};
    forall n <- s.nodes
      ensures SweptNode(s.nodes[n].state, anchored) == s.nodes[n].state
    {
      assert NodeAnchored(s.nodes[n].state, Pool(s).active);
      if !s.nodes[n].state.Has(SurgeFor) { NothingToUncordon(s.nodes[n].state); }
    }
  }
}
