/** The controller's client wrappers: optimistic-concurrency retry loops over the API
server (internal/controller/rotation_controller.go, the patch functions). */
module Client {
  import opened Clock
  import opened Options
  import opened Notes
  import opened Selection
  import opened Nodeops
  import opened Protocol
  import opened Invariants
  import opened Server

  /** The attempts retry.DefaultRetry makes before it gives a conflict back. */
  const MAX_ATTEMPTS: nat := 5

  /** A conditional edit: what to write on these annotations at this instant, or nothing. */
  type PoolEdit = (PoolNotes, Time) -> Option<PoolAct>
  type ClaimEdit = (ClaimNotes, Time) -> Option<ClaimAct>

  /** Whatever others do meanwhile, what the edit then writes is in order. */
  ghost predicate MayEditPool(current: bool, s: State, f: PoolEdit) {
    forall s1, at ::
      Steady(s, s1) && Good(current, s1) && at <= s1.now && Stamped(Pool(s1), at) && f(Pool(s1), at).Some? ==>
        PoolActAllowed(current, s1, f(Pool(s1), at).value)
  }

  ghost predicate MayEditClaim(current: bool, s: State, c: string, f: ClaimEdit) {
    forall s1, at ::
      Steady(s, s1) && Good(current, s1) && Live(s1, c) && Obj(s1, c).view.createdAt <= at <= s1.now
      && f(NotesOf(s1, c), at).Some? ==>
        ClaimActAllowed(current, s1, c, f(NotesOf(s1, c), at).value)
  }

  /** What became of a conditional claim write. */
  datatype ClaimWrote = Gone | Vetoed | Wrote(act: ClaimAct)

  /** What became of one attempt to mutate a node. */
  datatype NodeTry = Landed | Nothing | TryAgain | Broken

  /** What a claim write changes, and what it leaves alone. */
  predicate ClaimWritten(s: State, t: State, c: string, a: ClaimAct) {
    && c in s.cells && s.cells[c].log != [] && c in t.cells && t.cells[c].log != []
    && t.pools == s.pools && t.nodes == s.nodes && t.usedNodes == s.usedNodes && t.pods == s.pods && t.now == s.now
    && NotesOf(t, c) == ApplyClaim(a, NotesOf(s, c))
    && Obj(t, c).(view := Obj(t, c).view.(notes := NotesOf(s, c))) == Obj(s, c)
    && t.cells[c].gone == s.cells[c].gone
    && (SeenDeleting(s.cells[c]) ==> SeenDeleting(t.cells[c]))
    && t.history.owed == ClaimOwes(a, c) && t.history.signals == s.history.signals
    && (!a.Reenter? ==> t.history.held == s.history.held && t.history.seeing == s.history.seeing)
  }

  lemma ClaimWriteEffect(s: State, c: string, a: ClaimAct)
    requires Ok(s) && Live(s, c)
    ensures ClaimWritten(s, After(s, ClaimWrite(c, a)), c, a)
  {
    assert CellOk(s.cells[c], c, s.now, s.usedNodes);
  }

  /** What a pool write changes, and what it leaves alone. */
  predicate PoolWritten(s: State, t: State, a: PoolAct) {
    && s.pools != [] && t.pools != []
    && Pool(t) == ApplyPool(a, Pool(s))
    && t.cells == s.cells && t.nodes == s.nodes && t.usedNodes == s.usedNodes && t.pods == s.pods && t.now == s.now
    && t.history.owed == PoolOwes(a, Pool(s)) && t.history.signals == s.history.signals
    && (!a.Anchor? ==> t.history.held == s.history.held && t.history.seeing == s.history.seeing)
  }

  lemma PoolWriteEffect(s: State, a: PoolAct)
    requires Ok(s)
    ensures PoolWritten(s, After(s, PoolWrite(a)), a)
  {
  }

  /** What a node looks like once the mutation has nothing left to do. */
  predicate Done(op: Op, n: NodeState) {
    match op
    case DoFreeze(claim) => n.Has(SurgeFor) && n.Get(SurgeFor) == claim
    case DoCordon => true
    case DoUnfreeze => Unmarked(n)
    case DoUncordon => !n.Has(Cordoned)
  }

  /** No node is marked but as before. */
  predicate Eased(s: State, t: State) {
    forall n <- t.nodes :: !Unmarked(t.nodes[n].state) ==> n in s.nodes && SameMarkers(s.nodes[n].state, t.nodes[n].state)
  }

  /** No node is left marked for the claim. */
  predicate Unmarks(s: State, c: string) {
    forall n <- s.nodes :: !(s.nodes[n].state.Has(SurgeFor) && s.nodes[n].state.Get(SurgeFor) == c)
  }

  lemma EditPermits(current: bool, s0: State, s: State, f: PoolEdit, version: nat, at: Time)
    requires MayEditPool(current, s0, f) && Steady(s0, s) && Good(current, s)
    requires version < |s.pools| && at == s.now && Stamped(s.pools[version], at)
    requires f(s.pools[version], at).Some?
    ensures PermitsPool(current, s, version, f(s.pools[version], at).value)
  {
    forall s1 | Steady(s, s1) && Good(current, s1) && |s1.pools| == version + 1
      ensures PoolActAllowed(current, s1, f(s.pools[version], at).value)
    {
      SteadyTransitive(s0, s, s1);
      assert Pool(s1) == s.pools[version];
    }
  }

  lemma ClaimEditPermits(current: bool, s0: State, s: State, c: string, f: ClaimEdit, o: ClaimObj, version: nat)
    requires MayEditClaim(current, s0, c, f) && Steady(s0, s) && Good(current, s)
    requires Shown(s, c, o, version) && f(o.view.notes, s.now).Some?
    ensures PermitsClaim(current, s, c, version, f(o.view.notes, s.now).value)
  {
    hide Steady, Ok, Inv, ClaimActAllowed;
    forall s1 | Steady(s, s1) && Good(current, s1) && Live(s1, c) && |s1.cells[c].log| == version + 1
      ensures ClaimActAllowed(current, s1, c, f(o.view.notes, s.now).value)
    {
      SteadyTransitive(s0, s, s1);
      SteadyPool(s, s1);
      SteadyClaim(s, s1, c);
      assert Obj(s1, c) == o;
      assert f(NotesOf(s1, c), s.now) == f(o.view.notes, s.now);
    }
  }

  lemma PermitsLater(current: bool, s: State, t: State, e: Event)
    requires Permits(current, s, e) && Steady(s, t)
    ensures Permits(current, t, e)
  {
    hide Steady, Ok, Inv, Possible, Allowed;
    forall s1 | Steady(t, s1) && Good(current, s1) && Possible(s1, e)
      ensures Allowed(current, s1, e)
    {
      SteadyTransitive(s, t, s1);
    }
  }

  /** Marking a node touches nothing else. */
  lemma MarkingIsQuiet(s: State, n: string, op: Op)
    requires Ok(s) && n in s.nodes
    ensures var t := After(s, NodeWrite(n, op));
            && Quiet(s, t) && PodsSteady(s, t) && t.pools == s.pools
            && t.nodes.Keys == s.nodes.Keys && Done(op, t.nodes[n].state)
            && forall m <- t.nodes :: m != n ==> t.nodes[m] == s.nodes[m]
  {
    var t := After(s, NodeWrite(n, op));
    assert CellsSteady(s, t) by { SteadyReflexive(s); }
  }

  lemma DoneIfUnchanged(n: NodeState, op: Op)
    requires Apply(op, n) == n
    ensures Done(op, n)
  {
    assert Done(op, Apply(op, n));
  }

  lemma GoodIsOk(current: bool, s: State)
    requires Good(current, s)
    ensures Ok(s)
  {
  }

  lemma QuietThenQuiet(s: State, t: State, u: State)
    requires Quiet(s, t) && PodsSteady(s, t) && Quiet(t, u) && PodsSteady(t, u)
    ensures Quiet(s, u) && PodsSteady(s, u)
  {
    QuietTransitive(s, t, u);
  }

  lemma QuietPool(s: State, t: State)
    requires Quiet(s, t)
    ensures s.pools != [] && s.pools <= t.pools && SamePool(Pool(s), Pool(t)) && t.history == s.history && s.now <= t.now
  {
  }

  lemma EasedThenEased(s: State, t: State, u: State)
    requires Eased(s, t) && Eased(t, u)
    ensures Eased(s, u)
  {
  }

  lemma SteadyIsEased(s: State, t: State)
    requires Steady(s, t)
    ensures Eased(s, t) && Quiet(s, t) && PodsSteady(s, t)
    ensures forall m <- t.nodes :: m in s.nodes ==> SameMarkers(s.nodes[m].state, t.nodes[m].state)
  {
  }

  lemma UnfreezingEases(s: State, n: string)
    requires Ok(s) && n in s.nodes
    ensures Eased(s, After(s, NodeWrite(n, DoUnfreeze)))
  {
  }

  /** A freeze is in order while the pool works on the claim. */
  lemma FreezePermitted(current: bool, s: State, n: string, c: string)
    requires Good(current, s) && (current ==> Working(s, c))
    ensures Permits(current, s, NodeWrite(n, DoFreeze(c)))
  {
    hide Ok, Inv;
    forall s1 | Steady(s, s1) && Good(current, s1) && Possible(s1, NodeWrite(n, DoFreeze(c)))
      ensures Allowed(current, s1, NodeWrite(n, DoFreeze(c)))
    {
      if current { WorkingLater(s, s1, c); }
    }
  }

  lemma WorkingLater(s: State, t: State, c: string)
    requires Ok(s) && Ok(t) && Working(s, c) && Steady(s, t)
    ensures Working(t, c)
  {
    SteadyClaim(s, t, c);
  }

  /** A cordon is in order on a node frozen for the rotation. */
  lemma CordonPermitted(current: bool, s: State, n: string, c: string)
    requires current ==> FrozenFor(s, n, c)
    ensures Permits(current, s, NodeWrite(n, DoCordon))
  {
    hide Ok, Inv, CellsSteady, PodsSteady;
    forall s1 | Steady(s, s1) && Good(current, s1) && Possible(s1, NodeWrite(n, DoCordon))
      ensures Allowed(current, s1, NodeWrite(n, DoCordon))
    {
    }
  }

  lemma UnfreezePermitted(current: bool, s: State, n: string)
    ensures Permits(current, s, NodeWrite(n, DoUnfreeze))
  {
    hide Ok, Inv, Steady;
  }

  /** What a patched node leaves of the state before it. */
  lemma NodePatched(s: State, before: State, t: State, n: string, op: Op, wrote: bool)
    requires Ok(before) && Steady(s, before)
    requires if wrote then n in before.nodes && t == After(before, NodeWrite(n, op)) else t == before
    ensures Quiet(s, t) && PodsSteady(s, t)
    ensures op.DoUnfreeze? ==> Eased(s, t)
    ensures op.DoFreeze? && n in s.usedNodes && (n in t.nodes ==> Done(op, t.nodes[n].state)) ==> FrozenFor(t, n, op.claim)
  {
    SteadyIsEased(s, before);
    if wrote {
      MarkingIsQuiet(before, n, op);
      QuietThenQuiet(s, before, t);
      if op.DoUnfreeze? {
        UnfreezingEases(before, n);
        EasedThenEased(s, before, t);
      }
    }
  }

  /** Every node marked for the claim is one of these. */
  predicate MarkedWithin(s: State, c: string, names: set<string>) {
    forall n <- s.nodes :: s.nodes[n].state.Has(SurgeFor) && s.nodes[n].state.Get(SurgeFor) == c ==> n in names
  }

  lemma EasedWithin(s: State, t: State, c: string, names: set<string>, n: string)
    requires Eased(s, t) && MarkedWithin(s, c, names)
    requires n in t.nodes ==> Unmarked(t.nodes[n].state)
    ensures MarkedWithin(t, c, names - {n})
  {
  }

  /** What a list entry tells: which claim it is, that an entry not deleting is not of an
  expired claim, and in the crash environment what the claim says. */
  predicate Listed(current: bool, s: State, v: Claim) {
    && v.name in s.cells && s.cells[v.name].log != []
    && (!v.deleting && Live(s, v.name) ==> NotesOf(s, v.name).phase != Phase.Expired)
    && (current && Live(s, v.name) ==> NotesOf(s, v.name) == v.notes)
  }

  predicate AllListed(current: bool, s: State, views: seq<Claim>) {
    forall v <- views :: Listed(current, s, v)
  }

  lemma ListedKept(current: bool, s: State, t: State, v: Claim)
    requires Listed(current, s, v) && CellsSteady(s, t)
    ensures Listed(current, t, v)
  {
    assert CellSteady(s.cells[v.name], t.cells[v.name]);
  }

  lemma ListedLater(current: bool, s: State, t: State, views: seq<Claim>)
    requires AllListed(current, s, views) && Steady(s, t)
    ensures AllListed(current, t, views)
  {
    hide Listed;
    forall v <- views
      ensures Listed(current, t, v)
    {
      ListedKept(current, s, t, v);
    }
  }

  lemma ListedNow(current: bool, s: State, c: string, o: ClaimObj, version: nat)
    requires Shown(s, c, o, version)
    requires current ==> Live(s, c) && version == |s.cells[c].log| - 1
    ensures Listed(current, s, o.view) && o.view.name == c
  {
  }

  lemma AnchorEffect(s: State, before: State, t: State, current: bool, c: string, why: Start)
    requires Good(current, before) && Steady(s, before) && t == After(before, PoolWrite(Anchor(c, why)))
    ensures t.pools != [] && Pool(t).active == Some(c) && t.history.owed.None? && CellsSteady(s, t)
  {
    hide Ok, Inv;
  }

  class PatchClient {
    const server: ApiServer
    /** The NodePool a pass was called with, refreshed by its own patches. */
    var pool: PoolNotes
    var version: nat

    ghost predicate Valid()
      reads this, server
    {
      && server.Valid()
      && version < |server.s.pools| && server.s.pools[version] == pool
      && (server.current ==> SamePool(pool, Pool(server.s)))
    }

    /** Nothing announced is still outstanding. */
    ghost predicate Ready()
      reads this, server
    {
      Valid() && server.s.history.owed.None?
    }

    constructor (server: ApiServer)
      requires server.Valid()
      ensures Valid() && this.server == server
    {
      this.server := server;
      pool, version := Pool(server.s), |server.s.pools| - 1;
    }

    /** Reads the pool a pass starts from. */
    method GetPool() returns (ok: bool)
      requires Ready()
      modifies this, server
      ensures Ready() && Steady(old(server.s), server.s)
      ensures server.errors >= old(server.errors) && (!ok ==> server.errors > old(server.errors))
    {
      ok, pool, version := server.GetPool();
    }

    method PatchPoolIf(f: PoolEdit) returns (ok: bool, act: Option<PoolAct>, prior: PoolNotes, ghost before: State)
      requires Ready() && MayEditPool(server.current, server.s, f)
      modifies this, server
      ensures Valid()
      ensures act.Some? ==>
                && ok && Steady(old(server.s), before) && Good(server.current, before)
                && PoolActAllowed(server.current, before, act.value)
                && server.s == After(before, PoolWrite(act.value)) && PoolWritten(before, server.s, act.value)
                && prior == Pool(before) && (exists at :: f(prior, at) == act) && pool == Pool(server.s)
      ensures act.None? ==> Steady(old(server.s), server.s)
      ensures ok && act.None? ==> exists at :: f(pool, at) == None
      ensures server.errors >= old(server.errors) && (!ok ==> server.errors > old(server.errors))
    {
      hide Steady, Good, MayEditPool, PermitsPool, PoolActAllowed, ApiServer.Valid, After, PoolWritten, Inv, Next, Allowed, ByOthers;
      ok, act, prior, before := false, None, pool, server.s;
      var attempts := 0;
      server.GoodNow();
      NothingHappened(server.current, server.s);
      while attempts < MAX_ATTEMPTS
        invariant Ready() && Steady(old(server.s), server.s)
        invariant server.errors >= old(server.errors) + attempts
        decreases MAX_ATTEMPTS - attempts
      {
        attempts := attempts + 1;
        ghost var s1 := server.s;
        var got, notes, v := server.GetPool();
        SteadyTransitive(old(server.s), s1, server.s);
        SteadyPool(s1, server.s);
        if !got { return false, None, prior, before; }
        var at := server.s.now;
        var edit := f(notes, at);
        if edit.None? {
          pool, version := notes, v;
          return true, None, notes, before;
        }
        EditPermits(server.current, old(server.s), server.s, f, v, at);
        ghost var s2 := server.s;
        var r;
        r, before := server.UpdatePool(v, edit.value);
        if r == Applied {
          SteadyTransitive(old(server.s), s2, before);
          SteadyPool(s2, before);
          GoodIsOk(server.current, before);
          PoolWriteEffect(before, edit.value);
          pool, version := Pool(server.s), |server.s.pools| - 1;
          return true, edit, notes, before;
        }
        SteadyTransitive(old(server.s), s2, server.s);
        SteadyPool(s2, server.s);
        if r == Fault { return false, None, prior, before; }
      }
    }

    /** Claim annotations, in the same way; a vanished claim is no error. */
    method PatchClaimIf(c: string, f: ClaimEdit) returns (ok: bool, wrote: ClaimWrote, notes: ClaimNotes, ghost before: State)
      requires Ready() && MayEditClaim(server.current, server.s, c, f)
      modifies this, server
      ensures Valid() && pool == old(pool)
      ensures wrote.Wrote? ==>
                && ok && Steady(old(server.s), before) && Good(server.current, before) && Live(before, c)
                && ClaimActAllowed(server.current, before, c, wrote.act)
                && server.s == After(before, ClaimWrite(c, wrote.act)) && ClaimWritten(before, server.s, c, wrote.act)
                && notes == ApplyClaim(wrote.act, NotesOf(before, c))
                && exists at :: f(NotesOf(before, c), at) == Some(wrote.act)
      ensures !wrote.Wrote? ==> Steady(old(server.s), server.s)
      ensures ok && wrote.Vetoed? ==> exists at :: f(notes, at) == None
      ensures ok && wrote.Vetoed? && server.current ==> Live(server.s, c) && server.s.cells[c].log != [] && notes == NotesOf(server.s, c)
      ensures ok && wrote.Gone? ==> !Live(server.s, c)
      ensures server.errors >= old(server.errors) && (!ok ==> server.errors > old(server.errors))
    {
      hide Steady, Good, MayEditClaim, PermitsClaim, ClaimActAllowed, ApiServer.Valid;
      ok, wrote, notes, before := false, Gone, NO_CLAIM_NOTES, server.s;
      var attempts := 0;
      server.GoodNow();
      NothingHappened(server.current, server.s);
      while attempts < MAX_ATTEMPTS
        invariant Ready() && Steady(old(server.s), server.s) && pool == old(pool)
        invariant server.errors >= old(server.errors) + attempts
        decreases MAX_ATTEMPTS - attempts
      {
        attempts := attempts + 1;
        ghost var s1 := server.s;
        var got, o, v := server.GetClaim(c);
        SteadyTransitive(old(server.s), s1, server.s);
        SteadyPool(s1, server.s);
        if !got { return false, Gone, NO_CLAIM_NOTES, before; }
        if o.None? { return true, Gone, NO_CLAIM_NOTES, before; }
        var edit := f(o.value.view.notes, server.s.now);
        if edit.None? { return true, Vetoed, o.value.view.notes, before; }
        ClaimEditPermits(server.current, old(server.s), server.s, c, f, o.value, v);
        ghost var s2 := server.s;
        var r;
        r, before := server.UpdateClaim(c, v, edit.value);
        if r == Applied {
          SteadyTransitive(old(server.s), s2, before);
          SteadyPool(s2, before);
          SteadyClaim(s2, before, c);
          assert NotesOf(before, c) == o.value.view.notes;
          GoodIsOk(server.current, before);
          ClaimWriteEffect(before, c, edit.value);
          return true, Wrote(edit.value), ApplyClaim(edit.value, o.value.view.notes), before;
        }
        SteadyTransitive(old(server.s), s2, server.s);
        SteadyPool(s2, server.s);
        if r == Fault { return false, Gone, NO_CLAIM_NOTES, before; }
      }
    }

    /** One attempt at a node mutation: read, mutate the copy, update it if it changed. */
    method TryNode(n: string, op: Op) returns (r: NodeTry, ghost before: State)
      requires Valid() && (op.DoFreeze? ==> op.claim != "")
      requires Permits(server.current, server.s, NodeWrite(n, op))
      modifies this, server
      ensures Valid() && pool == old(pool)
      ensures Ok(before) && Steady(old(server.s), before)
      ensures if r == Landed then n in before.nodes && server.s == After(before, NodeWrite(n, op)) else server.s == before
      ensures r == Nothing && server.current && n in server.s.nodes ==> Done(op, server.s.nodes[n].state)
      ensures server.errors >= old(server.errors)
      ensures r == TryAgain || r == Broken ==> server.errors > old(server.errors)
    {
      hide Steady, Good, Permits, Apply, Done;
      var got, o := server.GetNode(n);
      SteadyPool(old(server.s), server.s);
      before := server.s;
      server.GoodNow();
      if !got { return Broken, before; }
      if o.None? { return Nothing, before; }
      var node := new Node(o.value.state);
      var changed := node.Mutate(op);
      if !changed {
        DoneIfUnchanged(o.value.state, op);
        return Nothing, before;
      }
      PermitsLater(server.current, old(server.s), server.s, NodeWrite(n, op));
      ghost var s2 := server.s;
      var out;
      out, before := server.UpdateNode(n, o.value.version, op);
      if out != Applied {
        before := server.s;
        server.GoodNow();
      }
      SteadyTransitive(old(server.s), s2, before);
      SteadyPool(s2, before);
      GoodIsOk(server.current, before);
      r := if out == Applied then Landed else if out == Conflict then TryAgain else Broken;
    }

    /** A node mutation, skipped when there is nothing to change; a vanished node is no
    error. */
    method PatchNode(n: string, op: Op) returns (ok: bool, wrote: bool, ghost before: State)
      requires Valid() && (op.DoFreeze? ==> op.claim != "")
      requires Permits(server.current, server.s, NodeWrite(n, op))
      modifies this, server
      ensures Valid() && pool == old(pool)
      ensures Ok(before) && Steady(old(server.s), before)
      ensures if wrote then n in before.nodes && server.s == After(before, NodeWrite(n, op)) else server.s == before
      ensures ok && server.current && n in server.s.nodes ==> Done(op, server.s.nodes[n].state)
      ensures server.errors >= old(server.errors) && (!ok ==> server.errors > old(server.errors))
    {
      hide Steady, Good, Permits, Done, ApiServer.Valid;
      ok, wrote, before := false, false, server.s;
      var attempts, again := 0, true;
      server.GoodNow();
      NothingHappened(server.current, server.s);
      GoodIsOk(server.current, server.s);
      while again && attempts < MAX_ATTEMPTS
        invariant Valid() && pool == old(pool) && Ok(before) && Steady(old(server.s), before)
        invariant (again ==> !ok && !wrote) && (attempts == 0 ==> again)
        invariant if wrote then n in before.nodes && server.s == After(before, NodeWrite(n, op)) else server.s == before
        invariant ok && server.current && n in server.s.nodes ==> Done(op, server.s.nodes[n].state)
        invariant server.errors >= old(server.errors) && (attempts > 0 && !ok ==> server.errors > old(server.errors))
        decreases MAX_ATTEMPTS - attempts
      {
        attempts := attempts + 1;
        PermitsLater(server.current, old(server.s), server.s, NodeWrite(n, op));
        ghost var s1 := server.s;
        var r;
        r, before := TryNode(n, op);
        SteadyTransitive(old(server.s), s1, before);
        if r == Landed { MarkingIsQuiet(before, n, op); }
        ok, wrote, again := r == Nothing || r == Landed, r == Landed, r == TryAgain;
      }
    }

    /** Marks a node for the claim: frozen, unless it is gone. */
    method FreezeNode(n: Option<string>, c: string) returns (ok: bool)
      requires Valid() && c != "" && (server.current ==> Working(server.s, c))
      requires server.current && n.Some? ==> n.value in server.s.usedNodes
      modifies this, server
      ensures Valid() && pool == old(pool)
      ensures Quiet(old(server.s), server.s) && PodsSteady(old(server.s), server.s)
      ensures ok && server.current && n.Some? ==> FrozenFor(server.s, n.value, c)
      ensures server.errors >= old(server.errors) && (!ok ==> server.errors > old(server.errors))
    {
      hide Ok, Inv, Steady, Permits, Quiet, PodsSteady;
      server.GoodNow();
      NothingHappened(server.current, server.s);
      SteadyIsEased(server.s, server.s);
      if n.None? { return true; }
      FreezePermitted(server.current, server.s, n.value, c);
      var wrote;
      ghost var before;
      ok, wrote, before := PatchNode(n.value, DoFreeze(c));
      NodePatched(old(server.s), before, server.s, n.value, DoFreeze(c), wrote);
    }

    /** Cordons a node frozen for the rotation. */
    method CordonNode(n: Option<string>, ghost c: string) returns (ok: bool)
      requires Valid() && (server.current && n.Some? ==> FrozenFor(server.s, n.value, c))
      modifies this, server
      ensures Valid() && pool == old(pool)
      ensures Quiet(old(server.s), server.s) && PodsSteady(old(server.s), server.s)
      ensures server.errors >= old(server.errors) && (!ok ==> server.errors > old(server.errors))
    {
      hide Ok, Inv, Steady, Permits, Quiet, PodsSteady, FrozenFor;
      server.GoodNow();
      NothingHappened(server.current, server.s);
      SteadyIsEased(server.s, server.s);
      if n.None? { return true; }
      CordonPermitted(server.current, server.s, n.value, c);
      var wrote;
      ghost var before;
      ok, wrote, before := PatchNode(n.value, DoCordon);
      NodePatched(old(server.s), before, server.s, n.value, DoCordon, wrote);
    }

    /** Reverses the freeze and cordon of every node marked for the claim. */
    method UnfreezeNodes(c: string) returns (ok: bool)
      requires Valid()
      modifies this, server
      ensures Valid() && pool == old(pool)
      ensures Quiet(old(server.s), server.s) && PodsSteady(old(server.s), server.s) && Eased(old(server.s), server.s)
      ensures ok && server.current ==> Unmarks(server.s, c)
      ensures server.errors >= old(server.errors) && (!ok ==> server.errors > old(server.errors))
    {
      hide Ok, Inv, Good, Steady, Permits, Quiet, PodsSteady, ApiServer.Valid;
      var names;
      ok, names := server.ListMarked(c);
      SteadyIsEased(old(server.s), server.s);
      SteadyPool(old(server.s), server.s);
      if !ok { return; }
      while names != {}
        invariant Valid() && pool == old(pool)
        invariant Quiet(old(server.s), server.s) && PodsSteady(old(server.s), server.s) && Eased(old(server.s), server.s)
        invariant server.current ==> MarkedWithin(server.s, c, names)
        invariant ok && server.errors >= old(server.errors)
        decreases |names|
      {
        var n :| n in names;
        ghost var s1 := server.s;
        UnfreezePermitted(server.current, server.s, n);
        var wrote;
        ghost var before;
        ok, wrote, before := PatchNode(n, DoUnfreeze);
        NodePatched(s1, before, server.s, n, DoUnfreeze, wrote);
        QuietThenQuiet(old(server.s), s1, server.s);
        EasedThenEased(old(server.s), s1, server.s);
        if !ok { return; }
        if server.current { EasedWithin(s1, server.s, c, names, n); }
        names := names - {n};
      }
    }

    method DeletePlaceholder(c: string) returns (ok: bool)
      requires Valid()
      modifies this, server
      ensures Valid() && pool == old(pool)
      ensures Steady(old(server.s), server.s)
      ensures ok && c in server.s.pods ==> server.s.pods[c].terminating
      ensures server.errors >= old(server.errors) && (!ok ==> server.errors > old(server.errors))
    {
      hide Steady;
      ok := server.DeletePod(c);
      SteadyPool(old(server.s), server.s);
    }

    /** Emits the signal the last write calls for. */
    method Announce(x: Signal)
      requires Valid() && server.s.history.owed == Some(x)
      modifies this, server
      ensures Ready() && pool == old(pool)
      ensures server.s == old(server.s).(history := server.s.history)
      ensures Clean(old(server.s)) ==> Clean(server.s)
      ensures server.errors == old(server.errors)
    {
      server.Emit(x);
    }

    /** Notes an observation of the surge, in the environment in which reads are exact. */
    method Observe(e: Event)
      requires Ready() && (e.Saw? || e.Held?)
      requires server.current ==> Allowed(true, server.s, e)
      modifies this, server
      ensures Ready() && pool == old(pool) && server.errors == old(server.errors)
      ensures server.s == old(server.s).(history := server.s.history)
      ensures server.s.history.signals == old(server.s.history.signals)
      ensures server.current ==> server.s.history == After(old(server.s), e).history
    {
      if server.current { server.Commit(e); }
    }

    /** The only-if-absent anchor: applied only at the version the caller holds. */
    method AnchorRotation(c: string, why: Start) returns (r: Outcome)
      requires Ready() && PermitsPool(server.current, server.s, version, Anchor(c, why))
      modifies this, server
      ensures Ready() && server.errors >= old(server.errors)
      ensures r != Applied ==> server.errors > old(server.errors) && Steady(old(server.s), server.s) && pool == old(pool)
      ensures r == Applied ==> pool.active == Some(c) && pool == Pool(server.s) && CellsSteady(old(server.s), server.s)
    {
      hide Inv, Ok, Good, Steady, PermitsPool, PoolActAllowed, ApiServer.Valid;
      ghost var before;
      r, before := server.UpdatePool(version, Anchor(c, why));
      if r == Applied {
        AnchorEffect(old(server.s), before, server.s, server.current, c, why);
        pool, version := Pool(server.s), |server.s.pools| - 1;
      } else {
        SteadyPool(old(server.s), server.s);
      }
    }

    /** Every claim of the pool the cache knows, as it shows it. */
    method ListClaims() returns (ok: bool, views: seq<Claim>)
      requires Ready()
      modifies this, server
      ensures Ready() && pool == old(pool) && server.errors >= old(server.errors)
      ensures !ok ==> server.errors > old(server.errors)
      ensures Steady(old(server.s), server.s)
      ensures AllListed(server.current, server.s, views)
    {
      hide Inv, Ok, Good, Steady, ApiServer.Valid, Shown, Listed;
      ok, views := true, [];
      server.GoodNow();
      NothingHappened(server.current, server.s);
      var names := server.s.cells.Keys;
      while names != {}
        invariant Ready() && pool == old(pool) && server.errors == old(server.errors)
        invariant Steady(old(server.s), server.s)
        invariant AllListed(server.current, server.s, views)
        invariant ok
        decreases |names|
      {
        var c :| c in names;
        names := names - {c};
        ghost var s1 := server.s;
        var o, version;
        ok, o, version := server.GetClaim(c);
        SteadyTransitive(old(server.s), s1, server.s);
        SteadyPool(s1, server.s);
        ListedLater(server.current, s1, server.s, views);
        if !ok { return; }
        if o.Some? {
          ListedNow(server.current, server.s, c, o.value, version);
          views := views + [o.value.view];
        }
      }
    }

    /** The process stops, dropping what it still owed, and starts again. */
    method Restart()
      requires Valid()
      modifies this, server
      ensures Ready() && server.s == old(server.s).(history := server.s.history)
    {
      server.Commit(Stop);
    }
  }
}
