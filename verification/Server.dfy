/** The API server as the controller meets it: versioned objects behind a cache, on
which everyone else acts between any two calls. Every call may fail. */
module Server {
  import opened Clock
  import opened Options
  import opened Notes
  import opened Nodeops
  import opened Protocol
  import opened Invariants
  import opened Runs

  predicate Good(current: bool, s: State) {
    Ok(s) && (current ==> Inv(s))
  }

  lemma NothingHappened(current: bool, s: State)
    requires Good(current, s)
    ensures Steady(s, s)
  {
    SteadyReflexive(s);
  }

  lemma SteadyPool(s: State, t: State)
    requires Steady(s, t)
    ensures s.pools != [] && s.pools <= t.pools && SamePool(Pool(s), Pool(t)) && t.history == s.history && s.now <= t.now
  {
  }

  lemma SteadyClaim(s: State, t: State, c: string)
    requires Steady(s, t) && c in s.cells
    ensures c in t.cells && CellSteady(s.cells[c], t.cells[c])
  {
  }

  /** What one Update came to: applied, refused because the object has a newer version,
  or failed. */
  datatype Outcome = Applied | Conflict | Fault

  // ----- what a caller has to know before a conditional write -----

  /** The write is in order on any later state in which this version is still current. */
  ghost predicate PermitsPool(current: bool, s: State, version: nat, a: PoolAct) {
    forall s1 :: Steady(s, s1) && Good(current, s1) && |s1.pools| == version + 1 ==> PoolActAllowed(current, s1, a)
  }

  ghost predicate PermitsClaim(current: bool, s: State, c: string, version: nat, a: ClaimAct) {
    forall s1 :: Steady(s, s1) && Good(current, s1) && Live(s1, c) && |s1.cells[c].log| == version + 1 ==>
      ClaimActAllowed(current, s1, c, a)
  }

  /** The server can carry the event out: its object is there, or not yet. */
  predicate Possible(s: State, e: Event) {
    && Applies(s, e)
    && (e.ClaimDelete? ==> Live(s, e.name))
    && (e.PodCreate? ==> e.pod !in s.pods)
  }

  ghost predicate Permits(current: bool, s: State, e: Event) {
    forall s1 :: Steady(s, s1) && Good(current, s1) && Possible(s1, e) ==> Allowed(current, s1, e)
  }

  /** A version of a claim a read has returned, and what the reader may conclude: later
  reads return no older one. */
  predicate Shown(s: State, c: string, o: ClaimObj, version: nat) {
    && c in s.cells
    && version < |s.cells[c].log| && s.cells[c].log[version] == o
    && VersionOk(o, c, s.now, s.usedNodes)
    && Grows(o, Obj(s, c))
    && (if o.view.deleting then SeenDeleting(s.cells[c])
        else Live(s, c) ==> NotesOf(s, c).phase != Phase.Expired)
  }

  function WithSeen(s: State, c: string, i: nat): State
    requires c in s.cells
  {
    s.(cells := s.cells[c := s.cells[c].(seen := i)])
  }

  lemma CacheMoves(a: Cell, c: string, now: Time, used: set<string>, i: nat)
    requires CellOk(a, c, now, used)
    requires a.seen <= i <= |a.log| - (if a.gone then 0 else 1)
    ensures CellOk(a.(seen := i), c, now, used) && CellByOthers(a, a.(seen := i))
    ensures i < |a.log| ==>
              && VersionOk(a.log[i], c, now, used)
              && Grows(a.log[i], Last(a.log))
              && (Last(a.log).view.notes.phase == Phase.Expired ==> a.log[i].view.deleting)
  {
    assert a.seen < i < |a.log| ==> Grows(a.log[a.seen], a.log[i]);
    assert i < |a.log| - 1 ==> Grows(a.log[i], a.log[|a.log| - 1]);
  }

  /** A read is a step of others: it only moves the cache on. */
  lemma ReadingMovesTheCache(s: State, c: string, i: nat)
    requires Ok(s) && c in s.cells
    requires s.cells[c].seen <= i <= |s.cells[c].log| - (if s.cells[c].gone then 0 else 1)
    ensures ByOthers(s, WithSeen(s, c, i))
  {
    CacheMoves(s.cells[c], c, s.now, s.usedNodes, i);
    assert Ok(WithSeen(s, c, i));
  }

  lemma ReadShows(s: State, c: string, i: nat)
    requires Ok(s) && c in s.cells && s.cells[c].seen <= i < |s.cells[c].log|
    ensures Shown(WithSeen(s, c, i), c, s.cells[c].log[i], i)
  {
    assert CellOk(s.cells[c], c, s.now, s.usedNodes);
    CacheMoves(s.cells[c], c, s.now, s.usedNodes, i);
  }

  /** Deleting a claim changes none of the controller's annotations. */
  lemma DeletingIsSteady(s: State, c: string)
    requires Ok(s) && Live(s, c)
    ensures Steady(s, After(s, ClaimDelete(c)))
  {
    var t := After(s, ClaimDelete(c));
    assert CellOk(s.cells[c], c, s.now, s.usedNodes);
    assert CellSteady(s.cells[c], t.cells[c]);
  }

  class ApiServer {
    const current: bool
    var s: State
    ghost const start: State
    ghost var run: Run
    /** The calls that came back with an error, conflicts included. */
    ghost var errors: nat

    ghost predicate Valid()
      reads this
    {
      && ValidRun(current, start, run) && s == End(start, run)
      && Good(current, s)
    }

    lemma GoodNow()
      requires Valid()
      ensures Good(current, s)
    {
    }

    /** Started on whatever a run of the protocol has left behind. */
    constructor (current: bool, start: State, run: Run)
      requires ValidRun(current, start, run)
      ensures Valid() && this.current == current && this.start == start
      ensures s.history.owed.None? && s == End(start, run).(history := s.history)
    {
      this.current, this.start, this.run := current, start, run;
      this.s, this.errors := End(start, run), 0;
      new;
      StateOk(current, start, run, |run|);
      Commit(Stop);
    }

    method Commit(e: Event)
      requires Valid() && Allowed(current, s, e) && Applies(s, e) && !e.Others?
      modifies this
      ensures Valid() && s == After(old(s), e)
      ensures run == old(run) + [Step(e, s)] && errors == old(errors)
    {
      var t := After(s, e);
      if current { NextKeepsInv(s, e, t); } else { NextKeepsOk(current, s, e, t); }
      Extend(current, start, run, Step(e, t));
      run := run + [Step(e, t)];
      s := t;
    }

    method CommitOthers(t: State)
      requires Valid() && ByOthers(s, t)
      modifies this
      ensures Valid() && s == t && Steady(old(s), s)
      ensures run == old(run) + [Step(Others, s)] && errors == old(errors)
    {
      if current { NextKeepsInv(s, Others, t); } else { NextKeepsOk(current, s, Others, t); }
      OthersAreSteady(s, t);
      Extend(current, start, run, Step(Others, t));
      run := run + [Step(Others, t)];
      s := t;
    }

    /** Anything the rest of the cluster may do. */
    method Interfere()
      requires Valid()
      modifies this
      ensures Valid() && Steady(old(s), s) && old(run) <= run && errors == old(errors)
    {
      var t: State := *;
      if ByOthers(s, t) {
        CommitOthers(t);
      } else {
        SteadyReflexive(s);
      }
    }

    /** Any call may come back with an error. */
    method MaybeFail() returns (ok: bool)
      requires Valid()
      modifies this`errors
      ensures Valid()
      ensures errors == old(errors) + if ok then 0 else 1
    {
      ok := *;
      if !ok { errors := errors + 1; }
    }

    // ----- the pool -----

    method GetPool() returns (ok: bool, notes: PoolNotes, version: nat)
      requires Valid()
      modifies this
      ensures Valid() && Steady(old(s), s) && old(run) <= run
      ensures version < |s.pools| && s.pools[version] == notes && Stamped(notes, s.now)
      ensures current ==> version == |s.pools| - 1
      ensures if ok then errors == old(errors) else errors == old(errors) + 1
    {
      Interfere();
      ok := MaybeFail();
      version := |s.pools| - 1;
      if !current {
        var v: int := *;
        if 0 <= v < |s.pools| { version := v; }
      }
      notes := s.pools[version];
    }

    /** Update: applied only at the current version. */
    method UpdatePool(version: nat, a: PoolAct) returns (r: Outcome, ghost before: State)
      requires Valid() && s.history.owed.None? && PermitsPool(current, s, version, a)
      modifies this
      ensures Valid() && old(run) <= run
      ensures r == Applied ==>
                && Steady(old(s), before) && Good(current, before) && |before.pools| == version + 1
                && PoolActAllowed(current, before, a) && s == After(before, PoolWrite(a))
      ensures r != Applied ==> Steady(old(s), s)
      ensures if r == Applied then errors == old(errors) else errors == old(errors) + 1
    {
      hide Inv, Steady, ValidRun;
      Interfere();
      SteadyPool(old(s), s);
      before := s;
      var up := MaybeFail();
      if !up { return Fault, before; }
      if version + 1 != |s.pools| { errors := errors + 1; return Conflict, before; }
      Commit(PoolWrite(a));
      r := Applied;
    }

    // ----- claims -----

    method GetClaim(c: string) returns (ok: bool, o: Option<ClaimObj>, version: nat)
      requires Valid()
      modifies this
      ensures Valid() && Steady(old(s), s) && old(run) <= run
      ensures ok && o.Some? ==> Shown(s, c, o.value, version)
      ensures ok && o.Some? && current ==> Live(s, c) && version == |s.cells[c].log| - 1
      ensures ok && o.None? ==> !Live(s, c)
      ensures if ok then errors == old(errors) else errors == old(errors) + 1
    {
      Interfere();
      o, version := None, 0;
      ok := MaybeFail();
      if !ok || c !in s.cells { return; }
      var cell := s.cells[c];
      assert CellOk(cell, c, s.now, s.usedNodes);
      var i := if cell.gone then |cell.log| else |cell.log| - 1;
      if !current {
        var j: int := *;
        if cell.seen <= j <= i { i := j; }
      }
      ReadingMovesTheCache(s, c, i);
      ghost var middle := s;
      CommitOthers(WithSeen(s, c, i));
      SteadyTransitive(old(s), middle, s);
      if i < |cell.log| {
        ReadShows(middle, c, i);
        o, version := Some(cell.log[i]), i;
      }
    }

    method UpdateClaim(c: string, version: nat, a: ClaimAct) returns (r: Outcome, ghost before: State)
      requires Valid() && s.history.owed.None? && PermitsClaim(current, s, c, version, a)
      modifies this
      ensures Valid() && old(run) <= run
      ensures r == Applied ==>
                && Steady(old(s), before) && Good(current, before) && Live(before, c) && |before.cells[c].log| == version + 1
                && ClaimActAllowed(current, before, c, a) && s == After(before, ClaimWrite(c, a))
      ensures r != Applied ==> Steady(old(s), s)
      ensures if r == Applied then errors == old(errors) else errors == old(errors) + 1
    {
      hide Inv, Steady, ValidRun;
      Interfere();
      SteadyPool(old(s), s);
      before := s;
      var up := MaybeFail();
      if up && (c !in s.cells || s.cells[c].gone) { errors := errors + 1; up := false; }
      if !up { return Fault, before; }
      assert CellOk(s.cells[c], c, s.now, s.usedNodes);
      if version + 1 != |s.cells[c].log| { errors := errors + 1; return Conflict, before; }
      Commit(ClaimWrite(c, a));
      r := Applied;
    }

    /** A claim already gone is no error. */
    method DeleteClaim(c: string) returns (ok: bool)
      requires Valid() && Permits(current, s, ClaimDelete(c))
      modifies this
      ensures Valid() && Steady(old(s), s) && old(run) <= run
      ensures ok && Live(s, c) ==> s.cells[c].log != [] && Obj(s, c).view.deleting
      ensures if ok then errors == old(errors) else errors == old(errors) + 1
    {
      hide Inv, Steady, ValidRun;
      Interfere();
      ok := MaybeFail();
      if ok && c in s.cells && !s.cells[c].gone {
        assert CellOk(s.cells[c], c, s.now, s.usedNodes);
        ghost var middle := s;
        DeletingIsSteady(s, c);
        Commit(ClaimDelete(c));
        SteadyTransitive(old(s), middle, s);
      }
    }

    // ----- nodes -----

    method GetNode(n: string) returns (ok: bool, o: Option<NodeObj>)
      requires Valid()
      modifies this
      ensures Valid() && Steady(old(s), s) && old(run) <= run
      ensures ok && current ==> o == (if n in s.nodes then Some(s.nodes[n]) else None)
      ensures ok && o.Some? && n in s.nodes ==>
                && o.value.version <= s.nodes[n].version
                && (o.value.version == s.nodes[n].version ==> o.value.state == s.nodes[n].state)
      ensures if ok then errors == old(errors) else errors == old(errors) + 1
    {
      Interfere();
      ok := MaybeFail();
      o := if n in s.nodes then Some(s.nodes[n]) else None;
      if !current {
        var x: NodeObj := *;
        if n !in s.nodes || x.version < s.nodes[n].version { o := Some(x); }
      }
    }

    method UpdateNode(n: string, version: nat, op: Op) returns (r: Outcome, ghost before: State)
      requires Valid() && Permits(current, s, NodeWrite(n, op))
      modifies this
      ensures Valid() && old(run) <= run
      ensures r == Applied ==>
                && Steady(old(s), before) && Good(current, before)
                && n in before.nodes && before.nodes[n].version == version
                && Allowed(current, before, NodeWrite(n, op)) && s == After(before, NodeWrite(n, op))
      ensures r != Applied ==> Steady(old(s), s)
      ensures if r == Applied then errors == old(errors) else errors == old(errors) + 1
    {
      hide Inv, Steady, ValidRun;
      Interfere();
      before := s;
      var up := MaybeFail();
      if up && n !in s.nodes { errors := errors + 1; up := false; }
      if !up { return Fault, before; }
      if version != s.nodes[n].version { errors := errors + 1; return Conflict, before; }
      Commit(NodeWrite(n, op));
      r := Applied;
    }

    /** The nodes marked for the claim, as the list shows them. */
    method ListMarked(c: string) returns (ok: bool, names: set<string>)
      requires Valid()
      modifies this
      ensures Valid() && Steady(old(s), s) && old(run) <= run
      ensures current ==> names == set n | n in s.nodes && s.nodes[n].state.Has(SurgeFor) && s.nodes[n].state.Get(SurgeFor) == c
      ensures if ok then errors == old(errors) else errors == old(errors) + 1
    {
      Interfere();
      ok := MaybeFail();
      if current {
        names := set n | n in s.nodes && s.nodes[n].state.Has(SurgeFor) && s.nodes[n].state.Get(SurgeFor) == c;
      } else {
        names := *;
      }
    }

    // ----- placeholders -----

    method GetPod(c: string) returns (ok: bool, pod: Option<Pod>)
      requires Valid()
      modifies this
      ensures Valid() && Steady(old(s), s) && old(run) <= run
      ensures ok && current ==> pod == (if c in s.pods then Some(s.pods[c]) else None)
      ensures if ok then errors == old(errors) else errors == old(errors) + 1
    {
      Interfere();
      ok := MaybeFail();
      if current {
        pod := if c in s.pods then Some(s.pods[c]) else None;
      } else {
        pod := *;
      }
    }

    /** A placeholder already there is no error. */
    method CreatePod(c: string) returns (ok: bool)
      requires Valid() && Permits(current, s, PodCreate(c))
      modifies this
      ensures Valid() && Quiet(old(s), s) && NodesSteady(old(s), s) && old(run) <= run
      ensures ok ==> c in s.pods
      ensures if ok then errors == old(errors) else errors == old(errors) + 1
    {
      Interfere();
      ok := MaybeFail();
      if ok && c !in s.pods {
        Commit(PodCreate(c));
      }
    }

    /** A placeholder already gone is no error. */
    method DeletePod(c: string) returns (ok: bool)
      requires Valid()
      modifies this
      ensures Valid() && Steady(old(s), s) && old(run) <= run
      ensures ok && c in s.pods ==> s.pods[c].terminating
      ensures if ok then errors == old(errors) else errors == old(errors) + 1
    {
      Interfere();
      ok := MaybeFail();
      if ok && c in s.pods {
        Commit(PodDelete(c));
      }
    }

    // ----- signals and observations -----

    method Emit(x: Signal)
      requires Valid() && s.history.owed == Some(x)
      modifies this
      ensures Valid() && s == After(old(s), Event.Emit(x)) && old(run) <= run && errors == old(errors)
    {
      Commit(Event.Emit(x));
    }
  }
}
