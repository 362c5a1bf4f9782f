/** The reconcile handlers of a rotation (internal/controller/rotation_controller.go).

Each is proved to make only steps the protocol allows, in either environment, and to
have announced what its writes call for by the time it returns; what runs made of such
steps guarantee is in Runs and Signals. */
module Rotation {
  import opened Clock
  import opened Options
  import opened Notes
  import opened Calendar
  import opened Selection
  import opened Nodeops
  import opened Protocol
  import opened Invariants
  import opened Server
  import opened Client
  import Decide

  /** A pool's governing policy and schedule, resolved. `staticPool` says that the
  pool has a fixed node count, `fatalFindings` that its schedule has a fatal one. */
  datatype Resolved = Resolved(
    schedule: Schedule,
    leadTime: LeadTime,
    override: Option<int>,
    retryBackoff: int,
    cooldown: int,
    failurePause: int,
    fallbackEnabled: bool,
    readyTimeout: int,
    drainBound: int,
    staticPool: bool,
    fatalFindings: bool)

  /** Where a pass ended: it waits, it released the anchor, or a call failed and the
  pass is retried. */
  datatype PassEnd = Waiting | Released(how: Ending) | Erred

  // ----- what a handler knows of its claim -----

  /** A version of the claim has been read. */
  predicate Learned(s: State, c: string, o: ClaimObj) {
    && c in s.cells && s.cells[c].log != []
    && VersionOk(o, c, s.now, s.usedNodes)
    && Grows(o, Obj(s, c))
    && (o.view.deleting ==> SeenDeleting(s.cells[c]))
  }

  /** The pool is at work on this claim, and the version read is what the claim says. */
  predicate Dispatched(current: bool, s: State, c: string, o: ClaimObj) {
    && s.pools != [] && Learned(s, c, o)
    && (current ==> Pool(s).active == Some(c) && NotesOf(s, c) == o.view.notes)
  }

  /** This pass has asserted the claim pending, and has read it since. */
  predicate Attempting(current: bool, s: State, c: string, o: ClaimObj) {
    && s.pools != [] && Learned(s, c, o) && NotesOf(s, c).phase == Pending
    && (current ==> Pool(s).active == Some(c) && (c in s.pods && !s.pods[c].terminating ==> o.node.Some?))
  }

  lemma LearnedLater(s: State, t: State, c: string, o: ClaimObj)
    requires Learned(s, c, o) && Quiet(s, t)
    ensures Learned(t, c, o) && NotesOf(t, c) == NotesOf(s, c)
  {
    assert CellSteady(s.cells[c], t.cells[c]);
  }

  lemma DispatchedLater(current: bool, s: State, t: State, c: string, o: ClaimObj)
    requires Dispatched(current, s, c, o) && Quiet(s, t)
    ensures Dispatched(current, t, c, o)
  {
    hide Quiet;
    LearnedLater(s, t, c, o);
    QuietPool(s, t);
  }

  lemma AttemptingLater(current: bool, s: State, t: State, c: string, o: ClaimObj)
    requires Attempting(current, s, c, o) && Quiet(s, t) && PodsSteady(s, t)
    ensures Attempting(current, t, c, o)
    ensures c in s.cells && s.cells[c].log != [] && c in t.cells && t.cells[c].log != [] && NotesOf(t, c) == NotesOf(s, c)
  {
    hide Quiet;
    LearnedLater(s, t, c, o);
    QuietPool(s, t);
  }

  lemma SteadyIsQuiet(s: State, t: State)
    requires Steady(s, t)
    ensures Quiet(s, t) && PodsSteady(s, t)
  {
  }

  lemma LearnedWritten(s: State, t: State, c: string, a: ClaimAct, o: ClaimObj)
    requires Learned(s, c, o) && ClaimWritten(s, t, c, a)
    ensures Learned(t, c, o)
  {
  }

  function Gate(res: Resolved, notes: PoolNotes, now: Time): Decide.Inputs {
    Decide.Inputs(now, InWindow(res.schedule, now), notes, res.cooldown, res.failurePause, res.fallbackEnabled,
                  res.readyTimeout, res.drainBound)
  }

  function SelectionInputs(res: Resolved, now: Time, excluded: set<string>, bounds: Option<Bounds>): Inputs {
    Inputs(now, res.leadTime, res.override, res.retryBackoff, excluded, bounds)
  }

  // ----- the edits -----

  function AssertPendingEdit(n: ClaimNotes, at: Time): Option<ClaimAct> {
    if n.phase in {Fresh, Pending} then Some(AssertPending(at)) else None
  }

  function ReenterEdit(why: Start): ClaimEdit {
    (n: ClaimNotes, at: Time) => if n.phase != Phase.Failed then None else Some(Reenter(why))
  }

  function FailEdit(n: ClaimNotes, at: Time): Option<ClaimAct> { Some(Fail(at)) }

  function NoteEdit(name: string): ClaimEdit { (n, at) => Some(NoteSurgeClaim(name)) }

  function DrainEdit(surgeless: bool): ClaimEdit { (n, at) => Some(Drain(surgeless)) }

  /** Into expired, but only from the caller's own pre-state. */
  function ExpireEdit(failed: bool): ClaimEdit {
    (n: ClaimNotes, at: Time) =>
      if n.phase == Phase.Expired || !(if failed then n.phase == Phase.Failed else n.phase in {Fresh, Pending}) then None
      else Some(Expire(failed))
  }

  function MarkEdit(c: string, mode: DrainMode): PoolEdit {
    (p, at) => Some(MarkDraining(at, c, mode))
  }

  function MirrorEdit(p: PoolNotes, at: Time): Option<PoolAct> { Some(MirrorDraining) }

  function ReleaseEdit(how: Ending): PoolEdit { (p, at) => Some(Release(at, how)) }

  /** The verdict on the window is re-asserted on the annotations written to, with the
  exact stamp it was reached on. */
  function WindowEdit(now: Time, inWindow: bool, census: Census, stamp: Stamp, action: Decide.WindowAction): PoolEdit {
    (p: PoolNotes, at: Time) =>
      if Decide.WindowEdge(p, now, inWindow, census) != action || p.openedAt != stamp then None
      else if action == Decide.WindowStamp then Some(StampWindow(now))
      else Some(ClearWindow(now, census, stamp, action == Decide.WindowMissed))
  }

  /** The release that claims the outcome: only while the pool still names the claim. */
  function EndEdit(c: string, how: Ending): PoolEdit {
    (p: PoolNotes, at: Time) => if p.active != Some(c) then None else Some(Release(at, how))
  }

  // ----- what is in order, write by write -----

  lemma MayAssertPending(current: bool, s: State, c: string)
    requires s.pools != [] && (current ==> Pool(s).active == Some(c))
    ensures MayEditClaim(current, s, c, AssertPendingEdit)
  {
    hide Inv, Steady;
    forall s1 | Steady(s, s1) ensures s1.pools != [] && Pool(s1).active == Pool(s).active { SteadyPool(s, s1); }
  }

  lemma MayExpire(current: bool, s: State, c: string, failed: bool)
    requires s.pools != [] && (current ==> Pool(s).active == Some(c))
    requires c in s.cells && SeenDeleting(s.cells[c])
    ensures MayEditClaim(current, s, c, ExpireEdit(failed))
  {
    hide Inv, Steady;
    forall s1 | Steady(s, s1)
      ensures s1.pools != [] && Pool(s1).active == Pool(s).active && c in s1.cells && SeenDeleting(s1.cells[c])
    {
      SteadyPool(s, s1);
      SteadyClaim(s, s1, c);
    }
  }

  lemma MayNote(current: bool, s: State, c: string, o: ClaimObj, name: string)
    requires Attempting(current, s, c, o)
    ensures MayEditClaim(current, s, c, NoteEdit(name))
  {
    hide Inv, Steady;
    forall s1 | Steady(s, s1) ensures Attempting(current, s1, c, o) {
      SteadyIsQuiet(s, s1);
      AttemptingLater(current, s, s1, c, o);
    }
  }

  lemma MayFail(current: bool, s: State, c: string, o: ClaimObj)
    requires Attempting(current, s, c, o) && (current ==> Clean(s))
    ensures MayEditClaim(current, s, c, FailEdit)
  {
    hide Inv, Steady, Clean;
    forall s1 | Steady(s, s1) ensures Attempting(current, s1, c, o) && (current ==> Clean(s1)) {
      SteadyIsQuiet(s, s1);
      AttemptingLater(current, s, s1, c, o);
      if current { SteadyKeepsClean(s, s1); }
    }
  }

  lemma MayDrain(current: bool, s: State, c: string, o: ClaimObj)
    requires Attempting(current, s, c, o) && (current ==> Pool(s).draining && s.history.held.Some?)
    ensures MayEditClaim(current, s, c, DrainEdit(false))
  {
    hide Inv, Steady;
    forall s1 | Steady(s, s1)
      ensures Attempting(current, s1, c, o) && (current ==> Pool(s1).draining && s1.history.held.Some?)
    {
      SteadyIsQuiet(s, s1);
      AttemptingLater(current, s, s1, c, o);
      SteadyPool(s, s1);
    }
  }

  lemma MayDrainSurgeless(current: bool, s: State, c: string)
    requires s.pools != [] && c in s.cells && s.cells[c].log != []
    requires Live(s, c) ==> NotesOf(s, c).phase != Phase.Expired
    requires current ==> Pool(s).active == Some(c) && Pool(s).draining && Pool(s).fallback
    ensures MayEditClaim(current, s, c, DrainEdit(true))
  {
    hide Inv, Steady;
    forall s1 | Steady(s, s1)
      ensures s1.pools != [] && c in s1.cells && s1.cells[c].log != [] && NotesOf(s1, c) == NotesOf(s, c)
      ensures Live(s1, c) ==> Live(s, c)
      ensures SamePool(Pool(s), Pool(s1))
    {
      SteadyPool(s, s1);
      SteadyClaim(s, s1, c);
    }
  }

  lemma MayReenter(current: bool, s: State, c: string, o: ClaimObj, why: Start)
    requires Dispatched(current, s, c, o) && why.view == o.view
    requires Startable(why, s.now) && FailedPastBackoff(why.view, why.selection) && why.fits
    requires current ==> SamePool(why.gate.notes, Pool(s))
    ensures MayEditClaim(current, s, c, ReenterEdit(why))
  {
    hide Inv, Steady;
    forall s1 | Steady(s, s1) ensures Dispatched(current, s1, c, o) && SamePool(Pool(s), Pool(s1)) && s.now <= s1.now {
      SteadyPool(s, s1);
      SteadyIsQuiet(s, s1);
      DispatchedLater(current, s, s1, c, o);
    }
  }

  lemma MayMark(current: bool, s: State, c: string, mode: DrainMode)
    requires mode.Surgeless? ==> mode.view.name == c && Decide.SurgelessFallback(mode.view, mode.gate)
    requires s.pools != [] && (current ==> Pool(s).active == Some(c) && (mode.Surgeless? || s.history.held.Some?))
    ensures MayEditPool(current, s, MarkEdit(c, mode))
  {
    hide Inv, Steady;
    forall s1 | Steady(s, s1)
      ensures s1.pools != [] && Pool(s1).active == Pool(s).active && s1.history == s.history
    {
      SteadyPool(s, s1);
    }
  }

  lemma MayMirror(s: State)
    ensures MayEditPool(false, s, MirrorEdit)
  {
    hide Inv, Steady;
  }

  lemma MayEditWindow(current: bool, s: State, now: Time, inWindow: bool, census: Census, stamp: Stamp, action: Decide.WindowAction)
    requires s.pools != [] && now <= s.now
    requires action in {Decide.WindowStamp, Decide.WindowSettled, Decide.WindowMissed}
    ensures MayEditPool(current, s, WindowEdit(now, inWindow, census, stamp, action))
  {
    hide Inv, Steady;
    forall s1 | Steady(s, s1) ensures s1.pools != [] && now <= s1.now { SteadyPool(s, s1); }
  }

  lemma MayAnchor(current: bool, s: State, version: nat, c: string, why: Start)
    requires version < |s.pools| && s.pools[version].active.None? && why.gate.notes == s.pools[version]
    requires Startable(why, s.now) && why.view.name == c && Eligible(why.view, why.selection)
    requires Decide.SurgelessFallback(why.view, why.gate) || why.fits
    requires Listed(current, s, why.view)
    ensures PermitsPool(current, s, version, Anchor(c, why))
  {
    hide Inv, Steady;
    forall s1 | Steady(s, s1) && Good(current, s1) && |s1.pools| == version + 1
      ensures PoolActAllowed(current, s1, Anchor(c, why))
    {
      SteadyPool(s, s1);
      SteadyClaim(s, s1, c);
      assert Pool(s1) == s.pools[version];
    }
  }

  lemma MayRelease(current: bool, s: State, how: Ending)
    requires (current ==> Clean(s)) && !how.Completed? && !how.Reaped?
    ensures MayEditPool(current, s, ReleaseEdit(how))
  {
    hide Inv, Steady, Clean;
    forall s1 | current && Steady(s, s1) ensures Clean(s1) { SteadyKeepsClean(s, s1); }
  }

  lemma MayEnd(current: bool, s: State, c: string, how: Ending)
    requires (current ==> Clean(s)) && (how == Completed(c) || how == Reaped(c))
    requires how.Completed? ==> !Live(s, c) && c in s.cells
    ensures MayEditPool(current, s, EndEdit(c, how))
  {
    hide Inv, Steady, Clean;
    forall s1 | Steady(s, s1) ensures (current ==> Clean(s1)) && (how.Completed? ==> !Live(s1, c)) {
      if current { SteadyKeepsClean(s, s1); }
      if how.Completed? { SteadyClaim(s, s1, c); }
    }
  }

  /** After the cleanup of the anchored rotation nothing of the controller's is left. */
  lemma CleanedUp(s: State, c: string)
    requires Ok(s) && Inv(s) && Pool(s).active == Some(c)
    requires Unmarks(s, c) && (c in s.pods ==> s.pods[c].terminating)
    ensures Clean(s)
  {
    forall n <- s.nodes
      ensures Unmarked(s.nodes[n].state)
    {
      assert NodeAnchored(s.nodes[n].state, Pool(s).active);
    }
  }

  lemma DeletePermitted(current: bool, s: State, c: string)
    requires s.pools != [] && (c in s.cells ==> s.cells[c].log != [])
    requires current && Live(s, c) && Pool(s).active == Some(c) ==>
               Pool(s).draining && NotesOf(s, c).phase == Draining && (Pool(s).fallback || s.history.held.Some?)
    requires c in s.cells
    ensures Permits(current, s, ClaimDelete(c))
  {
    hide Inv, Steady;
    forall s1 | Steady(s, s1) && Good(current, s1) && Possible(s1, ClaimDelete(c))
      ensures Allowed(current, s1, ClaimDelete(c))
    {
      SteadyPool(s, s1);
      SteadyClaim(s, s1, c);
    }
  }

  lemma CreatePermitted(current: bool, s: State, c: string, o: ClaimObj)
    requires Attempting(current, s, c, o) && o.node.Some?
    ensures Permits(current, s, PodCreate(c))
  {
    hide Inv, Steady;
    forall s1 | Steady(s, s1) && Good(current, s1) && Possible(s1, PodCreate(c))
      ensures Allowed(current, s1, PodCreate(c))
    {
      SteadyIsQuiet(s, s1);
      AttemptingLater(current, s, s1, c, o);
    }
  }

  lemma PlaceholderStaysDeleted(s: State, t: State, c: string)
    requires PodsSteady(s, t) && (c in s.pods ==> s.pods[c].terminating)
    ensures c in t.pods ==> t.pods[c].terminating
  {
  }

  lemma GoodIsClean(s: State, c: string)
    requires Good(true, s) && Pool(s).active == Some(c)
    requires Unmarks(s, c) && (c in s.pods ==> s.pods[c].terminating)
    ensures Clean(s)
  {
    hide Inv;
    CleanedUp(s, c);
  }

  /** What markExpired did with a transition into expired. */
  datatype Expiry = ExpiryFailed | ExpiryGone | ExpiryRaced | ExpiryAlready | ExpiryClaimed

  /** The end of an expiry or a rollback keeps the pool and adds no artifact. */
  predicate Kept(s: State, t: State) {
    && s.pools != [] && t.pools != [] && SamePool(Pool(s), Pool(t))
    && (Clean(s) ==> Clean(t))
  }

  lemma SteadyKept(s: State, t: State)
    requires Steady(s, t)
    ensures Kept(s, t)
  {
    hide Clean;
    SteadyPool(s, t);
    if Clean(s) { SteadyKeepsClean(s, t); }
  }

  lemma WrittenKept(s: State, m: State, t: State, c: string, a: ClaimAct)
    requires Kept(s, m) && ClaimWritten(m, t, c, a)
    ensures Kept(s, t)
  {
  }

  /** The anchor and everything scoped to it are gone; a rollback left its pause. */
  predicate IsReleased(s: State, how: Ending) {
    && s.pools != [] && Pool(s).active.None? && Pool(s) == Cleared(Pool(s))
    && (how.RolledBack? ==> Pool(s).lastFailureAt.Some?)
    && (how.Repaired? && how.failedAt.Some? ==>
          Pool(s).lastFailureAt.Some? && how.failedAt.value <= Pool(s).lastFailureAt.value)
  }

  lemma SteadyCells(s: State, t: State)
    requires Steady(s, t)
    ensures CellsSteady(s, t)
  {
  }

  lemma PoolWrittenKept(s: State, t: State, a: PoolAct)
    requires PoolWritten(s, t, a)
    ensures Clean(s) ==> Clean(t)
    ensures a.Release? ==> IsReleased(t, a.how)
  {
  }

  /** A claim created after the attempt began is not the candidate. */
  lemma NotTheCandidate(s: State, t: State, c: string, cand: ClaimObj, name: string, sc: ClaimObj, v: nat)
    requires Learned(s, c, cand) && Steady(s, t) && Shown(t, name, sc, v)
    requires cand.view.notes.startedAt.Some? && sc.view.createdAt > cand.view.notes.startedAt.value
    ensures name != c
  {
    hide Inv, Ok, Steady;
    SteadyIsQuiet(s, t);
    LearnedLater(s, t, c, cand);
  }

  /** The failure of one attempt is on record. */
  predicate RolledBackOnce(s: State, t: State, c: string) {
    && c in s.cells && s.cells[c].log != [] && c in t.cells && t.cells[c].log != []
    && var n := NotesOf(t, c);
       n.phase == Phase.Failed && n.failedAt.Some? && n.retry == NotesOf(s, c).retry + 1
       && n.startedAt.None? && n.surgeClaim.None?
  }

  lemma SameRetry(s: State, m: State, t: State, c: string)
    requires RolledBackOnce(m, t, c) && c in s.cells && s.cells[c].log != [] && NotesOf(s, c) == NotesOf(m, c)
    ensures RolledBackOnce(s, t, c)
  {
  }

  lemma FailureStays(s: State, t: State, u: State, c: string)
    requires RolledBackOnce(s, t, c) && CellsSteady(t, u)
    ensures RolledBackOnce(s, u, c)
  {
    assert CellSteady(t.cells[c], u.cells[c]);
  }

  /** What the second read of a pending claim adds. */
  lemma ReadAttempting(current: bool, s: State, c: string, o: ClaimObj, version: nat)
    requires Good(current, s) && Shown(s, c, o, version) && NotesOf(s, c).phase == Pending
    requires current ==> Pool(s).active == Some(c) && version == |s.cells[c].log| - 1
    ensures Attempting(current, s, c, o)
  {
    assert CellOk(s.cells[c], c, s.now, s.usedNodes);
  }

  lemma AttemptingIsWorking(current: bool, s: State, c: string, o: ClaimObj)
    requires Good(current, s) && Attempting(current, s, c, o)
    ensures current ==> Working(s, c)
  {
    hide Inv;
  }

  lemma AttemptingWritten(current: bool, s: State, t: State, c: string, o: ClaimObj, a: PoolAct)
    requires Attempting(current, s, c, o) && PoolWritten(s, t, a) && a.MarkDraining?
    ensures Attempting(current, t, c, o)
  {
  }

  lemma AttemptingNoted(current: bool, s: State, t: State, c: string, o: ClaimObj, name: string)
    requires Attempting(current, s, c, o) && ClaimWritten(s, t, c, NoteSurgeClaim(name))
    ensures Attempting(current, t, c, o)
  {
    LearnedWritten(s, t, c, NoteSurgeClaim(name), o);
  }

  lemma AttemptingObserved(current: bool, s: State, t: State, c: string, o: ClaimObj)
    requires Attempting(current, s, c, o) && t == s.(history := t.history)
    ensures Attempting(current, t, c, o)
  {
  }

  /** The placeholder a pass has just read qualifies as running on another node. */
  lemma RunsElsewhere(s: State, c: string, o: ClaimObj, host: string)
    requires Ok(s) && Attempting(true, s, c, o) && c in s.pods
    requires s.pods[c].running && !s.pods[c].terminating && s.pods[c].node == Some(host) && o.node != Some(host)
    ensures RunningOn(s, c, host)
  {
    hide Ok;
  }

  lemma NamedClaim(s: State, c: string, o: ClaimObj)
    requires Learned(s, c, o)
    ensures c != "" && (o.node.Some? ==> o.node.value in s.usedNodes)
  {
  }

  lemma NamedAttempt(current: bool, s: State, c: string, o: ClaimObj)
    requires Attempting(current, s, c, o)
    ensures c != "" && (o.node.Some? ==> o.node.value in s.usedNodes)
  {
    NamedClaim(s, c, o);
  }

  lemma AttemptedClaim(current: bool, s: State, c: string, o: ClaimObj)
    requires Attempting(current, s, c, o)
    ensures c in s.cells
  {
  }

  lemma HoldAllowed(s: State, c: string, host: string)
    requires Ok(s) && Pool(s).active == Some(c) && s.history.seeing == SawReady(host) && FrozenFor(s, host, c)
    ensures Allowed(true, s, Held(host))
  {
    hide Ok;
  }

  lemma HeldNow(s: State, t: State, host: string)
    requires s.pools != [] && t.history == After(s, Held(host)).history
    ensures t.history.held == Some(host)
  {
  }

  /** The claim drains and is being deleted, or has gone. */
  predicate DrainUnderWay(s: State, c: string) {
    && s.pools != [] && Pool(s).draining
    && (Live(s, c) ==> s.cells[c].log != [] && NotesOf(s, c).phase == Draining && Obj(s, c).view.deleting)
  }

  lemma StaysGone(s: State, t: State, c: string)
    requires c in s.cells && !Live(s, c) && Quiet(s, t)
    ensures c in t.cells && !Live(t, c)
  {
    assert CellSteady(s.cells[c], t.cells[c]);
  }

  /** The delete of a claim found draining is in order. */
  lemma DispatchedDelete(current: bool, s: State, c: string, o: ClaimObj)
    requires Dispatched(current, s, c, o) && o.view.notes.phase == Draining
    requires current ==> Pool(s).draining && (Pool(s).fallback || s.history.held.Some?)
    ensures Permits(current, s, ClaimDelete(c))
  {
    DeletePermitted(current, s, c);
  }

  /** Writing the mirror leaves the claim as it was. */
  lemma MirrorKept(s: State, before: State, t: State, c: string, o: ClaimObj, act: Option<PoolAct>)
    requires Dispatched(false, s, c, o) && s.history.owed.None?
    requires if act.Some? then Steady(s, before) && PoolWritten(before, t, act.value) && act.value.MirrorDraining?
             else Steady(s, t)
    ensures Dispatched(false, t, c, o)
    ensures t.history.owed.None?
  {
    hide Steady, Quiet;
    var m := if act.Some? then before else t;
    SteadyIsQuiet(s, m);
    SteadyPool(s, m);
    DispatchedLater(false, s, m, c, o);
  }

  /** What dispatching on a claim read adds in the crash environment. */
  lemma ReadDispatched(current: bool, s: State, c: string, o: ClaimObj, version: nat)
    requires Good(current, s) && Shown(s, c, o, version)
    requires current ==> Pool(s).active == Some(c) && Live(s, c) && version == |s.cells[c].log| - 1
    ensures Dispatched(current, s, c, o)
    ensures current && o.view.notes.phase == Draining ==> Pool(s).draining && (Pool(s).fallback || s.history.held.Some?)
    ensures current && o.view.notes.phase == Phase.Failed ==> Clean(s)
  {
    assert CellOk(s.cells[c], c, s.now, s.usedNodes);
  }

  /** One while the claim is durably failed: what bounds re-entry. */
  function Fuel(s: State, c: string): nat {
    if Live(s, c) && s.cells[c].log != [] && NotesOf(s, c).phase == Phase.Failed then 1 else 0
  }

  lemma FuelFalls(s: State, t: State, c: string)
    requires Steady(s, t)
    ensures Fuel(t, c) <= Fuel(s, c)
  {
    if c in s.cells { SteadyClaim(s, t, c); }
  }

  lemma FuelSpent(s: State, before: State, t: State, c: string, a: ClaimAct)
    requires Steady(s, before) && Live(before, c) && before.cells[c].log != [] && NotesOf(before, c).phase == Phase.Failed
    requires ClaimWritten(before, t, c, a) && a.Reenter? && c in s.cells
    ensures Fuel(t, c) < Fuel(s, c)
    ensures Quiet(s, before) && Pool(t).active == Pool(s).active && c in t.cells && s.now <= t.now
  {
    hide Quiet;
    SteadyIsQuiet(s, before);
    SteadyClaim(s, before, c);
    SteadyPool(s, before);
  }

  lemma SameCells(s: State, before: State, t: State)
    requires CellsSteady(s, before) && t.cells == before.cells
    ensures CellsSteady(s, t)
  {
  }

  lemma ListedClaim(current: bool, s: State, v: Claim)
    requires Listed(current, s, v) && !v.deleting
    ensures v.name in s.cells && s.cells[v.name].log != []
    ensures Live(s, v.name) ==> NotesOf(s, v.name).phase != Phase.Expired
  {
  }

  lemma AllListedKept(current: bool, s: State, t: State, views: seq<Claim>)
    requires AllListed(current, s, views) && CellsSteady(s, t)
    ensures AllListed(current, t, views)
  {
    hide Listed, CellsSteady;
    forall v <- views ensures Listed(current, t, v) { ListedKept(current, s, t, v); }
  }

  lemma ViewNames(current: bool, s: State, version: nat)
    requires Good(current, s) && version < |s.pools| && s.pools[version].active.Some?
    ensures s.pools[version].active.value in s.cells
  {
    assert s.pools[version] in s.pools;
  }

  class Reconciler {
    const client: PatchClient

    constructor (client: PatchClient)
      requires client.Valid()
      ensures this.client == client
    {
      this.client := client;
    }

    /** Deletes the placeholder and unfreezes the nodes of a rotation. */
    method CleanUp(c: string) returns (ok: bool)
      requires client.Ready() && (client.server.current ==> Pool(client.server.s).active == Some(c))
      modifies client, client.server
      ensures client.Ready()
      ensures Quiet(old(client.server.s), client.server.s) && PodsSteady(old(client.server.s), client.server.s)
      ensures ok && client.server.current ==> Clean(client.server.s)
      ensures client.server.errors >= old(client.server.errors)
      ensures !ok ==> client.server.errors > old(client.server.errors)
    {
      hide Inv, Good, Steady, Quiet, PodsSteady, Clean, ApiServer.Valid;
      ok := client.DeletePlaceholder(c);
      ghost var s1 := client.server.s;
      SteadyIsQuiet(old(client.server.s), s1);
      QuietPool(old(client.server.s), s1);
      if !ok { return; }
      ok := client.UnfreezeNodes(c);
      PlaceholderStaysDeleted(s1, client.server.s, c);
      QuietThenQuiet(old(client.server.s), s1, client.server.s);
      QuietPool(old(client.server.s), client.server.s);
      if ok && client.server.current {
        client.server.GoodNow();
        GoodIsClean(client.server.s, c);
      }
    }

    /** A transition into expired, from the caller's own pre-state alone. */
    method MarkExpired(c: string, failed: bool) returns (out: Expiry)
      requires client.Ready() && c in client.server.s.cells && SeenDeleting(client.server.s.cells[c])
      requires client.server.current ==> Pool(client.server.s).active == Some(c)
      modifies client, client.server
      ensures client.Valid() && Kept(old(client.server.s), client.server.s)
      ensures client.server.s.history.owed == if out == ExpiryClaimed then Some(Signal.Expired(c)) else None
      ensures client.server.errors >= old(client.server.errors)
      ensures out == ExpiryFailed ==> client.server.errors > old(client.server.errors)
      ensures out == ExpiryGone ==> !Live(client.server.s, c)
      ensures out == ExpiryRaced && client.server.current ==>
                && Live(client.server.s, c) && client.server.s.cells[c].log != []
                && NotesOf(client.server.s, c).phase !in (if failed then {Phase.Failed, Phase.Expired} else {Fresh, Pending, Phase.Expired})
    {
      hide Inv, Ok, Steady, ClaimActAllowed, After, ApiServer.Valid, Kept;
      MayExpire(client.server.current, client.server.s, c, failed);
      var ok, wrote, notes;
      ghost var before;
      ok, wrote, notes, before := client.PatchClaimIf(c, ExpireEdit(failed));
      if wrote.Wrote? {
        SteadyKept(old(client.server.s), before);
        WrittenKept(old(client.server.s), before, client.server.s, c, wrote.act);
        return ExpiryClaimed;
      }
      SteadyPool(old(client.server.s), client.server.s);
      SteadyKept(old(client.server.s), client.server.s);
      out := if !ok then ExpiryFailed
             else if wrote.Gone? then ExpiryGone
             else if notes.phase == Phase.Expired then ExpiryAlready
             else ExpiryRaced;
    }

    /** The single pool update that releases the anchor. */
    method ReleaseAnchor(how: Ending) returns (ok: bool)
      requires client.Ready() && !how.Completed? && !how.Reaped?
      requires client.server.current ==> Clean(client.server.s)
      modifies client, client.server
      ensures client.Ready() && client.server.errors >= old(client.server.errors)
      ensures !ok ==> client.server.errors > old(client.server.errors)
      ensures CellsSteady(old(client.server.s), client.server.s)
      ensures ok ==> IsReleased(client.server.s, how)
      ensures client.server.s.history.signals == old(client.server.s.history.signals)
      ensures client.server.current ==> Clean(client.server.s)
    {
      hide Inv, Ok, Steady, Clean, After, ApiServer.Valid;
      MayRelease(client.server.current, client.server.s, how);
      var act, prior;
      ghost var before;
      ok, act, prior, before := client.PatchPoolIf(ReleaseEdit(how));
      if act.Some? {
        SteadyCells(old(client.server.s), before);
        SteadyKept(old(client.server.s), before);
        SteadyPool(old(client.server.s), before);
        PoolWrittenKept(before, client.server.s, act.value);
      } else {
        SteadyCells(old(client.server.s), client.server.s);
        SteadyKept(old(client.server.s), client.server.s);
        SteadyPool(old(client.server.s), client.server.s);
      }
    }

    /** A candidate caught force-expiring in pending: announced, cleaned up, released. */
    method AbortPendingExpiry(c: string) returns (end: PassEnd)
      requires client.Ready() && c in client.server.s.cells && SeenDeleting(client.server.s.cells[c])
      requires client.server.current ==> Pool(client.server.s).active == Some(c)
      modifies client, client.server
      ensures client.Ready() && client.server.errors >= old(client.server.errors)
      ensures end == Erred ==> client.server.errors > old(client.server.errors)
      ensures end.Released? ==> end.how == Aborted && IsReleased(client.server.s, Aborted)
      ensures end == Waiting && client.server.current && Live(client.server.s, c) ==>
                client.server.s.cells[c].log != [] && NotesOf(client.server.s, c).phase !in {Fresh, Pending, Phase.Expired}
    {
      hide Inv, Ok, Good, Steady, Quiet, Clean, ApiServer.Valid;
      var out := MarkExpired(c, false);
      if out == ExpiryFailed { return Erred; }
      if out == ExpiryGone || out == ExpiryRaced { return Waiting; }
      if out == ExpiryClaimed { client.Announce(Signal.Expired(c)); }
      var ok := CleanUp(c);
      if !ok { return Erred; }
      ok := ReleaseAnchor(Aborted);
      end := if ok then Released(Aborted) else Erred;
    }

    /** The cleanup of a terminal claim still anchored; nothing is announced again. */
    method AdvanceExpired(c: string) returns (end: PassEnd)
      requires client.Ready()
      requires client.server.current ==> Pool(client.server.s).active == Some(c)
      modifies client, client.server
      ensures client.Ready() && client.server.errors >= old(client.server.errors)
      ensures if end == Erred then client.server.errors > old(client.server.errors)
              else end == Released(Aborted) && IsReleased(client.server.s, Aborted)
      ensures client.server.s.history.signals == old(client.server.s.history.signals)
    {
      hide Inv, Ok, Good, Steady, Clean, ApiServer.Valid;
      var ok := CleanUp(c);
      QuietPool(old(client.server.s), client.server.s);
      if !ok { return Erred; }
      ok := ReleaseAnchor(Aborted);
      end := if ok then Released(Aborted) else Erred;
    }

    /** The claim the surge induced, as far as the lists tell: any or none. */
    method InducedClaim() returns (ok: bool, name: Option<string>)
      requires client.Ready()
      modifies client.server
      ensures client.Ready() && client.server.s == old(client.server.s)
      ensures client.server.errors >= old(client.server.errors)
      ensures !ok ==> client.server.errors > old(client.server.errors)
    {
      ok := client.server.MaybeFail();
      name := *;
    }

    /** Deletes the induced claim on rollback: never one older than the attempt, and so
    never the candidate itself. */
    method ReapSurgeClaim(ghost c: string, cand: ClaimObj, name: Option<string>) returns (ok: bool)
      requires client.Ready() && Learned(client.server.s, c, cand)
      requires client.server.current ==> Pool(client.server.s).active == Some(c)
      modifies client, client.server
      ensures client.Ready() && client.server.errors >= old(client.server.errors)
      ensures !ok ==> client.server.errors > old(client.server.errors)
      ensures Steady(old(client.server.s), client.server.s)
    {
      hide Inv, Ok, Good, Steady, ApiServer.Valid;
      client.server.GoodNow();
      NothingHappened(client.server.current, client.server.s);
      if name.None? { return true; }
      var sc, v;
      ok, sc, v := client.server.GetClaim(name.value);
      ghost var s1 := client.server.s;
      SteadyPool(old(client.server.s), s1);
      if !ok || sc.None? { return; }
      var startedAt := cand.view.notes.startedAt;
      if startedAt.None? { return true; }
      if !(sc.value.view.createdAt > startedAt.value) { return true; }
      var hostsRealPods: bool := *;
      if sc.value.node.Some? && hostsRealPods { return true; }
      NotTheCandidate(old(client.server.s), s1, c, cand, name.value, sc.value, v);
      DeletePermitted(client.server.current, s1, name.value);
      ok := client.server.DeleteClaim(name.value);
      SteadyTransitive(old(client.server.s), s1, client.server.s);
      SteadyPool(s1, client.server.s);
    }

    /** Records the failure on the claim and announces it. */
    method RecordFailure(c: string, cand: ClaimObj) returns (ok: bool, recorded: bool)
      requires client.Ready() && Attempting(client.server.current, client.server.s, c, cand)
      requires client.server.current ==> Clean(client.server.s)
      modifies client, client.server
      ensures client.Ready() && client.server.errors >= old(client.server.errors)
      ensures !ok ==> client.server.errors > old(client.server.errors)
      ensures ok && !recorded ==> !Live(client.server.s, c)
      ensures recorded ==> ok && RolledBackOnce(old(client.server.s), client.server.s, c)
      ensures client.server.current ==> Clean(client.server.s)
    {
      hide Inv, Ok, Good, Steady, Quiet, Clean, PodsSteady, After, ApiServer.Valid;
      MayFail(client.server.current, client.server.s, c, cand);
      var wrote, notes;
      ghost var before;
      ok, wrote, notes, before := client.PatchClaimIf(c, FailEdit);
      recorded := wrote.Wrote?;
      if recorded {
        SteadyIsQuiet(old(client.server.s), before);
        LearnedLater(old(client.server.s), before, c, cand);
        SteadyKept(old(client.server.s), before);
        WrittenKept(old(client.server.s), before, client.server.s, c, wrote.act);
        client.Announce(Failure(c));
      } else {
        SteadyPool(old(client.server.s), client.server.s);
        SteadyKept(old(client.server.s), client.server.s);
      }
    }

    /** The readyTimeout rollback: clean up, record the failure, announce it, pause. */
    method FailPending(c: string, cand: ClaimObj) returns (end: PassEnd)
      requires client.Ready() && Attempting(client.server.current, client.server.s, c, cand)
      modifies client, client.server
      ensures client.Ready() && client.server.errors >= old(client.server.errors)
      ensures end == Erred ==> client.server.errors > old(client.server.errors)
      ensures end == Waiting ==> !Live(client.server.s, c)
      ensures end.Released? ==>
                && end.how == RolledBack && IsReleased(client.server.s, RolledBack)
                && RolledBackOnce(old(client.server.s), client.server.s, c)
    {
      hide Inv, Ok, Good, Steady, Quiet, Clean, PodsSteady, CellsSteady, After, Learned, ApiServer.Valid;
      var ok := true;
      var surgeClaim := cand.view.notes.surgeClaim;
      if surgeClaim.None? {
        ok, surgeClaim := InducedClaim();
        if !ok { return Erred; }
      }
      ok := ReapSurgeClaim(c, cand, surgeClaim);
      ghost var s1 := client.server.s;
      SteadyIsQuiet(old(client.server.s), s1);
      AttemptingLater(client.server.current, old(client.server.s), s1, c, cand);
      if !ok { return Erred; }
      ok := CleanUp(c);
      ghost var s2 := client.server.s;
      AttemptingLater(client.server.current, s1, s2, c, cand);
      if !ok { return Erred; }
      var recorded;
      ok, recorded := RecordFailure(c, cand);
      if !ok { return Erred; }
      if !recorded { return Waiting; }
      ghost var s3 := client.server.s;
      SameRetry(old(client.server.s), s2, s3, c);
      ok := ReleaseAnchor(RolledBack);
      FailureStays(old(client.server.s), s3, client.server.s, c);
      end := if ok then Released(RolledBack) else Erred;
    }

    /** Whether the placeholder is Running on a Ready host of the pool other than the
    candidate's node; a terminating one does not count. */
    method SurgeReady(c: string, cand: ClaimObj, pod: Pod) returns (ok: bool, host: Option<string>)
      requires client.Ready() && Attempting(client.server.current, client.server.s, c, cand)
      requires client.server.current ==> c in client.server.s.pods && client.server.s.pods[c] == pod
      modifies client, client.server
      ensures client.Ready() && client.server.errors >= old(client.server.errors)
      ensures !ok ==> client.server.errors > old(client.server.errors)
      ensures Attempting(client.server.current, client.server.s, c, cand)
      ensures ok && host.Some? && client.server.current ==>
                && client.server.s.history.seeing == SawReady(host.value)
                && host.value in client.server.s.nodes && client.server.s.nodes.Keys <= client.server.s.usedNodes
    {
      hide Inv, Steady, Quiet, PodsSteady, ApiServer.Valid, Learned, CellOk;
      client.server.GoodNow();
      host := None;
      if !pod.running || pod.terminating || pod.node.None? || pod.node == cand.node { return true, None; }
      if client.server.current { RunsElsewhere(client.server.s, c, cand, pod.node.value); }
      client.Observe(Saw(SawRunning(pod.node.value)));
      AttemptingObserved(client.server.current, old(client.server.s), client.server.s, c, cand);
      ghost var s1 := client.server.s;
      var node;
      ok, node := client.server.GetNode(pod.node.value);
      SteadyPool(s1, client.server.s);
      SteadyIsQuiet(s1, client.server.s);
      AttemptingLater(client.server.current, s1, client.server.s, c, cand);
      if !ok || node.None? || !node.value.ready || !node.value.inPool { return ok, None; }
      client.server.GoodNow();
      ghost var s2 := client.server.s;
      client.Observe(Saw(SawReady(pod.node.value)));
      AttemptingObserved(client.server.current, s2, client.server.s, c, cand);
      host := pod.node;
    }

    /** The surge is ready: hold its host, record the drain on pool then claim, delete. */
    method BeginDrain(c: string, cand: ClaimObj, host: string, surgeWait: int) returns (end: PassEnd)
      requires client.Ready() && Attempting(client.server.current, client.server.s, c, cand)
      requires client.server.current ==>
                 client.server.s.history.seeing == SawReady(host) && host in client.server.s.usedNodes
      modifies client, client.server
      ensures client.Ready() && client.server.errors >= old(client.server.errors)
      ensures if end == Erred then client.server.errors > old(client.server.errors)
              else end == Waiting && DrainUnderWay(client.server.s, c)
    {
      hide Inv, Ok, Steady, Quiet, PodsSteady, ApiServer.Valid, Learned, After, PoolActAllowed;
      client.server.GoodNow();
      AttemptingIsWorking(client.server.current, client.server.s, c, cand);
      NamedClaim(client.server.s, c, cand);
      var ok := client.FreezeNode(Some(host), c);
      ghost var s1 := client.server.s;
      AttemptingLater(client.server.current, old(client.server.s), s1, c, cand);
      QuietPool(old(client.server.s), s1);
      if !ok { return Erred; }
      client.server.GoodNow();
      if client.server.current { HoldAllowed(s1, c, host); }
      client.Observe(Held(host));
      ghost var s2 := client.server.s;
      if client.server.current { HeldNow(s1, s2, host); }
      AttemptingObserved(client.server.current, s1, s2, c, cand);
      end := RecordDrain(c, cand, surgeWait);
    }

    /** The drain recorded on the claim, then its delete. */
    method DrainClaim(c: string, surgeless: bool) returns (end: PassEnd)
      requires client.Ready() && MayEditClaim(client.server.current, client.server.s, c, DrainEdit(surgeless))
      requires Pool(client.server.s).draining && c in client.server.s.cells
      requires client.server.current ==> Pool(client.server.s).fallback || client.server.s.history.held.Some?
      modifies client, client.server
      ensures client.Ready() && client.server.errors >= old(client.server.errors)
      ensures if end == Erred then client.server.errors > old(client.server.errors)
              else end == Waiting && DrainUnderWay(client.server.s, c)
    {
      hide Inv, Ok, Good, Steady, ApiServer.Valid, After, ClaimActAllowed, MayEditClaim;
      var ok, wrote, notes;
      ghost var before;
      ok, wrote, notes, before := client.PatchClaimIf(c, DrainEdit(surgeless));
      ghost var s2 := client.server.s;
      if wrote.Wrote? {
        SteadyPool(old(client.server.s), before);
      } else {
        SteadyPool(old(client.server.s), s2);
        SteadyClaim(old(client.server.s), s2, c);
      }
      if !ok { return Erred; }
      DeletePermitted(client.server.current, s2, c);
      ok := client.server.DeleteClaim(c);
      SteadyPool(s2, client.server.s);
      SteadyClaim(s2, client.server.s, c);
      end := if ok then Waiting else Erred;
    }

    method RecordDrain(c: string, cand: ClaimObj, surgeWait: int) returns (end: PassEnd)
      requires client.Ready() && Attempting(client.server.current, client.server.s, c, cand)
      requires client.server.current ==> client.server.s.history.held.Some?
      modifies client, client.server
      ensures client.Ready() && client.server.errors >= old(client.server.errors)
      ensures if end == Erred then client.server.errors > old(client.server.errors)
              else end == Waiting && DrainUnderWay(client.server.s, c)
    {
      hide Inv, Ok, Good, Steady, Quiet, PodsSteady, ApiServer.Valid, Learned, After, PoolActAllowed, MayEditClaim;
      var path: Option<SurgePath> := *;
      MayMark(client.server.current, client.server.s, c, BySurge(surgeWait, path));
      var ok, act, prior;
      ghost var before;
      ok, act, prior, before := client.PatchPoolIf(MarkEdit(c, BySurge(surgeWait, path)));
      if act.None? {
        SteadyPool(old(client.server.s), client.server.s);
        return Erred;
      }
      SteadyPool(old(client.server.s), before);
      SteadyIsQuiet(old(client.server.s), before);
      AttemptingLater(client.server.current, old(client.server.s), before, c, cand);
      AttemptingWritten(client.server.current, before, client.server.s, c, cand, act.value);
      AttemptedClaim(client.server.current, client.server.s, c, cand);
      MayDrain(client.server.current, client.server.s, c, cand);
      end := DrainClaim(c, false);
    }

    /** Records which claim the surge induced, once it can be told. */
    method PersistSurgeClaim(c: string, cand: ClaimObj) returns (ok: bool)
      requires client.Ready() && Attempting(client.server.current, client.server.s, c, cand)
      modifies client, client.server
      ensures client.Ready() && client.server.errors >= old(client.server.errors)
      ensures !ok ==> client.server.errors > old(client.server.errors)
      ensures Attempting(client.server.current, client.server.s, c, cand)
    {
      hide Inv, Ok, Good, Steady, Quiet, PodsSteady, ApiServer.Valid, Attempting, After, ClaimActAllowed;
      if cand.view.notes.surgeClaim.Some? { return true; }
      var name;
      ok, name := InducedClaim();
      if !ok || name.None? { return; }
      MayNote(client.server.current, client.server.s, c, cand, name.value);
      var wrote, notes;
      ghost var before;
      ok, wrote, notes, before := client.PatchClaimIf(c, NoteEdit(name.value));
      if wrote.Wrote? {
        SteadyIsQuiet(old(client.server.s), before);
        AttemptingLater(client.server.current, old(client.server.s), before, c, cand);
        AttemptingNoted(client.server.current, before, client.server.s, c, cand, name.value);
      } else {
        SteadyPool(old(client.server.s), client.server.s);
        SteadyIsQuiet(old(client.server.s), client.server.s);
        AttemptingLater(client.server.current, old(client.server.s), client.server.s, c, cand);
      }
    }

    /** Marks the candidate's node: frozen, then cordoned. */
    method ProtectCandidate(c: string, cand: ClaimObj) returns (ok: bool)
      requires client.Ready() && Attempting(client.server.current, client.server.s, c, cand)
      modifies client, client.server
      ensures client.Ready() && client.server.errors >= old(client.server.errors)
      ensures !ok ==> client.server.errors > old(client.server.errors)
      ensures Attempting(client.server.current, client.server.s, c, cand)
    {
      hide Inv, Ok, Steady, Quiet, PodsSteady, ApiServer.Valid, Attempting, FrozenFor;
      client.server.GoodNow();
      AttemptingIsWorking(client.server.current, client.server.s, c, cand);
      NamedAttempt(client.server.current, client.server.s, c, cand);
      ok := client.FreezeNode(cand.node, c);
      ghost var s1 := client.server.s;
      QuietPool(old(client.server.s), s1);
      AttemptingLater(client.server.current, old(client.server.s), s1, c, cand);
      if !ok { return; }
      ok := client.CordonNode(cand.node, c);
      QuietPool(s1, client.server.s);
      AttemptingLater(client.server.current, s1, client.server.s, c, cand);
    }

    /** The rest of the pending handler, once the attempt is asserted and in time. */
    method DriveSurge(res: Resolved, c: string, cand: ClaimObj, startedAt: Time) returns (end: PassEnd)
      requires client.Ready() && Attempting(client.server.current, client.server.s, c, cand)
      modifies client, client.server
      ensures client.Ready() && client.server.errors >= old(client.server.errors)
      ensures end == Erred ==> client.server.errors > old(client.server.errors)
      ensures !end.Released?
    {
      hide Inv, Ok, Good, Steady, Quiet, PodsSteady, ApiServer.Valid, Attempting, Allowed, Permits;
      var ok := ProtectCandidate(c, cand);
      if !ok { return Erred; }
      ok := PersistSurgeClaim(c, cand);
      if !ok { return Erred; }
      if Decide.Frozen(client.pool, client.server.s.now) { return Waiting; }
      ghost var s1 := client.server.s;
      var pod;
      ok, pod := client.server.GetPod(c);
      ghost var s2 := client.server.s;
      SteadyPool(s1, s2);
      SteadyIsQuiet(s1, s2);
      AttemptingLater(client.server.current, s1, s2, c, cand);
      if !ok { return Erred; }
      if pod.None? {
        ok := CreatePlaceholder(c, cand);
        return if ok then Waiting else Erred;
      }
      var host;
      ok, host := SurgeReady(c, cand, pod.value);
      if !ok { return Erred; }
      if host.None? { return Waiting; }
      end := BeginDrain(c, cand, host.value, client.server.s.now - startedAt);
    }

    /** Nothing is created while the candidate's node is unknown or gone. */
    method CreatePlaceholder(c: string, cand: ClaimObj) returns (ok: bool)
      requires client.Ready() && Attempting(client.server.current, client.server.s, c, cand)
      modifies client, client.server
      ensures client.Ready() && client.server.errors >= old(client.server.errors)
      ensures !ok ==> client.server.errors > old(client.server.errors)
    {
      hide Inv, Ok, Good, Steady, Quiet, PodsSteady, ApiServer.Valid, Attempting, Permits;
      if cand.node.None? { return true; }
      var node;
      ok, node := client.server.GetNode(cand.node.value);
      ghost var s1 := client.server.s;
      SteadyPool(old(client.server.s), s1);
      SteadyIsQuiet(old(client.server.s), s1);
      AttemptingLater(client.server.current, old(client.server.s), s1, c, cand);
      if !ok || node.None? { return; }
      CreatePermitted(client.server.current, s1, c, cand);
      ok := client.server.CreatePod(c);
      QuietPool(s1, client.server.s);
    }

    /** The pending handler: re-asserts the phase and its side effects on every pass. */
    method AdvancePending(res: Resolved, c: string, cand: ClaimObj) returns (end: PassEnd)
      requires client.Ready() && Dispatched(client.server.current, client.server.s, c, cand)
      modifies client, client.server
      ensures client.Ready() && client.server.errors >= old(client.server.errors)
      ensures end == Erred ==> client.server.errors > old(client.server.errors)
      ensures end.Released? ==> end.how in {Aborted, RolledBack} && IsReleased(client.server.s, end.how)
    {
      hide Inv, Ok, Good, Steady, Quiet, PodsSteady, ApiServer.Valid, After, ClaimActAllowed, Attempting;
      if cand.view.deleting {
        end := AbortPendingExpiry(c);
        return;
      }
      MayAssertPending(client.server.current, client.server.s, c);
      var ok, wrote, notes;
      ghost var before;
      ok, wrote, notes, before := client.PatchClaimIf(c, AssertPendingEdit);
      ghost var s1 := client.server.s;
      if !wrote.Wrote? {
        SteadyPool(old(client.server.s), s1);
        return if ok then Waiting else Erred;
      }
      SteadyPool(old(client.server.s), before);
      var o, v;
      ok, o, v := client.server.GetClaim(c);
      SteadyPool(s1, client.server.s);
      SteadyClaim(s1, client.server.s, c);
      if !ok { return Erred; }
      if o.None? { return Waiting; }
      client.server.GoodNow();
      ReadAttempting(client.server.current, client.server.s, c, o.value, v);
      if client.server.s.now - notes.startedAt.value > res.readyTimeout {
        end := FailPending(c, o.value);
      } else {
        end := DriveSurge(res, c, o.value, notes.startedAt.value);
      }
    }

    /** The surge-less rotation: recorded on pool then claim, announced by nothing the
    pool or the claim keep, and deleted. */
    method StartForcefulFallback(c: string, view: Claim, gate: Decide.Inputs) returns (end: PassEnd)
      requires client.Ready() && view.name == c && Decide.SurgelessFallback(view, gate)
      requires c in client.server.s.cells && client.server.s.cells[c].log != []
      requires Live(client.server.s, c) ==> NotesOf(client.server.s, c).phase != Phase.Expired
      requires client.server.current ==> Pool(client.server.s).active == Some(c)
      modifies client, client.server
      ensures client.Ready() && client.server.errors >= old(client.server.errors)
      ensures if end == Erred then client.server.errors > old(client.server.errors)
              else end == Waiting && DrainUnderWay(client.server.s, c)
    {
      hide Inv, Ok, Good, Steady, ApiServer.Valid, After, PoolActAllowed, MayEditClaim;
      MayMark(client.server.current, client.server.s, c, Surgeless(view, gate));
      var ok, act, prior;
      ghost var before;
      ok, act, prior, before := client.PatchPoolIf(MarkEdit(c, Surgeless(view, gate)));
      if act.None? {
        SteadyPool(old(client.server.s), client.server.s);
        return Erred;
      }
      SteadyPool(old(client.server.s), before);
      SteadyClaim(old(client.server.s), before, c);
      MayDrainSurgeless(client.server.current, client.server.s, c);
      end := DrainClaim(c, true);
    }

    /** Waits for the old claim to finalize away, re-issuing what a stop left undone. */
    method AdvanceDraining(c: string, cand: ClaimObj) returns (end: PassEnd)
      requires client.Ready() && Dispatched(client.server.current, client.server.s, c, cand)
      requires cand.view.notes.phase == Draining
      requires client.server.current ==>
                 Pool(client.server.s).draining && (Pool(client.server.s).fallback || client.server.s.history.held.Some?)
      modifies client, client.server
      ensures client.Ready() && client.server.errors >= old(client.server.errors)
      ensures if end == Erred then client.server.errors > old(client.server.errors)
              else end == Waiting && (client.server.current ==> DrainUnderWay(client.server.s, c))
    {
      hide Inv, Ok, Good, Steady, Quiet, ApiServer.Valid, After, Permits;
      var ok := true;
      if !client.pool.draining {
        MayMirror(client.server.s);
        var act, prior;
        ghost var before;
        ok, act, prior, before := client.PatchPoolIf(MirrorEdit);
        MirrorKept(old(client.server.s), before, client.server.s, c, cand, act);
        if !ok { return Erred; }
      }
      ghost var s1 := client.server.s;
      if !cand.view.deleting {
        DispatchedDelete(client.server.current, s1, c, cand);
        ok := client.server.DeleteClaim(c);
        SteadyPool(s1, client.server.s);
        SteadyIsQuiet(s1, client.server.s);
        DispatchedLater(client.server.current, s1, client.server.s, c, cand);
      }
      end := if ok then Waiting else Erred;
    }

    /** The end of a rotation whose claim is gone: the mirror says which end it was, and
    the write that releases the anchor who announces it. */
    method CompleteOrAbort(c: string) returns (end: PassEnd)
      requires client.Ready() && !Live(client.server.s, c) && c in client.server.s.cells
      requires client.server.current ==> Pool(client.server.s).active == Some(c)
      modifies client, client.server
      ensures client.Ready() && client.server.errors >= old(client.server.errors)
      ensures end == Erred ==> client.server.errors > old(client.server.errors)
      ensures end.Released? ==>
                && end.how == Completed(c) && IsReleased(client.server.s, end.how)
                && (client.server.current && Pool(old(client.server.s)).draining ==> Pool(client.server.s).lastRotationAt.Some?)
      ensures end == Waiting ==> client.pool.active != Some(c)
    {
      hide Inv, Ok, Good, Steady, Quiet, PodsSteady, Clean, After, PoolActAllowed, ApiServer.Valid;
      var ok := CleanUp(c);
      ghost var s1 := client.server.s;
      QuietPool(old(client.server.s), s1);
      StaysGone(old(client.server.s), s1, c);
      if !ok { return Erred; }
      MayEnd(client.server.current, s1, c, Completed(c));
      var act, prior;
      ghost var before;
      ok, act, prior, before := client.PatchPoolIf(EndEdit(c, Completed(c)));
      if act.None? {
        SteadyPool(s1, client.server.s);
        return if ok then Waiting else Erred;
      }
      SteadyPool(s1, before);
      PoolWrittenKept(before, client.server.s, act.value);
      client.Announce(if prior.draining then Success else Signal.Expired(c));
      end := Released(Completed(c));
    }

    /** The reap of a rotation the controller no longer governs. */
    method ReapUngovernedRotation() returns (end: PassEnd)
      requires client.Ready()
      modifies client, client.server
      ensures client.Ready() && client.server.errors >= old(client.server.errors)
      ensures end == Erred ==> client.server.errors > old(client.server.errors)
      ensures end.Released? ==>
                old(client.pool.active).Some? && end.how == Reaped(old(client.pool.active).value) && IsReleased(client.server.s, end.how)
      ensures end == Waiting ==> old(client.pool.active).None? || client.pool.active != old(client.pool.active)
    {
      hide Inv, Ok, Good, Steady, Quiet, PodsSteady, Clean, After, PoolActAllowed, ApiServer.Valid;
      if client.pool.active.None? { return Waiting; }
      var c := client.pool.active.value;
      var ok := CleanUp(c);
      ghost var s1 := client.server.s;
      if !ok { return Erred; }
      MayEnd(client.server.current, s1, c, Reaped(c));
      var act, prior;
      ghost var before;
      ok, act, prior, before := client.PatchPoolIf(EndEdit(c, Reaped(c)));
      if act.None? {
        SteadyPool(s1, client.server.s);
        return if ok then Waiting else Erred;
      }
      SteadyPool(s1, before);
      PoolWrittenKept(before, client.server.s, act.value);
      end := Released(Reaped(c));
    }

    /** Drives the anchored rotation one step, by what its claim says. */
    method Advance(res: Resolved, c: string) returns (end: PassEnd)
      requires client.Ready() && c in client.server.s.cells && Calendar.Valid(res.schedule)
      requires client.server.current ==> Pool(client.server.s).active == Some(c)
      modifies client, client.server
      ensures client.Ready() && client.server.errors >= old(client.server.errors)
      ensures end == Erred ==> client.server.errors > old(client.server.errors)
      ensures end.Released? ==> IsReleased(client.server.s, end.how)
      decreases Fuel(client.server.s, c), 1
    {
      hide Inv, Ok, Good, Steady, Quiet, Clean, ApiServer.Valid, Shown;
      var ok, o, v := client.server.GetClaim(c);
      ghost var s1 := client.server.s;
      SteadyPool(old(client.server.s), s1);
      SteadyClaim(old(client.server.s), s1, c);
      FuelFalls(old(client.server.s), s1, c);
      if !ok { return Erred; }
      if o.None? {
        end := CompleteOrAbort(c);
        return;
      }
      client.server.GoodNow();
      ReadDispatched(client.server.current, s1, c, o.value, v);
      match o.value.view.notes.phase
      case Fresh => end := AdvancePending(res, c, o.value);
      case Pending => end := AdvancePending(res, c, o.value);
      case Draining => end := AdvanceDraining(c, o.value);
      case Failed => end := AdvanceFailed(res, c, o.value);
      case Expired => end := AdvanceExpired(c);
    }

    /** A failed claim still anchored: terminal if it is being deleted, re-entered if
    every gate is open and its backoff is over, released with its pause otherwise. */
    method AdvanceFailed(res: Resolved, c: string, cand: ClaimObj) returns (end: PassEnd)
      requires client.Ready() && Dispatched(client.server.current, client.server.s, c, cand) && Calendar.Valid(res.schedule)
      requires client.server.current ==> Clean(client.server.s)
      modifies client, client.server
      ensures client.Ready() && client.server.errors >= old(client.server.errors)
      ensures end == Erred ==> client.server.errors > old(client.server.errors)
      ensures end.Released? ==> IsReleased(client.server.s, end.how)
      decreases Fuel(client.server.s, c), 0
    {
      hide Inv, Ok, Good, Steady, Quiet, Clean, ApiServer.Valid, After, ClaimActAllowed, MayEditClaim;
      if cand.view.deleting {
        end := ExpireFailed(c);
        return;
      }
      var now := client.server.s.now;
      var bounds := OccurrenceBounds(res.schedule, now);
      var up := client.server.MaybeFail();
      if !up { return Erred; }
      var fits: bool := *;
      var gate := Gate(res, client.pool, now);
      var why := Start(gate, cand.view, SelectionInputs(res, now, {}, bounds), res.staticPool, res.fatalFindings, fits);
      var due := Decide.StartGate(gate) == Decide.GateNone && !res.staticPool && !res.fatalFindings
                 && FailedPastBackoff(why.view, why.selection);
      if due && fits {
        MayReenter(client.server.current, client.server.s, c, cand, why);
        var ok, wrote, notes;
        ghost var before;
        ok, wrote, notes, before := client.PatchClaimIf(c, ReenterEdit(why));
        if !wrote.Wrote? {
          SteadyPool(old(client.server.s), client.server.s);
          return if ok then Waiting else Erred;
        }
        FuelSpent(old(client.server.s), before, client.server.s, c, wrote.act);
        end := Advance(res, c);
        return;
      }
      var ok := ReleaseAnchor(Repaired(cand.view.notes.failedAt));
      end := if ok then Released(Repaired(cand.view.notes.failedAt)) else Erred;
    }

    /** The backstop has reached a rolled-back claim. */
    method ExpireFailed(c: string) returns (end: PassEnd)
      requires client.Ready() && c in client.server.s.cells && SeenDeleting(client.server.s.cells[c])
      requires client.server.current ==> Pool(client.server.s).active == Some(c) && Clean(client.server.s)
      modifies client, client.server
      ensures client.Ready() && client.server.errors >= old(client.server.errors)
      ensures end == Erred ==> client.server.errors > old(client.server.errors)
      ensures end.Released? ==> end.how == Aborted && IsReleased(client.server.s, Aborted)
      ensures end == Waiting && client.server.current && Live(client.server.s, c) ==>
                client.server.s.cells[c].log != [] && NotesOf(client.server.s, c).phase !in {Phase.Failed, Phase.Expired}
    {
      hide Inv, Ok, Good, Steady, Quiet, Clean, ApiServer.Valid;
      var out := MarkExpired(c, true);
      if out == ExpiryFailed { return Erred; }
      if out == ExpiryGone || out == ExpiryRaced { return Waiting; }
      if out == ExpiryClaimed { client.Announce(Signal.Expired(c)); }
      var ok := ReleaseAnchor(Aborted);
      end := if ok then Released(Aborted) else Erred;
    }

    /** Records that the window opened, or settles one that closed; announced as lost
    exactly when this pass removed the stamp of a lost one. */
    method EvaluateWindowEdge(now: Time, inWindow: bool, census: Census) returns (ok: bool)
      requires client.Ready() && now <= client.server.s.now
      modifies client, client.server
      ensures client.Ready() && client.server.errors >= old(client.server.errors)
      ensures !ok ==> client.server.errors > old(client.server.errors)
      ensures CellsSteady(old(client.server.s), client.server.s) && old(client.server.s.now) <= client.server.s.now
      ensures var action := Decide.WindowEdge(old(client.pool), now, inWindow, census);
              ok && action !in {Decide.WindowNothing, Decide.WindowDefer} ==>
                || Decide.WindowEdge(client.pool, now, inWindow, census) != action
                || client.pool.openedAt != old(client.pool.openedAt)
    {
      hide Inv, Ok, Good, Steady, CellsSteady, After, PoolActAllowed, MayEditPool, ApiServer.Valid;
      client.server.GoodNow();
      NothingHappened(client.server.current, client.server.s);
      SteadyCells(client.server.s, client.server.s);
      var action := Decide.WindowEdge(client.pool, now, inWindow, census);
      var stamp := client.pool.openedAt;
      if action == Decide.WindowNothing || action == Decide.WindowDefer { return true; }
      MayEditWindow(client.server.current, client.server.s, now, inWindow, census, stamp, action);
      var act, prior;
      ghost var before;
      ok, act, prior, before := client.PatchPoolIf(WindowEdit(now, inWindow, census, stamp, action));
      if act.None? {
        SteadyPool(old(client.server.s), client.server.s);
        SteadyCells(old(client.server.s), client.server.s);
        return;
      }
      SteadyPool(old(client.server.s), before);
      SteadyCells(old(client.server.s), before);
      SameCells(old(client.server.s), before, client.server.s);
      if action == Decide.WindowMissed {
        client.Announce(Missed);
        SameCells(old(client.server.s), before, client.server.s);
      }
    }

    /** The candidate of a pool at rest: one exactly when the pool may rotate, every gate
    is open and some claim is eligible. */
    method ChooseCandidate(res: Resolved, gate: Decide.Inputs, views: seq<Claim>, sel: Inputs) returns (pick: Option<Claim>)
      ensures pick.Some? <==>
                && !res.staticPool && !res.fatalFindings
                && Decide.StartGate(gate) == Decide.GateNone
                && CountEligible(views, sel) > 0
      ensures pick.Some? ==> IsPick(views, sel, pick.value)
    {
      if res.staticPool { return None; }
      if res.fatalFindings { return None; }
      if Decide.StartGate(gate) != Decide.GateNone { return None; }
      pick := PickEarliestDeadlineEligible(views, sel);
    }

    /** Anchors the pick and starts its rotation, unless it needs a surge that does not
    fit; a conflict means someone else has touched the pool, and this pass yields. */
    method StartRotation(res: Resolved, pick: Claim, why: Start) returns (end: PassEnd)
      requires client.Ready() && client.pool.active.None? && Calendar.Valid(res.schedule)
      requires why.view == pick && why.gate.notes == client.pool && Startable(why, client.server.s.now)
      requires Eligible(pick, why.selection) && Listed(client.server.current, client.server.s, pick)
      modifies client, client.server
      ensures client.Ready() && client.server.errors >= old(client.server.errors)
      ensures end == Erred ==> client.server.errors > old(client.server.errors)
      ensures end.Released? ==> IsReleased(client.server.s, end.how)
      ensures !why.fits && !Decide.SurgelessFallback(pick, why.gate) ==> end == Waiting && client.server.s == old(client.server.s)
    {
      hide Inv, Ok, Good, Steady, CellsSteady, Startable, PermitsPool, Listed, ApiServer.Valid;
      var c := pick.name;
      var surgeless := Decide.SurgelessFallback(pick, why.gate);
      if !surgeless && !why.fits { return Waiting; }
      MayAnchor(client.server.current, client.server.s, client.version, c, why);
      var r := client.AnchorRotation(c, why);
      if r == Conflict { return Waiting; }
      if r == Fault { return Erred; }
      ListedKept(client.server.current, old(client.server.s), client.server.s, pick);
      ListedClaim(client.server.current, client.server.s, pick);
      if surgeless {
        end := StartForcefulFallback(c, pick, why.gate);
      } else {
        end := Advance(res, c);
      }
    }

    /** The claims as listed, and what selection is to work with. */
    method TakeStock(res: Resolved, now: Time) returns (ok: bool, views: seq<Claim>, sel: Inputs)
      requires client.Ready() && Calendar.Valid(res.schedule)
      modifies client, client.server
      ensures client.Ready() && client.pool == old(client.pool) && client.server.errors >= old(client.server.errors)
      ensures !ok ==> client.server.errors > old(client.server.errors)
      ensures AllListed(client.server.current, client.server.s, views)
      ensures sel.now == now && old(client.server.s.now) <= client.server.s.now
    {
      hide Inv, Ok, Good, Steady, Listed, AllListed, ApiServer.Valid;
      sel := SelectionInputs(res, now, {}, None);
      ok, views := client.ListClaims();
      SteadyPool(old(client.server.s), client.server.s);
      if !ok { return; }
      ok := client.server.MaybeFail();
      if !ok { return; }
      var excluded: set<string> := *;
      var bounds := None;
      if exists v <- views :: v.notes.phase == Phase.Failed {
        bounds := OccurrenceBounds(res.schedule, now);
      }
      sel := SelectionInputs(res, now, excluded, bounds);
    }

    /** One pass over a governed pool: the window first, then any rotation in flight, then
    a new one. */
    method ReconcileNodePool(res: Resolved) returns (end: PassEnd)
      requires client.Ready() && Calendar.Valid(res.schedule)
      modifies client, client.server
      ensures client.Ready() && client.server.errors >= old(client.server.errors)
      ensures end == Erred ==> client.server.errors > old(client.server.errors)
      ensures end.Released? ==> IsReleased(client.server.s, end.how)
    {
      hide Inv, Ok, Good, Steady, CellsSteady, Listed, AllListed, ApiServer.Valid;
      var now := client.server.s.now;
      var ok, views, sel := TakeStock(res, now);
      if !ok { return Erred; }
      var census := TakeCensus(views, sel);
      ghost var s1 := client.server.s;
      ok := EvaluateWindowEdge(now, InWindow(res.schedule, now), census);
      AllListedKept(client.server.current, s1, client.server.s, views);
      if !ok { return Erred; }
      if client.pool.active.Some? {
        client.server.GoodNow();
        ViewNames(client.server.current, client.server.s, client.version);
        end := Advance(res, client.pool.active.value);
      } else {
        end := MaybeStart(res, views, sel);
      }
    }

    /** A fresh start, if one is due and its surge fits. */
    method MaybeStart(res: Resolved, views: seq<Claim>, sel: Inputs) returns (end: PassEnd)
      requires client.Ready() && client.pool.active.None? && Calendar.Valid(res.schedule)
      requires AllListed(client.server.current, client.server.s, views)
      requires sel.now <= client.server.s.now
      modifies client, client.server
      ensures client.Ready() && client.server.errors >= old(client.server.errors)
      ensures end == Erred ==> client.server.errors > old(client.server.errors)
      ensures end.Released? ==> IsReleased(client.server.s, end.how)
    {
      hide Inv, Ok, Good, Steady, CellsSteady, Listed, ApiServer.Valid;
      var gate := Gate(res, client.pool, sel.now);
      var pick := ChooseCandidate(res, gate, views, sel);
      if pick.None? { return Waiting; }
      var fits := true;
      if !Decide.SurgelessFallback(pick.value, gate) {
        var ok := client.server.MaybeFail();
        if !ok { return Erred; }
        fits := *;
      }
      end := StartRotation(res, pick.value, Start(gate, pick.value, sel, res.staticPool, res.fatalFindings, fits));
    }

    /** One pass: a pool no policy governs has its rotation reaped. */
    method Reconcile(governing: Option<Resolved>) returns (end: PassEnd)
      requires client.Ready() && (governing.Some? ==> Calendar.Valid(governing.value.schedule))
      modifies client, client.server
      ensures client.Ready() && client.server.errors >= old(client.server.errors)
      ensures end == Erred ==> client.server.errors > old(client.server.errors)
      ensures end.Released? ==> IsReleased(client.server.s, end.how)
    {
      var ok := client.GetPool();
      if !ok { return Erred; }
      if governing.None? {
        end := ReapUngovernedRotation();
      } else {
        end := ReconcileNodePool(governing.value);
      }
    }
  }

  /** The controller over any number of passes, each under whatever policy then governs
  the pool, with the process stopping and restarting in between as it may. */
  method Operate(r: Reconciler, passes: seq<Option<Resolved>>)
    requires r.client.Ready() && forall p <- passes :: p.Some? ==> Calendar.Valid(p.value.schedule)
    modifies r.client, r.client.server
    ensures r.client.Ready()
  {
    for i := 0 to |passes|
      invariant r.client.Ready()
    {
      hide Inv, Ok, Good, Steady, ApiServer.Valid;
      ghost var s := r.client.server.s;
      r.client.server.Interfere();
      SteadyPool(s, r.client.server.s);
      var stops: bool := *;
      if stops { r.client.Restart(); }
      var end := r.Reconcile(passes[i]);
    }
  }
}
