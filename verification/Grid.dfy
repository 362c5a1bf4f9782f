/** The simulator's breach report on the clock's own grid, where it is complete, and off
it, where a breach can go unreported (internal/sim/loop.go). */
module Grid {
  import opened Clock
  import opened Options
  import opened Calendar
  import opened Weekly
  import opened Periods
  import opened Selection
  import opened Notes
  import opened Sim
  import opened Relay
  import opened Breaches
  import opened Simulator
  import Guarantee
  import Decide
  import Derivation
  import Promise

  // ----- on the grid nothing is missed -----

  predicate Whole(x: int) { x % MINUTE == 0 }

  predicate NodeOnGrid(n: SimNode) { Whole(n.Deadline()) && Whole(n.DrainCap()) }

  /** The world and the template in whole minutes. */
  predicate WholeWorld(cfg: Config) {
    && Whole(cfg.env.provisioning) && Whole(cfg.env.drain) && Whole(cfg.template.expireAfter)
    && (cfg.template.tgp.Some? ==> Whole(cfg.template.tgp.value))
  }

  /** Every deadline, and every instant of the rotation in flight, is a whole minute. */
  predicate OnGrid(s: RunState) {
    && (forall n <- s.nodes :: NodeOnGrid(n))
    && (forall g <- s.generations :: Whole(g.deadline))
    && (s.rot.Some? ==> Whole(s.rot.value.start) && Whole(s.rot.value.readyAt) && Whole(s.rot.value.doneAt))
  }

  lemma SumsAreWhole(a: int, b: int)
    requires Whole(a) && Whole(b)
    ensures Whole(a + b)
  {
  }

  lemma AdvancedOnGrid(cfg: Config, s: RunState, t: Time)
    requires WholeWorld(cfg) && Indexed(s) && OnGrid(s)
    ensures OnGrid(Advanced(cfg, s, t))
  {
    hide Whole, SimNode.Name, EligibilityBoundary;
    var m := SurgeReadied(s, t);
    ReadiedOnGrid(s, t);
    if m.rot.Some? && m.rot.value.doneAt <= t {
      var next := Replacement(cfg, m.nodes[m.rot.value.slot], m.rot.value);
      SumsAreWhole(next.createdAt, next.expireAfter);
      TemplateCapIsWhole(cfg, next);
      hide SimNode.Deadline, SimNode.DrainCap, SurgeReadied;
      assert NodeOnGrid(next);
    }
  }

  lemma ReadiedOnGrid(s: RunState, t: Time)
    requires Indexed(s) && OnGrid(s)
    ensures OnGrid(SurgeReadied(s, t))
  {
    hide Whole, SimNode.Name;
    var m := SurgeReadied(s, t);
    if m != s {
      assert s.nodes[s.rot.value.slot] in s.nodes && s.generations[s.rot.value.genIdx.value] in s.generations;
      assert NodeOnGrid(m.nodes[s.rot.value.slot]);
    }
  }

  lemma TemplateCapIsWhole(cfg: Config, n: SimNode)
    requires WholeWorld(cfg) && n.tgp == cfg.template.tgp
    ensures Whole(n.DrainCap())
  {
  }

  lemma CheckedOnGrid(s: RunState, t: Time)
    requires OnGrid(s)
    ensures OnGrid(Checked(s, |s.nodes|, t))
  {
    hide Whole;
    var c := Checked(s, |s.nodes|, t);
    CheckedNodes(s, |s.nodes|, t);
    forall n <- c.nodes
      ensures NodeOnGrid(n)
    {
      var i :| 0 <= i < |c.nodes| && c.nodes[i] == n;
      assert s.nodes[i] in s.nodes;
    }
  }

  lemma BegunOnGrid(cfg: Config, s: RunState, slot: nat, surgeless: bool, t: Time)
    requires WholeWorld(cfg) && Indexed(s) && OnGrid(s) && slot < |s.nodes| && Whole(t)
    ensures OnGrid(RotationBegun(cfg, s, slot, surgeless, t))
  {
    hide Whole, SimNode.Name, EligibilityBoundary, DrainDiagnosed;
    var n, drain := s.nodes[slot], DrainFor(cfg, s.nodes[slot]);
    assert n in s.nodes && NodeOnGrid(n) && Whole(drain);
    var u := RotationBegun(cfg, s, slot, surgeless, t);
    assert NodeOnGrid(u.nodes[slot]);
    SumsAreWhole(t, drain);
    SumsAreWhole(t, cfg.env.provisioning);
    SumsAreWhole(t + cfg.env.provisioning, drain);
    SumsAreWhole(t, cfg.template.expireAfter);
  }

  lemma StartedOnGrid(cfg: Config, s: RunState, t: Time, open: bool)
    requires WholeWorld(cfg) && Indexed(s) && s.rot.None? && OnGrid(s) && Whole(t)
    ensures OnGrid(Started(cfg, s, t, open))
  {
    hide Whole, NodeOnGrid, Candidate, Decide.StartGate, Decide.SurgelessFallback, CensusOf, RotationBegun;
    var gates, c := GateInputs(cfg, s, t, open), Candidate(cfg, s, t);
    if c.Some? {
      BegunOnGrid(cfg, CensusFlushed(BlockedFlushed(s, t), t), c.value.slot, Decide.SurgelessFallback(c.value.pick, gates), t);
    }
  }

  lemma ProcessedOnGrid(cfg: Config, s: RunState, wasOpen: bool, t: Time)
    requires WholeWorld(cfg) && Indexed(s) && OnGrid(s) && Whole(t)
    ensures OnGrid(Processed(cfg, s, wasOpen, t))
  {
    var w := WindowTurned(cfg, s, wasOpen, t);
    assert OnGrid(w);
    hide Whole, OnGrid, WindowTurned, Advanced, Checked, Started, InWindow;
    AdvancedOnGrid(cfg, w, t);
    var a := Advanced(cfg, w, t);
    CheckedOnGrid(a, t);
    var c := Checked(a, |a.nodes|, t);
    if c.rot.None? { StartedOnGrid(cfg, c, t, InWindow(cfg.schedule, t)); }
  }

  lemma NextOnGrid(s: RunState, now: Time)
    requires OnGrid(s)
    ensures Whole(NextInstant(s, now))
  {
  }

  lemma {:induction false} RunOnGrid(cfg: Config, s: RunState, wasOpen: bool, now: Time, last: Time, steps: nat)
    requires WholeWorld(cfg) && Indexed(s) && OnGrid(s) && Whole(now)
    ensures OnGrid(RunFrom(cfg, s, wasOpen, now, last, steps).s)
    decreases MAX_STEPS - steps
  {
    hide Whole, NodeOnGrid, Processed, InWindow, NextInstant, Diagnosed;
    if now <= cfg.end && steps < MAX_STEPS {
      var t := Processed(cfg, s, wasOpen, now);
      ProcessedOnGrid(cfg, s, wasOpen, now);
      NextOnGrid(t, now);
      RunOnGrid(cfg, t, InWindow(cfg.schedule, now), NextInstant(t, now), now, steps + 1);
    }
  }

  /** With the world, the fleet and the horizon in whole minutes every real breach of a
  generation is reported: those still in their slot at their deadline, and those a
  rotation retired too late. */
  lemma OnTheGridAllReported(cfg: Config, diagnostics: seq<Diagnostic>)
    requires Durations(cfg, InitialNodes(cfg.template)) && cfg.start <= cfg.end
    requires WholeWorld(cfg) && Whole(cfg.start) && forall n <- InitialNodes(cfg.template) :: NodeOnGrid(n)
    ensures var t, through := Ran(cfg, InitialState(cfg, diagnostics)), SimulatedThrough(cfg, diagnostics);
            forall g <- t.generations :: !g.provisional ==>
              (HasBreach(t.events, g.slot, g.gen) <==> g.deadline <= through && NotRotatedInTime(t.rotations, g))
  {
    hide NodeOnGrid, HasBreach, Observed, Serial, InWindow, Durations, InOrder, Diagnosed, RunFrom, LastCheck, Late, Consecutive,
         GenerationOf, Whole, InitialNodes;
    var s := Opened(cfg, InitialState(cfg, diagnostics));
    InitialOnGrid(cfg, diagnostics);
    RunOnGrid(cfg, s, InWindow(cfg.schedule, cfg.start), cfg.start, cfg.start, 0);
    var e := RunFrom(cfg, s, InWindow(cfg.schedule, cfg.start), cfg.start, cfg.start, 0);
    var t, through := Ran(cfg, InitialState(cfg, diagnostics)), SimulatedThrough(cfg, diagnostics);
    assert t.generations == e.s.generations;
    assert forall g <- t.generations :: Whole(g.deadline);
    hide Ran, SimulatedThrough, OnGrid, Opened, InitialState;
    BreachesReported(cfg, diagnostics);
    BreachMissedExactlyWhen(cfg, diagnostics);
    forall g <- t.generations | !g.provisional && g.deadline <= through && NotRotatedInTime(t.rotations, g)
      ensures HasBreach(t.events, g.slot, g.gen)
    {
      if r :| r in t.rotations && Retires(r, g) {
        assert Late(g.deadline, r);
        WholeDeadline(g.deadline, r);
      }
    }
  }

  lemma WholeDeadline(deadline: Time, r: Rotation)
    requires Whole(deadline) && r.done.Some?
    ensures deadline < r.done.value ==> !(forall x :: deadline <= x < r.done.value ==> x % MINUTE != 0)
  {
  }

  lemma InitialOnGrid(cfg: Config, diagnostics: seq<Diagnostic>)
    requires forall n <- InitialNodes(cfg.template) :: NodeOnGrid(n)
    ensures OnGrid(Opened(cfg, InitialState(cfg, diagnostics)))
  {
    hide InWindow, Diagnosed, Whole, InitialNodes;
    var nodes := InitialNodes(cfg.template);
    forall g <- InitialGenerations(cfg, nodes)
      ensures Whole(g.deadline)
    {
      var i :| 0 <= i < |nodes| && g == GenerationOf(cfg, i, nodes[i], Initial, None, false);
      assert nodes[i] in nodes;
    }
  }

  // ----- off the grid a breach can go unreported -----

  /** Open every day but for its last minute, with the surge-less fallback enabled. */
  function DailyPolicy(): Policy {
    Policy([Entry(Zone(0, []), [0, 1, 2, 3, 4, 5, 6], 0, 1439)], 900, 600, None, 3600, None, None, true, 1, 1, None)
  }

  /** One node, half a minute before its expiry. */
  function OldNode(): Fleet {
    Fleet(200_000, None, [NodeSpec("a", -199_970, None, None)])
  }

  const OFF_GRID: Env := Env(60, 45)

  lemma DailyCalendar()
    ensures Fixed(DailyPolicy().schedule) && ValidPolicy(DailyPolicy())
    ensures InWindow(DailyPolicy().schedule, 0) && InWindow(DailyPolicy().schedule, 45)
    ensures forall k: int :: Opens(Members(DailyPolicy().schedule), k * DAY)
  {
    var s := DailyPolicy().schedule;
    forall t
      ensures InWindow(s, t) <==> t % DAY / MINUTE < 1439
    {
      assert Open(s[0], t) <==> t % DAY / MINUTE < 1439;
    }
    forall k: int
      ensures Opens(Members(s), k * DAY)
    {
      assert (k * DAY) % DAY == 0 && (k * DAY - 1) % DAY == DAY - 1;
      assert InWindow(s, k * DAY) && !InWindow(s, k * DAY - 1);
    }
  }

  /** Whatever the resolution computes for it, the period is at most a day. */
  lemma DailyPeriod(p: int)
    requires Promise.ReportedPeriod(Members(DailyPolicy().schedule), p)
    ensures 0 < p <= DAY
  {
    var w := Members(DailyPolicy().schedule);
    DailyCalendar();
    assert Opens(w, 0 * DAY);
    assert !NeverCloses(w) && IsWorstPeriod(w, p);
    var t :| NoneSooner(w, t, p);
    var x := (t / DAY + 1) * DAY;
    assert t < x <= t + DAY && Opens(w, x);
    assert HoldsOpening(w, t, DAY);
  }

  /** A configuration the simulator makes of that policy and fleet, over the 45 seconds
  the drain takes. */
  ghost predicate OffGridConfig(cfg: Config) {
    Simulates(DailyPolicy(), OldNode(), OFF_GRID, 0, 45, cfg)
  }

  /** There is one: the period of that calendar is a day. */
  lemma OffGridConfigExists() returns (cfg: Config)
    ensures OffGridConfig(cfg)
  {
    var p := DailyPolicy();
    DailyCalendar();
    DayIsThePeriod();
    var res := Resolution(p, OldNode(), DAY, DAY - MINUTE, Some(MINUTE));
    hide Fixed, InWindow, Promise.ReportedPeriod, NeverOpens, Derivation.Derive;
    assert Members(p.schedule)(0);
    SometimesOpen(Members(p.schedule), 0);
    cfg := Config(p.schedule, p.fallbackEnabled, res, ResolvedEnv(OFF_GRID, res), 0, 45, OldNode());
  }

  lemma DayIsThePeriod()
    ensures Promise.ReportedPeriod(Members(DailyPolicy().schedule), DAY)
  {
    var w := Members(DailyPolicy().schedule);
    DailyCalendar();
    assert Opens(w, 0 * DAY);
    forall t
      ensures HoldsOpening(w, t, DAY)
    {
      var x := (t / DAY + 1) * DAY;
      assert t < x <= t + DAY && Opens(w, x);
    }
    forall q | q < DAY
      ensures !HoldsOpening(w, 0, q)
    {
      forall x | 0 < x <= q
        ensures !Opens(w, x)
      {
        OpensAtMidnight(x);
      }
    }
    assert NoneSooner(w, 0, DAY);
  }

  lemma OpensAtMidnight(x: Time)
    requires 0 < x < DAY
    ensures !Opens(Members(DailyPolicy().schedule), x)
  {
    var s := DailyPolicy().schedule;
    assert Open(s[0], x - 1) <==> (x - 1) / MINUTE < 1439;
    assert Open(s[0], x) <==> x / MINUTE < 1439;
  }

  lemma SometimesOpen(w: Membership, t: Time)
    requires w(t)
    ensures !NeverOpens(w)
  {
  }

  /** What the run reads of it: no fatal finding, and a node that is due at once. */
  lemma OffGridAccepted(cfg: Config)
    requires OffGridConfig(cfg)
    ensures !Derivation.HasFatal(cfg.res.derived.findings)
    ensures cfg.schedule == DailyPolicy().schedule && cfg.env == OFF_GRID && cfg.start == 0 && cfg.end == 45 && cfg.template == OldNode()
    ensures cfg.fallbackEnabled && cfg.res.override.None? && cfg.res.readyTimeout == 900 && 0 <= cfg.res.drainBound
    ensures 900 <= cfg.res.leadTime.base && cfg.res.leadTime.drainFallback == Derivation.DRAIN_FALLBACK
  {
    hide Derivation.Derive, Derivation.HasFatal, Fixed, NeverOpens, InWindow, Promise.ReportedPeriod;
    DailyCalendar();
    var w := Members(DailyPolicy().schedule);
    assert w(0);
    SometimesOpen(w, 0);
    DailyPeriod(cfg.res.inputs.period);
    Derivation.AcceptedExactlyWhen(cfg.res.inputs);
  }

  function OffGridNode(): SimNode { SimNode("a", 0, -199_970, 200_000, None, Fresh, false) }

  lemma OffGridInitial(cfg: Config)
    requires OffGridConfig(cfg)
    ensures var s := Opened(cfg, InitialState(cfg, []));
            && s.nodes == [OffGridNode()] && s.rot.None? && s.rotations == [] && s.lastRotationAt.None?
            && |s.generations| == 1 && s.generations[0].slot == 0 && s.generations[0].gen == 0
            && s.generations[0].deadline == 30 && !s.generations[0].provisional
    ensures Durations(cfg, InitialNodes(cfg.template))
  {
    OffGridAccepted(cfg);
    hide OffGridConfig, InWindow, Diagnosed, Derivation.FirstFatal, Derivation.HasFatal, EligibilityBoundary;
    assert InitialNodes(cfg.template) == [OffGridNode()];
  }

  lemma PickOfOne(c: Claim, i: Selection.Inputs)
    requires Eligible(c, i)
    ensures Pick([c], i) == Some(c)
  {
    hide Eligible;
    assert [c][..0] == [];
    assert Pick([], i) == None;
  }

  lemma OffGridDue(cfg: Config)
    requires OffGridConfig(cfg)
    ensures Eligible(ViewOf(OffGridNode()), Sim.SelectionInputs(cfg, 0))
  {
    OffGridAccepted(cfg);
  }

  /** It is picked, and there is no time left for a surge. */
  lemma OffGridPick(cfg: Config, s: RunState)
    requires OffGridConfig(cfg) && s.nodes == [OffGridNode()]
    ensures Candidate(cfg, s, 0) == Some(Chosen(0, ViewOf(OffGridNode())))
    ensures Decide.SurgelessFallback(ViewOf(OffGridNode()), GateInputs(cfg, s, 0, true))
  {
    OffGridAccepted(cfg);
    OffGridDue(cfg);
    hide OffGridConfig, InWindow, Derivation.HasFatal, Eligible, Pick;
    PickOfOne(ViewOf(OffGridNode()), Sim.SelectionInputs(cfg, 0));
    assert Views(s.nodes) == [ViewOf(OffGridNode())];
    assert SlotOf(s.nodes, OffGridNode().Name(), 0) == 0;
  }

  /** The first instant starts the rotation, to be done at 45. */
  lemma OffGridStart(cfg: Config, s: RunState)
    requires OffGridConfig(cfg) && Indexed(s) && s.nodes == [OffGridNode()] && s.rot.None? && s.rotations == [] && s.lastRotationAt.None?
    ensures var u := Processed(cfg, s, true, 0);
            && |u.nodes| == 1 && u.nodes[0] == OffGridNode().(phase := Draining) && u.generations == s.generations
            && u.rot == Some(InFlight(0, 0, 0, 45, true, 0, None)) && u.rotations == [Rotation(0, 0, None, true, 0, None, None)]
            && NextInstant(u, 0) == 45
  {
    OffGridAccepted(cfg);
    DailyCalendar();
    OffGridPick(cfg, s);
    hide OffGridConfig, InWindow, Derivation.HasFatal, Candidate, Decide.SurgelessFallback;
    Guarantee.CheckFindsNothing(s, 0);
  }

  /** The second completes it, before any check. */
  lemma OffGridDone(cfg: Config, s: RunState)
    requires OffGridConfig(cfg) && Indexed(s) && s.nodes == [OffGridNode().(phase := Draining)]
    requires s.rot == Some(InFlight(0, 0, 0, 45, true, 0, None)) && s.rotations == [Rotation(0, 0, None, true, 0, None, None)]
    ensures var u := Processed(cfg, s, true, 45);
            && s.generations <= u.generations && |u.rotations| >= 1 && u.rotations[0] == Rotation(0, 0, Some(1), true, 0, None, Some(45))
            && 45 < NextInstant(u, 45)
  {
    OffGridAccepted(cfg);
    DailyCalendar();
    hide OffGridConfig, InWindow, Advanced, Started, Checked, NextInstant;
    assert WindowTurned(cfg, s, true, 45) == s;
    OffGridCompleted(cfg, s);
    var a := Advanced(cfg, s, 45);
    StartedKeeps(cfg, Checked(a, |a.nodes|, 45), 45, true);
    ClockAdvances(Processed(cfg, s, true, 45), 45);
  }

  lemma OffGridCompleted(cfg: Config, s: RunState)
    requires Indexed(s) && s.nodes == [OffGridNode().(phase := Draining)]
    requires s.rot == Some(InFlight(0, 0, 0, 45, true, 0, None)) && s.rotations == [Rotation(0, 0, None, true, 0, None, None)]
    ensures var a := Advanced(cfg, s, 45);
            && a.rot.None? && s.generations <= a.generations && |a.rotations| == 1
            && a.rotations[0] == Rotation(0, 0, Some(1), true, 0, None, Some(45))
  {
    hide GenerationOf, SimNode.Name;
    assert SurgeReadied(s, 45) == s;
  }

  lemma StartedKeeps(cfg: Config, s: RunState, t: Time, open: bool)
    requires Indexed(s) && s.rot.None?
    ensures s.generations <= Started(cfg, s, t, open).generations && s.rotations <= Started(cfg, s, t, open).rotations
  {
    hide Candidate, Decide.StartGate, Decide.SurgelessFallback, CensusOf, GenerationOf, DrainDiagnosed, DrainFor;
  }

  lemma RunSteps(cfg: Config, s: RunState, wasOpen: bool, now: Time, last: Time, steps: nat)
    requires Indexed(s) && now <= cfg.end && steps < MAX_STEPS
    ensures RunFrom(cfg, s, wasOpen, now, last, steps)
            == RunFrom(cfg, Processed(cfg, s, wasOpen, now), InWindow(cfg.schedule, now), NextInstant(Processed(cfg, s, wasOpen, now), now),
                       now, steps + 1)
  {
    hide Processed, InWindow, NextInstant;
  }

  lemma RunStops(cfg: Config, s: RunState, wasOpen: bool, now: Time, last: Time, steps: nat)
    requires Indexed(s) && cfg.end < now
    ensures RunFrom(cfg, s, wasOpen, now, last, steps) == LoopEnd(s, last, false)
  {
  }

  /** The run processes 0 and 45 and ends. */
  lemma OffGridRun(cfg: Config) returns (v: RunState)
    requires OffGridConfig(cfg)
    ensures Indexed(v)
    ensures RunFrom(cfg, Opened(cfg, InitialState(cfg, [])), InWindow(cfg.schedule, 0), 0, 0, 0) == LoopEnd(v, 45, false)
    ensures |v.generations| > 0 && |v.rotations| > 0
    ensures var g, r := v.generations[0], v.rotations[0];
            && !g.provisional && g.deadline == 30 && g.slot == 0 && g.gen == 0
            && r == Rotation(0, 0, Some(1), true, 0, None, Some(45))
  {
    OffGridAccepted(cfg);
    DailyCalendar();
    OffGridInitial(cfg);
    var s := Opened(cfg, InitialState(cfg, []));
    OffGridStart(cfg, s);
    var u := Processed(cfg, s, true, 0);
    OffGridDone(cfg, u);
    v := Processed(cfg, u, true, 45);
    hide OffGridConfig, InWindow, Processed, Opened, InitialState, NextInstant, RunFrom, Derivation.HasFatal;
    RunSteps(cfg, s, true, 0, 0, 0);
    RunSteps(cfg, u, true, 45, 0, 1);
    RunStops(cfg, v, true, NextInstant(v, 45), 45, 2);
  }

  /** The two records the report is about. */
  lemma OffGridRecords(cfg: Config)
    requires OffGridConfig(cfg)
    ensures var t := Ran(cfg, InitialState(cfg, []));
            && |t.generations| > 0 && |t.rotations| > 0
            && t.rotations[0] == Rotation(0, 0, Some(1), true, 0, None, Some(45))
            && var g := t.generations[0]; !g.provisional && g.deadline == 30 && g.slot == 0 && g.gen == 0
  {
    OffGridAccepted(cfg);
    var v := OffGridRun(cfg);
    hide OffGridConfig, InWindow, Opened, InitialState, RunFrom, Checked, BlockedFlushed, CensusFlushed;
    assert Ran(cfg, InitialState(cfg, [])) == Swept(v, 45);
  }

  /** An accepted call whose timeline misses a breach. The node expires at 30; its
  rotation starts at 0 and is done at 45; the clock goes from the one to the other, and
  the completion replaces the node before the check. */
  lemma OffGridBreachMissed(cfg: Config)
    requires OffGridConfig(cfg)
    ensures !Derivation.HasFatal(cfg.res.derived.findings)
    ensures var t := Ran(cfg, InitialState(cfg, []));
            && |t.generations| > 0 && |t.rotations| > 0
            && var g, r := t.generations[0], t.rotations[0];
               && !g.provisional && g.deadline == 30 && r.start == 0 && r.done == Some(45)
               && Retires(r, g) && Late(g.deadline, r) && !HasBreach(t.events, g.slot, g.gen)
  {
    hide OffGridConfig, Ran, RunFrom, Opened, SimulatedThrough, Derivation.HasFatal, HasBreach, InitialNodes, InitialGenerations, Durations,
         LastCheck, OldNode, DailyPolicy, Retires, Late;
    OffGridAccepted(cfg);
    OffGridInitial(cfg);
    OffGridRecords(cfg);
    BreachesReported(cfg, []);
    var t := Ran(cfg, InitialState(cfg, []));
    OffGridVerdict(cfg, t.generations[0], t.rotations[0]);
    assert t.generations[0] in t.generations && t.rotations[0] in t.rotations;
  }

  lemma OffGridVerdict(cfg: Config, g: Generation, r: Rotation)
    requires g.deadline == 30 && g.slot == 0 && g.gen == 0 && r == Rotation(0, 0, Some(1), true, 0, None, Some(45))
    ensures Retires(r, g) && Late(g.deadline, r) && !(g.deadline <= LastCheck(cfg, r))
  {
  }
}
