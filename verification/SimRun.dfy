/** The simulator's run as the code keeps it: one object whose fields its methods update
in place, each brought to the state the function of Sim describes
(internal/sim/sim.go, internal/sim/loop.go, internal/sim/resolve.go). */
module SimRun {
  import opened Clock
  import opened Options
  import opened Notes
  import opened Calendar
  import opened Selection
  import opened Sim
  import Decide
  import Derivation

  class Run {
    const cfg: Config
    var nodes: seq<SimNode>
    var lastRotationAt: Option<Time>
    var rot: Option<InFlight>
    var events: seq<Event>
    var generations: seq<Generation>
    var rotations: seq<Rotation>
    var windows: seq<WindowInterval>
    var diagnostics: seq<Diagnostic>
    var blocked: Option<BlockedSince>
    var census: Option<CensusSince>
    var winOpen: bool

    function State(): RunState
      reads this
    {
      RunState(nodes, lastRotationAt, rot, events, generations, rotations, windows, diagnostics, blocked, census, winOpen)
    }

    /** A run with its initial fleet recorded. */
    constructor (cfg: Config, diagnostics: seq<Diagnostic>)
      ensures this.cfg == cfg && State() == InitialState(cfg, diagnostics)
    {
      this.cfg, this.diagnostics := cfg, diagnostics;
      nodes, lastRotationAt, rot, events, generations := [], None, None, [], [];
      rotations, windows, blocked, census, winOpen := [], [], None, None, false;
      new;
      for i := 0 to |cfg.template.nodes|
        invariant State() == InitialState(cfg, diagnostics).(nodes := InitialNodes(cfg.template)[..i], generations := [])
      {
        var n := cfg.template.nodes[i];
        var expireAfter, tgp := cfg.template.expireAfter, cfg.template.tgp;
        if n.expireAfter.Some? { expireAfter := n.expireAfter.value; }
        if n.tgp.Some? { tgp := n.tgp; }
        nodes := nodes + [SimNode(n.name, 0, n.createdAt, expireAfter, tgp, Fresh, false)];
      }
      assert nodes == InitialNodes(cfg.template);
      for i := 0 to |nodes|
        invariant nodes == InitialNodes(cfg.template)
        invariant State() == InitialState(cfg, diagnostics).(generations := InitialGenerations(cfg, nodes)[..i])
      {
        var _ := RecordGeneration(i, nodes[i], Initial, None, false);
      }
      assert generations == InitialGenerations(cfg, nodes);
    }

    method Emit(e: Event)
      modifies this`events
      ensures State() == Emitted(old(State()), e)
    {
      events := events + [e];
    }

    method DiagOnce(d: Diagnostic)
      modifies this`diagnostics
      ensures State() == Diagnosed(old(State()), d)
    {
      for i := 0 to |diagnostics|
        invariant d !in diagnostics[..i]
      {
        if diagnostics[i] == d { return; }
      }
      diagnostics := diagnostics + [d];
    }

    method RecordGeneration(slot: nat, n: SimNode, birth: Birth, predecessor: Option<nat>, provisional: bool) returns (index: nat)
      modifies this`generations
      ensures State() == Recorded(old(State()), GenerationOf(cfg, slot, n, birth, predecessor, provisional))
      ensures index == |old(generations)|
    {
      var boundary := EligibilityBoundary(cfg, n);
      generations := generations + [Generation(slot, n.gen, n.Name(), birth, predecessor, n.createdAt, n.expireAfter, n.DrainCap(),
                                               n.tgp.Some?, n.Deadline(), boundary, None, provisional)];
      index := |generations| - 1;
    }

    method OpenWindow(at: Time)
      modifies this`windows, this`winOpen
      ensures State() == WindowOpenedAt(cfg, old(State()), at)
    {
      var clipped := InWindow(cfg.schedule, at) && InWindow(cfg.schedule, at - 1);
      windows := windows + [WindowInterval(at, None, clipped, false)];
      winOpen := true;
    }

    method CloseWindow(at: Time, clipped: bool)
      requires winOpen ==> windows != []
      modifies this`windows, this`winOpen
      ensures State() == WindowClosedAt(old(State()), at, clipped)
    {
      if !winOpen { return; }
      var k := |windows| - 1;
      windows := windows[k := windows[k].(end := Some(at), endClipped := clipped)];
      winOpen := false;
    }

    method FlushBlocked(at: Time)
      modifies this`events, this`blocked
      ensures State() == BlockedFlushed(old(State()), at)
    {
      if blocked.None? { return; }
      Emit(Blocked(blocked.value.from, at, blocked.value.gate));
      blocked := None;
    }

    method RecordBlocked(now: Time, gate: Decide.Gate)
      modifies this`events, this`blocked
      ensures State() == BlockedRecorded(old(State()), now, gate)
    {
      if blocked.Some? && blocked.value.gate == gate { return; }
      FlushBlocked(now);
      blocked := Some(BlockedSince(now, gate));
    }

    method FlushCensus(at: Time)
      modifies this`events, this`census
      ensures State() == CensusFlushed(old(State()), at)
    {
      if census.None? { return; }
      Emit(NoneEligible(census.value.from, at, census.value.census));
      census := None;
    }

    method RecordCensus(now: Time, c: Census)
      modifies this`events, this`census
      ensures State() == CensusRecorded(old(State()), now, c)
    {
      if census.Some? && census.value.census == c { return; }
      FlushCensus(now);
      census := Some(CensusSince(now, c));
    }

    method Advance(now: Time)
      requires Indexed(State())
      modifies this
      ensures State() == Advanced(cfg, old(State()), now)
    {
      if rot.None? { return; }
      MarkReady(now);
      if rot.value.doneAt <= now { Complete(); }
    }

    /** The surge node is ready: the old claim is deleted and starts draining. */
    method MarkReady(now: Time)
      requires Indexed(State()) && rot.Some?
      modifies this
      ensures State() == SurgeReadied(old(State()), now)
    {
      var r := rot.value;
      var n := nodes[r.slot];
      if !r.surgeless && n.phase == Pending && r.readyAt <= now {
        nodes := nodes[r.slot := n.(phase := Draining)];
        Emit(NodeReady(r.readyAt, n.Name()));
        rotations := rotations[r.rotIdx := rotations[r.rotIdx].(ready := Some(r.readyAt))];
        generations := generations[r.genIdx.value := generations[r.genIdx.value].(readyAt := Some(r.readyAt))];
      }
    }

    /** The old node has drained: its replacement takes the slot. */
    method Complete()
      requires Indexed(State()) && rot.Some?
      modifies this
      ensures State() == RotationCompleted(cfg, old(State()), old(rot.value.doneAt))
    {
      var r := rot.value;
      var n := nodes[r.slot];
      var createdAt := r.start;
      if r.surgeless { createdAt := r.doneAt; }
      var next := SimNode(n.base, n.gen + 1, createdAt, cfg.template.expireAfter, cfg.template.tgp, Fresh, false);
      nodes := nodes[r.slot := next];
      lastRotationAt := Some(r.doneAt);
      Emit(RotationDone(r.doneAt, n.Name(), next.Name(), r.surgeless));
      rotations := rotations[r.rotIdx := rotations[r.rotIdx].(done := Some(r.doneAt))];
      if r.surgeless {
        var _ := RecordGeneration(r.slot, next, BornSurgeless, Some(n.gen), false);
        rotations := rotations[r.rotIdx := rotations[r.rotIdx].(toGen := Some(next.gen))];
      } else {
        generations := generations[r.genIdx.value := generations[r.genIdx.value].(provisional := false)];
      }
      rot := None;
    }

    method BreachCheck(now: Time)
      modifies this`nodes, this`events
      ensures State() == Checked(old(State()), |old(nodes)|, now)
    {
      for i := 0 to |nodes|
        invariant |nodes| == |old(nodes)| && State() == Checked(old(State()), i, now)
      {
        var n := nodes[i];
        if !n.breached {
          if n.Deadline() <= now {
            nodes := nodes[i := n.(breached := true)];
            Emit(Breached(n.Deadline(), n.Name(), i, n.gen));
          }
        }
      }
    }

    method MakeViews() returns (views: seq<Claim>)
      ensures views == Views(nodes)
    {
      views := [];
      for i := 0 to |nodes|
        invariant views == Views(nodes)[..i]
      {
        var n := nodes[i];
        var c := Claim(n.Name(), n.createdAt, false, Some(n.expireAfter), n.tgp, true, NO_CLAIM_NOTES);
        if n.phase != Fresh {
          c := c.(notes := NO_CLAIM_NOTES.(phase := n.phase));
        }
        views := views + [c];
      }
    }

    /** The first slot of this name; the number of slots when there is none. */
    method FindSlot(name: string) returns (slot: nat)
      ensures slot == SlotOf(nodes, name, 0)
    {
      for i := 0 to |nodes|
        invariant SlotOf(nodes, name, 0) == SlotOf(nodes, name, i)
      {
        if nodes[i].Name() == name { return i; }
      }
      return |nodes|;
    }

    method MaybeStart(now: Time, inWindow: bool)
      requires Indexed(State()) && rot.None?
      modifies this
      ensures State() == Started(cfg, old(State()), now, inWindow)
    {
      if Derivation.HasFatal(cfg.res.derived.findings) { return; }
      var gates := GateInputs(cfg, State(), now, inWindow);
      var gate := Decide.StartGate(gates);
      if gate != Decide.GateNone {
        FlushCensus(now);
        RecordBlocked(now, gate);
        return;
      }
      FlushBlocked(now);
      var views := MakeViews();
      var sel := Sim.SelectionInputs(cfg, now);
      var pick := PickEarliestDeadlineEligible(views, sel);
      if pick.None? {
        var c := TakeCensus(views, sel);
        RecordCensus(now, c);
        return;
      }
      FlushCensus(now);
      var slot := FindSlot(pick.value.name);
      PickHasASlot(nodes, sel, pick.value);
      Begin(slot, Decide.SurgelessFallback(pick.value, gates), now);
    }

    /** How long the drain of a node takes, noting a value no drain can reach. */
    method ResolveDrain(n: SimNode) returns (drain: int)
      modifies this`diagnostics
      ensures drain == DrainFor(cfg, n) && State() == DrainDiagnosed(cfg, old(State()), n)
    {
      if cfg.env.drain > n.DrainCap() {
        DiagOnce(EnvDrainAboveTGP(n.Name(), n.DrainCap()));
        return n.DrainCap();
      }
      return cfg.env.drain;
    }

    /** The start proper: the records of the rotation and, behind a surge, of its
    provisional replacement. */
    method Begin(slot: nat, surgeless: bool, now: Time)
      requires Indexed(State()) && slot < |nodes|
      modifies this
      ensures State() == RotationBegun(cfg, old(State()), slot, surgeless, now)
    {
      hide Indexed, Diagnosed, EligibilityBoundary;
      var n := nodes[slot];
      var drain := ResolveDrain(n);
      var rec := Rotation(slot, n.gen, None, surgeless, now, None, None);
      var flight := InFlight(slot, now, now, now + drain, surgeless, |rotations|, None);
      if surgeless {
        nodes := nodes[slot := n.(phase := Draining)];
      } else {
        nodes := nodes[slot := n.(phase := Pending)];
        var readyAt := now + cfg.env.provisioning;
        var next := SimNode(n.base, n.gen + 1, now, cfg.template.expireAfter, cfg.template.tgp, Fresh, false);
        var index := RecordGeneration(slot, next, BornBySurge, Some(n.gen), true);
        flight := flight.(readyAt := readyAt, doneAt := readyAt + drain, genIdx := Some(index));
        rec := rec.(toGen := Some(next.gen));
      }
      rotations := rotations + [rec];
      rot := Some(flight);
      Emit(RotationStarted(now, n.Name(), surgeless));
    }

    method Next(now: Time) returns (next: Time)
      ensures next == NextInstant(State(), now)
    {
      next := FloorMinute(now) + TICK;
      if rot.Some? {
        if !rot.value.surgeless && now < rot.value.readyAt && rot.value.readyAt < next {
          next := rot.value.readyAt;
        }
        if now < rot.value.doneAt && rot.value.doneAt < next {
          next := rot.value.doneAt;
        }
      }
    }

    /** What the horizon's start shows: a fatal schedule, and a window already open. */
    method OpenHorizon()
      requires Indexed(State())
      modifies this
      ensures State() == Opened(cfg, old(State()))
    {
      var fatal := Derivation.FirstFatal(cfg.res.derived.findings);
      if fatal.Some? { DiagOnce(FatalSchedule(fatal.value.code)); }
      if InWindow(cfg.schedule, cfg.start) {
        Emit(WindowOpened(cfg.start));
        OpenWindow(cfg.start);
      }
    }

    /** The horizon's trailing edge: the last deadlines, and everything still open. */
    method Sweep(through: Time)
      requires Indexed(State())
      modifies this
      ensures State() == Swept(old(State()), through)
    {
      BreachCheck(through);
      FlushBlocked(through);
      FlushCensus(through);
      CloseWindow(through, true);
    }

    /** The clock, from the start of the horizon to its end. */
    method Loop() returns (through: Time, partial: bool)
      requires Indexed(State())
      modifies this
      ensures State() == Ran(cfg, old(State()))
      ensures var e := RunFrom(cfg, Opened(cfg, old(State())), InWindow(cfg.schedule, cfg.start), cfg.start, cfg.start, 0);
              partial == e.exhausted && through == Through(cfg, e)
    {
      hide Processed, NextInstant, InWindow, Opened, Swept, Indexed, Diagnosed;
      var now := cfg.start;
      var inWindow := InWindow(cfg.schedule, now);
      OpenHorizon();
      ghost var first := State();
      var last, steps, exhausted := now, 0, false;
      while !exhausted && now <= cfg.end
        invariant Indexed(State()) && 0 <= steps <= MAX_STEPS
        invariant exhausted ==> RunFrom(cfg, first, InWindow(cfg.schedule, cfg.start), cfg.start, cfg.start, 0) == LoopEnd(State(), last, true)
        invariant !exhausted ==>
                    RunFrom(cfg, first, InWindow(cfg.schedule, cfg.start), cfg.start, cfg.start, 0)
                    == RunFrom(cfg, State(), inWindow, now, last, steps)
        decreases !exhausted, MAX_STEPS - steps
      {
        if steps >= MAX_STEPS {
          exhausted := true;
          NotedIsIndexed(State(), StepBudgetExhausted(last));
          DiagOnce(StepBudgetExhausted(last));
        } else {
          Process(inWindow, now);
          inWindow := InWindow(cfg.schedule, now);
          last := now;
          now := Next(now);
          steps := steps + 1;
        }
      }
      partial := exhausted;
      through := if exhausted then last else cfg.end;
      Sweep(through);
    }

    /** One instant: the window, the rotation in flight, the deadlines, a start. */
    method Process(wasOpen: bool, now: Time)
      requires Indexed(State())
      modifies this
      ensures State() == Processed(cfg, old(State()), wasOpen, now)
    {
      var open := InWindow(cfg.schedule, now);
      if open != wasOpen {
        if open {
          Emit(WindowOpened(now));
          OpenWindow(now);
        } else {
          Emit(WindowClosed(now));
          CloseWindow(now, false);
        }
      }
      Advance(now);
      BreachCheck(now);
      if rot.None? { MaybeStart(now, open); }
    }
  }

  lemma NotedIsIndexed(s: RunState, d: Diagnostic)
    requires Indexed(s)
    ensures Indexed(Diagnosed(s, d))
  {
  }

  /** The pick is one of the nodes. */
  lemma PickHasASlot(nodes: seq<SimNode>, sel: Inputs, pick: Claim)
    requires Pick(Views(nodes), sel) == Some(pick)
    ensures SlotOf(nodes, pick.name, 0) < |nodes|
  {
    PickIsMinimum(Views(nodes), sel);
    var i :| 0 <= i < |nodes| && Views(nodes)[i] == pick;
    NamedSlot(nodes, i, 0);
  }

  lemma {:induction false} NamedSlot(nodes: seq<SimNode>, i: nat, k: nat)
    requires k <= i < |nodes|
    ensures SlotOf(nodes, nodes[i].Name(), k) <= i
    decreases |nodes| - k
  {
    if nodes[k].Name() != nodes[i].Name() { NamedSlot(nodes, i, k + 1); }
  }
}
