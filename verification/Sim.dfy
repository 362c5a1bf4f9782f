/** The virtual-clock simulator: its records, and what one instant does to them
(internal/sim/sim.go, internal/sim/loop.go). It decides nothing itself: it calls the
decisions the controller calls, and owns only the clock and how long provisioning and
draining take. */
module Sim {
  import opened Clock
  import opened Options
  import opened Notes
  import opened Calendar
  import opened Selection
  import Decide
  import Derivation

  const TICK: int := MINUTE
  const MAX_STEPS: nat := 2_000_000

  // ----- inputs -----

  /** How long provisioning and draining really take; zero means the policy's estimate. */
  datatype Env = Env(provisioning: int, drain: int)

  datatype NodeSpec = NodeSpec(name: string, createdAt: Time, expireAfter: Option<int>, tgp: Option<int>)

  /** The template every replacement is provisioned from, and the initial nodes. */
  datatype Fleet = Fleet(expireAfter: int, tgp: Option<int>, nodes: seq<NodeSpec>)

  datatype Resolved = Resolved(
    leadTime: LeadTime,
    override: Option<int>,
    retryBackoff: int,
    readyTimeout: int,
    cooldown: int,
    failurePause: int,
    drainBound: int,
    derived: Derivation.Result,
    inputs: Derivation.Inputs)

  datatype Config = Config(
    schedule: Schedule,
    fallbackEnabled: bool,
    res: Resolved,
    env: Env,
    start: Time,
    end: Time,
    template: Fleet)

  // ----- records -----

  function Digits(n: nat): string {
    if n < 10 then [('0' as int + n) as char] else Digits(n / 10) + Digits(n % 10)
  }

  /** A fleet slot and the node in it. */
  datatype SimNode = SimNode(
    base: string,
    gen: nat,
    createdAt: Time,
    expireAfter: int,
    tgp: Option<int>,
    phase: Phase,
    breached: bool)
  {
    function Name(): string { if gen == 0 then base else base + "-r" + Digits(gen) }

    function Deadline(): Time { createdAt + expireAfter }

    /** The bound a drain of this node is held to. */
    function DrainCap(): int { if tgp.Some? then tgp.value else Derivation.DRAIN_FALLBACK }
  }

  /** The rotation in flight, and the records it completes. */
  datatype InFlight = InFlight(
    slot: nat,
    start: Time,
    readyAt: Time,
    doneAt: Time,
    surgeless: bool,
    rotIdx: nat,
    genIdx: Option<nat>)

  datatype Event =
    | WindowOpened(at: Time)
    | WindowClosed(at: Time)
    | RotationStarted(at: Time, node: string, surgeless: bool)
    | NodeReady(at: Time, node: string)
    | RotationDone(at: Time, node: string, replacement: string, surgeless: bool)
    | Breached(at: Time, node: string, slot: nat, gen: nat)
    | Blocked(at: Time, until: Time, gate: Decide.Gate)
    | NoneEligible(at: Time, until: Time, census: Census)

  datatype Birth = Initial | BornBySurge | BornSurgeless

  datatype Generation = Generation(
    slot: nat,
    gen: nat,
    name: string,
    birth: Birth,
    predecessor: Option<nat>,
    createdAt: Time,
    expireAfter: int,
    drainCap: int,
    capExplicit: bool,
    deadline: Time,
    boundary: Time,
    readyAt: Option<Time>,
    provisional: bool)

  datatype Rotation = Rotation(
    slot: nat,
    fromGen: nat,
    toGen: Option<nat>,
    surgeless: bool,
    start: Time,
    ready: Option<Time>,
    done: Option<Time>)

  /** An observed occurrence; `end` is None while it is open. */
  datatype WindowInterval = WindowInterval(start: Time, end: Option<Time>, startClipped: bool, endClipped: bool)

  datatype Diagnostic =
    | FatalSchedule(code: Derivation.Code)
    | StepBudgetExhausted(at: Time)
    | EnvDrainAboveTGP(node: string, bound: int)
    | EnvProvisioningAboveReadyTimeout

  datatype BlockedSince = BlockedSince(from: Time, gate: Decide.Gate)
  datatype CensusSince = CensusSince(from: Time, census: Census)

  datatype RunState = RunState(
    nodes: seq<SimNode>,
    lastRotationAt: Option<Time>,
    rot: Option<InFlight>,
    events: seq<Event>,
    generations: seq<Generation>,
    rotations: seq<Rotation>,
    windows: seq<WindowInterval>,
    diagnostics: seq<Diagnostic>,
    blocked: Option<BlockedSince>,
    census: Option<CensusSince>,
    winOpen: bool)

  /** The in-flight rotation points at its own slot and records. */
  predicate Indexed(s: RunState) {
    && (s.rot.Some? ==>
          && s.rot.value.slot < |s.nodes| && s.rot.value.rotIdx < |s.rotations|
          && s.rot.value.genIdx.Some? == !s.rot.value.surgeless
          && (s.rot.value.genIdx.Some? ==> s.rot.value.genIdx.value < |s.generations|))
    && (s.winOpen ==> s.windows != [])
  }

  // ----- what the run records -----

  function Emitted(s: RunState, e: Event): RunState { s.(events := s.events + [e]) }

  function Diagnosed(s: RunState, d: Diagnostic): (t: RunState)
    ensures t == s.(diagnostics := t.diagnostics)
  {
    if d in s.diagnostics then s else s.(diagnostics := s.diagnostics + [d])
  }

  /** The instant a node must be strictly past to be picked. */
  function EligibilityBoundary(cfg: Config, n: SimNode): Time {
    if cfg.res.override.Some? then n.createdAt + cfg.res.override.value
    else n.Deadline() - (cfg.res.leadTime.base + if n.tgp.Some? then n.tgp.value else cfg.res.leadTime.drainFallback)
  }

  function GenerationOf(cfg: Config, slot: nat, n: SimNode, birth: Birth, predecessor: Option<nat>, provisional: bool): Generation {
    Generation(slot, n.gen, n.Name(), birth, predecessor, n.createdAt, n.expireAfter, n.DrainCap(), n.tgp.Some?,
               n.Deadline(), EligibilityBoundary(cfg, n), None, provisional)
  }

  function Recorded(s: RunState, g: Generation): RunState { s.(generations := s.generations + [g]) }

  function WindowOpenedAt(cfg: Config, s: RunState, at: Time): RunState {
    s.(windows := s.windows + [WindowInterval(at, None, InWindow(cfg.schedule, at) && InWindow(cfg.schedule, at - 1), false)],
       winOpen := true)
  }

  function WindowClosedAt(s: RunState, at: Time, clipped: bool): RunState
    requires s.winOpen ==> s.windows != []
  {
    if !s.winOpen then s
    else
      var k := |s.windows| - 1;
      s.(windows := s.windows[k := s.windows[k].(end := Some(at), endClipped := clipped)], winOpen := false)
  }

  // ----- idle stretches, one event per reason -----

  function BlockedFlushed(s: RunState, at: Time): (t: RunState)
    ensures t == s.(events := t.events, blocked := t.blocked)
  {
    if s.blocked.None? then s
    else Emitted(s.(blocked := None), Blocked(s.blocked.value.from, at, s.blocked.value.gate))
  }

  function BlockedRecorded(s: RunState, now: Time, gate: Decide.Gate): (t: RunState)
    ensures t == s.(events := t.events, blocked := t.blocked)
  {
    if s.blocked.Some? && s.blocked.value.gate == gate then s
    else BlockedFlushed(s, now).(blocked := Some(BlockedSince(now, gate)))
  }

  function CensusFlushed(s: RunState, at: Time): (t: RunState)
    ensures t == s.(events := t.events, census := t.census)
  {
    if s.census.None? then s
    else Emitted(s.(census := None), NoneEligible(s.census.value.from, at, s.census.value.census))
  }

  function CensusRecorded(s: RunState, now: Time, c: Census): (t: RunState)
    ensures t == s.(events := t.events, census := t.census)
  {
    if s.census.Some? && s.census.value.census == c then s
    else CensusFlushed(s, now).(census := Some(CensusSince(now, c)))
  }

  // ----- the rotation in flight -----

  /** The surge is ready: the old node starts draining. */
  function SurgeReadied(s: RunState, now: Time): (t: RunState)
    requires Indexed(s)
    ensures Indexed(t)
  {
    if s.rot.None? then s
    else
      var rot := s.rot.value;
      var n := s.nodes[rot.slot];
      if rot.surgeless || n.phase != Pending || now < rot.readyAt then s
      else
        Emitted(s, NodeReady(rot.readyAt, n.Name()))
          .(nodes := s.nodes[rot.slot := n.(phase := Draining)],
            rotations := s.rotations[rot.rotIdx := s.rotations[rot.rotIdx].(ready := Some(rot.readyAt))],
            generations := s.generations[rot.genIdx.value := s.generations[rot.genIdx.value].(readyAt := Some(rot.readyAt))])
  }

  /** The node a rotation leaves in the slot: made from the template, created when the
  rotation started, or when it ended if it was surge-less. */
  function Replacement(cfg: Config, n: SimNode, rot: InFlight): SimNode {
    SimNode(n.base, n.gen + 1, if rot.surgeless then rot.doneAt else rot.start,
            cfg.template.expireAfter, cfg.template.tgp, Fresh, false)
  }

  /** The old node has finished draining. */
  function RotationCompleted(cfg: Config, s: RunState, now: Time): (t: RunState)
    requires Indexed(s)
    ensures Indexed(t)
  {
    if s.rot.None? || now < s.rot.value.doneAt then s
    else
      var rot := s.rot.value;
      var n := s.nodes[rot.slot];
      var next := Replacement(cfg, n, rot);
      var t := Emitted(s, RotationDone(rot.doneAt, n.Name(), next.Name(), rot.surgeless))
                 .(nodes := s.nodes[rot.slot := next], lastRotationAt := Some(rot.doneAt), rot := None,
                   rotations := s.rotations[rot.rotIdx := s.rotations[rot.rotIdx].(done := Some(rot.doneAt))]);
      if rot.surgeless then
        Recorded(t, GenerationOf(cfg, rot.slot, next, BornSurgeless, Some(n.gen), false))
          .(rotations := t.rotations[rot.rotIdx := t.rotations[rot.rotIdx].(toGen := Some(next.gen))])
      else
        t.(generations := t.generations[rot.genIdx.value := t.generations[rot.genIdx.value].(provisional := false)])
  }

  function Advanced(cfg: Config, s: RunState, now: Time): (t: RunState)
    requires Indexed(s)
    ensures Indexed(t)
  {
    RotationCompleted(cfg, SurgeReadied(s, now), now)
  }

  // ----- breaches -----

  function CheckedOne(s: RunState, i: nat, now: Time): RunState
    requires i < |s.nodes|
  {
    var n := s.nodes[i];
    if n.breached || now < n.Deadline() then s
    else Emitted(s, Breached(n.Deadline(), n.Name(), i, n.gen)).(nodes := s.nodes[i := n.(breached := true)])
  }

  /** The first k nodes checked against their deadlines. */
  function Checked(s: RunState, k: nat, now: Time): (t: RunState)
    requires k <= |s.nodes|
    ensures |t.nodes| == |s.nodes|
    ensures t == s.(nodes := t.nodes, events := t.events)
  {
    if k == 0 then s else CheckedOne(Checked(s, k - 1, now), k - 1, now)
  }

  // ----- starts -----

  function GateInputs(cfg: Config, s: RunState, now: Time, inWindow: bool): Decide.Inputs {
    Decide.Inputs(now, inWindow, NO_POOL_NOTES.(lastRotationAt := s.lastRotationAt), cfg.res.cooldown, cfg.res.failurePause,
                  cfg.fallbackEnabled, cfg.res.readyTimeout, cfg.res.drainBound)
  }

  function ViewOf(n: SimNode): Claim {
    Claim(n.Name(), n.createdAt, false, Some(n.expireAfter), n.tgp, true, NO_CLAIM_NOTES.(phase := n.phase))
  }

  function Views(nodes: seq<SimNode>): seq<Claim> {
    seq(|nodes|, i requires 0 <= i < |nodes| => ViewOf(nodes[i]))
  }

  /** Nothing fails in the simulation, so the occurrence bounds are never resolved. */
  function SelectionInputs(cfg: Config, now: Time): Inputs {
    Inputs(now, cfg.res.leadTime, cfg.res.override, cfg.res.retryBackoff, {}, None)
  }

  /** The first node of this name at or after k. */
  function SlotOf(nodes: seq<SimNode>, name: string, k: nat): (slot: nat)
    requires k <= |nodes|
    ensures k <= slot <= |nodes|
    ensures slot < |nodes| ==> nodes[slot].Name() == name
    decreases |nodes| - k
  {
    if k == |nodes| || nodes[k].Name() == name then k else SlotOf(nodes, name, k + 1)
  }

  /** How long a drain of this node takes: never longer than its bound. */
  function DrainFor(cfg: Config, n: SimNode): int {
    if cfg.env.drain > n.DrainCap() then n.DrainCap() else cfg.env.drain
  }

  function DrainDiagnosed(cfg: Config, s: RunState, n: SimNode): (t: RunState)
    ensures t == s.(diagnostics := t.diagnostics)
  {
    if cfg.env.drain > n.DrainCap() then Diagnosed(s, EnvDrainAboveTGP(n.Name(), n.DrainCap())) else s
  }

  /** The provisional replacement of a surge, alive from the start of its rotation. */
  function Surged(cfg: Config, n: SimNode, now: Time): SimNode {
    SimNode(n.base, n.gen + 1, now, cfg.template.expireAfter, cfg.template.tgp, Fresh, false)
  }

  function RotationBegun(cfg: Config, s: RunState, slot: nat, surgeless: bool, now: Time): (t: RunState)
    requires Indexed(s) && slot < |s.nodes|
    ensures Indexed(t)
  {
    var n := s.nodes[slot];
    var drain := DrainFor(cfg, n);
    var t := DrainDiagnosed(cfg, s, n);
    if surgeless then
      Emitted(t, RotationStarted(now, n.Name(), true))
        .(nodes := s.nodes[slot := n.(phase := Draining)],
          rot := Some(InFlight(slot, now, now, now + drain, true, |s.rotations|, None)),
          rotations := s.rotations + [Rotation(slot, n.gen, None, true, now, None, None)])
    else
      var readyAt := now + cfg.env.provisioning;
      Recorded(Emitted(t, RotationStarted(now, n.Name(), false)),
               GenerationOf(cfg, slot, Surged(cfg, n, now), BornBySurge, Some(n.gen), true))
        .(nodes := s.nodes[slot := n.(phase := Pending)],
          rot := Some(InFlight(slot, now, readyAt, readyAt + drain, false, |s.rotations|, Some(|s.generations|))),
          rotations := s.rotations + [Rotation(slot, n.gen, Some(n.gen + 1), false, now, None, None)])
  }

  /** A claim picked, and the slot that bears its name. */
  datatype Chosen = Chosen(slot: nat, pick: Claim)

  function Candidate(cfg: Config, s: RunState, now: Time): (c: Option<Chosen>)
    ensures c.Some? ==> c.value.slot < |s.nodes|
  {
    var pick := Pick(Views(s.nodes), SelectionInputs(cfg, now));
    if pick.None? then None
    else
      var slot := SlotOf(s.nodes, pick.value.name, 0);
      if slot < |s.nodes| then Some(Chosen(slot, pick.value)) else None
  }

  /** The start gates and the pick. */
  function Started(cfg: Config, s: RunState, now: Time, inWindow: bool): (t: RunState)
    requires Indexed(s) && s.rot.None?
    ensures Indexed(t)
  {
    var gates := GateInputs(cfg, s, now, inWindow);
    if Derivation.HasFatal(cfg.res.derived.findings) then s
    else if Decide.StartGate(gates) != Decide.GateNone then BlockedRecorded(CensusFlushed(s, now), now, Decide.StartGate(gates))
    else
      var c := Candidate(cfg, s, now);
      if c.None? then CensusRecorded(BlockedFlushed(s, now), now, CensusOf(Views(s.nodes), SelectionInputs(cfg, now)))
      else
        RotationBegun(cfg, CensusFlushed(BlockedFlushed(s, now), now), c.value.slot,
                      Decide.SurgelessFallback(c.value.pick, gates), now)
  }

  // ----- the clock -----

  /** The next minute, or a completion of the rotation in flight if that comes sooner. */
  function NextInstant(s: RunState, now: Time): Time {
    var tick := FloorMinute(now) + TICK;
    if s.rot.None? then tick
    else
      var rot := s.rot.value;
      var t := if !rot.surgeless && now < rot.readyAt < tick then rot.readyAt else tick;
      if now < rot.doneAt < t then rot.doneAt else t
  }

  function WindowTurned(cfg: Config, s: RunState, wasOpen: bool, now: Time): (t: RunState)
    requires Indexed(s)
    ensures Indexed(t)
    ensures t == s.(windows := t.windows, winOpen := t.winOpen, events := t.events)
  {
    var open := InWindow(cfg.schedule, now);
    if open == wasOpen then s
    else if open then WindowOpenedAt(cfg, Emitted(s, WindowOpened(now)), now)
    else WindowClosedAt(Emitted(s, WindowClosed(now)), now, false)
  }

  /** Everything one instant does. */
  function Processed(cfg: Config, s: RunState, wasOpen: bool, now: Time): (t: RunState)
    requires Indexed(s)
    ensures Indexed(t)
  {
    var a := Advanced(cfg, WindowTurned(cfg, s, wasOpen, now), now);
    var c := Checked(a, |a.nodes|, now);
    if c.rot.None? then Started(cfg, c, now, InWindow(cfg.schedule, now)) else c
  }

  /** Where the loop left off: the state, the last instant processed, and whether the
  step budget ran out. */
  datatype LoopEnd = LoopEnd(s: RunState, last: Time, exhausted: bool)

  function RunFrom(cfg: Config, s: RunState, wasOpen: bool, now: Time, last: Time, steps: nat): (r: LoopEnd)
    requires Indexed(s)
    ensures Indexed(r.s)
    decreases MAX_STEPS - steps
  {
    if cfg.end < now then LoopEnd(s, last, false)
    else if steps >= MAX_STEPS then LoopEnd(Diagnosed(s, StepBudgetExhausted(last)), last, true)
    else
      var t := Processed(cfg, s, wasOpen, now);
      RunFrom(cfg, t, InWindow(cfg.schedule, now), NextInstant(t, now), now, steps + 1)
  }

  /** The end of the observation: the last deadlines, and everything still open. */
  function Swept(s: RunState, through: Time): RunState
    requires Indexed(s)
  {
    WindowClosedAt(CensusFlushed(BlockedFlushed(Checked(s, |s.nodes|, through), through), through), through, true)
  }

  function Through(cfg: Config, e: LoopEnd): Time {
    if e.exhausted then e.last else cfg.end
  }

  /** The whole run, from the fleet's initial state to the state at the last instant. */
  function Ran(cfg: Config, s: RunState): RunState
    requires Indexed(s)
  {
    var e := RunFrom(cfg, Opened(cfg, s), InWindow(cfg.schedule, cfg.start), cfg.start, cfg.start, 0);
    Swept(e.s, Through(cfg, e))
  }

  /** A fatal schedule is diagnosed, and a horizon that begins inside a window opens it. */
  function Opened(cfg: Config, s: RunState): (t: RunState)
    requires Indexed(s)
    ensures Indexed(t)
    ensures t == s.(windows := t.windows, winOpen := t.winOpen, events := t.events, diagnostics := t.diagnostics)
  {
    var fatal := Derivation.FirstFatal(cfg.res.derived.findings);
    var d := if fatal.Some? then Diagnosed(s, FatalSchedule(fatal.value.code)) else s;
    if InWindow(cfg.schedule, cfg.start) then WindowOpenedAt(cfg, Emitted(d, WindowOpened(cfg.start)), cfg.start) else d
  }

  function InitialNode(f: Fleet, n: NodeSpec): SimNode {
    SimNode(n.name, 0, n.createdAt, if n.expireAfter.Some? then n.expireAfter.value else f.expireAfter,
            if n.tgp.Some? then n.tgp else f.tgp, Fresh, false)
  }

  function InitialNodes(f: Fleet): seq<SimNode> {
    seq(|f.nodes|, i requires 0 <= i < |f.nodes| => InitialNode(f, f.nodes[i]))
  }

  function InitialGenerations(cfg: Config, nodes: seq<SimNode>): seq<Generation> {
    seq(|nodes|, i requires 0 <= i < |nodes| => GenerationOf(cfg, i, nodes[i], Initial, None, false))
  }

  /** The fleet at the start, one generation a slot. */
  function InitialState(cfg: Config, diagnostics: seq<Diagnostic>): RunState {
    RunState(InitialNodes(cfg.template), None, None, [], InitialGenerations(cfg, InitialNodes(cfg.template)),
             [], [], diagnostics, None, None, false)
  }
}
