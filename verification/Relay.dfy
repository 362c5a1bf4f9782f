/** The structure of every simulated timeline: rotations in order and never overlapping,
each slot relaying consecutive generations, and nothing observed after the end
(internal/sim/loop.go). */
module Relay {
  import opened Clock
  import opened Options
  import opened Calendar
  import opened Selection
  import opened Sim
  import Decide
  import Derivation

  // ----- order in time -----

  /** The durations of the virtual world are not negative. */
  predicate Durations(cfg: Config, nodes: seq<SimNode>) {
    && 0 <= cfg.env.provisioning && 0 <= cfg.env.drain
    && (cfg.template.tgp.Some? ==> 0 <= cfg.template.tgp.value)
    && (forall n <- nodes :: 0 <= n.DrainCap())
  }

  /** A rotation's instants are in order, and none is after `last`. */
  predicate InOrder(cfg: Config, r: Rotation, last: Time) {
    && r.start <= last && InWindow(cfg.schedule, r.start)
    && (r.ready.Some? ==> r.start <= r.ready.value <= last)
    && (r.done.Some? ==> r.start <= r.done.value <= last && (r.ready.Some? ==> r.ready.value <= r.done.value))
  }

  /** Each rotation is done, and the cooldown over, before the next one starts. */
  predicate Serial(cfg: Config, rs: seq<Rotation>) {
    forall k :: 0 <= k < |rs| - 1 ==> Before(cfg, rs[k], rs[k + 1])
  }

  predicate Before(cfg: Config, r: Rotation, next: Rotation) {
    r.done.Some? && r.done.value + cfg.res.cooldown <= next.start
  }

  /** The rotation in flight is the last record, still to be completed. */
  predicate Flying(s: RunState) {
    s.rot.Some? ==>
      && s.rotations != [] && s.rot.value.rotIdx == |s.rotations| - 1
      && var r, rot := s.rotations[|s.rotations| - 1], s.rot.value;
         && r.done.None? && r.slot == rot.slot && r.start == rot.start && r.surgeless == rot.surgeless
         && r.start <= rot.doneAt
         && (!rot.surgeless ==> r.start <= rot.readyAt <= rot.doneAt)
         && (r.ready.Some? ==> r.ready.value == rot.readyAt && !rot.surgeless)
  }

  /** Every rotation but one in flight is done, and the last one done is stamped. */
  predicate Stamped(s: RunState) {
    var n := |s.rotations| - (if s.rot.Some? then 1 else 0);
    && 0 <= n
    && s.lastRotationAt == (if n == 0 then None else s.rotations[n - 1].done)
    && (n > 0 ==> s.rotations[n - 1].done.Some?)
  }

  predicate Past(e: Event, last: Time) {
    && e.at <= last
    && (e.Blocked? || e.NoneEligible? ==> e.at <= e.until <= last)
  }

  /** Everything recorded lies at or before `last`. */
  predicate Observed(s: RunState, last: Time) {
    && (forall e <- s.events :: Past(e, last))
    && (s.blocked.Some? ==> s.blocked.value.from <= last)
    && (s.census.Some? ==> s.census.value.from <= last)
    && (forall g <- s.generations :: g.gen > 0 ==> g.createdAt <= last)
    && (forall g <- s.generations :: g.readyAt.Some? ==> g.readyAt.value <= last)
    && (forall w <- s.windows :: w.start <= last && (w.end.Some? ==> w.start <= w.end.value <= last))
  }

  predicate Rotated(cfg: Config, s: RunState, last: Time) {
    && Indexed(s) && Durations(cfg, s.nodes)
    && (forall r <- s.rotations :: InOrder(cfg, r, last))
    && Serial(cfg, s.rotations) && Flying(s) && Stamped(s)
  }

  lemma RotatedLater(cfg: Config, s: RunState, last: Time, t: Time)
    requires Rotated(cfg, s, last) && last <= t
    ensures Rotated(cfg, s, t)
  {
    hide InWindow, Serial, Durations;
  }

  /** Replacing the last record by a later version of it. */
  lemma SerialAmended(cfg: Config, rs: seq<Rotation>, r: Rotation)
    requires rs != [] && Serial(cfg, rs) && r.start == rs[|rs| - 1].start
    ensures Serial(cfg, rs[|rs| - 1 := r])
  {
    var qs := rs[|rs| - 1 := r];
    forall k | 0 <= k < |qs| - 1
      ensures Before(cfg, qs[k], qs[k + 1])
    {
      assert Before(cfg, rs[k], rs[k + 1]);
    }
  }

  lemma SerialAppended(cfg: Config, rs: seq<Rotation>, r: Rotation)
    requires Serial(cfg, rs) && (rs != [] ==> Before(cfg, rs[|rs| - 1], r))
    ensures Serial(cfg, rs + [r])
  {
    var qs := rs + [r];
    forall k | 0 <= k < |qs| - 1
      ensures Before(cfg, qs[k], qs[k + 1])
    {
      if k < |rs| - 1 { assert Before(cfg, rs[k], rs[k + 1]); }
    }
  }

  /** Amending or appending one record keeps the others in order. */
  lemma AmendedInOrder(cfg: Config, rs: seq<Rotation>, r: Rotation, last: Time)
    requires (forall q <- rs :: InOrder(cfg, q, last)) && InOrder(cfg, r, last)
    ensures forall q <- rs + [r] :: InOrder(cfg, q, last)
    ensures rs != [] ==> forall q <- rs[|rs| - 1 := r] :: InOrder(cfg, q, last)
  {
    hide InOrder;
  }

  lemma DurationsKept(cfg: Config, nodes: seq<SimNode>, i: nat, n: SimNode)
    requires Durations(cfg, nodes) && i < |nodes| && 0 <= n.DrainCap()
    ensures Durations(cfg, nodes[i := n])
  {
  }

  lemma ReadiedRotated(cfg: Config, s: RunState, t: Time)
    requires Rotated(cfg, s, t)
    ensures Rotated(cfg, SurgeReadied(s, t), t)
  {
    var u := SurgeReadied(s, t);
    if u != s {
      var k, rot := |s.rotations| - 1, s.rot.value;
      assert s.nodes[rot.slot] in s.nodes && s.rotations[k] in s.rotations;
      hide InWindow, Serial, Durations;
      SerialAmended(cfg, s.rotations, u.rotations[k]);
      AmendedInOrder(cfg, s.rotations, u.rotations[k], t);
      DurationsKept(cfg, s.nodes, rot.slot, u.nodes[rot.slot]);
      assert u.rotations == s.rotations[k := u.rotations[k]];
    }
  }

  lemma CompletedRotated(cfg: Config, s: RunState, t: Time)
    requires Rotated(cfg, s, t)
    ensures Rotated(cfg, RotationCompleted(cfg, s, t), t)
  {
    var u := RotationCompleted(cfg, s, t);
    if s.rot.Some? && s.rot.value.doneAt <= t {
      var k, slot := |s.rotations| - 1, s.rot.value.slot;
      assert s.rotations[k] in s.rotations;
      assert 0 <= u.nodes[slot].DrainCap();
      hide InWindow, Serial, Durations, GenerationOf, Replacement, SimNode.DrainCap, SimNode.Name;
      SerialAmended(cfg, s.rotations, u.rotations[k]);
      AmendedInOrder(cfg, s.rotations, u.rotations[k], t);
      DurationsKept(cfg, s.nodes, slot, u.nodes[slot]);
      assert u.rotations == s.rotations[k := u.rotations[k]];
    }
  }

  /** Checking deadlines touches nothing but the breach flags. */
  lemma {:induction false} CheckedNodes(s: RunState, k: nat, now: Time)
    requires k <= |s.nodes|
    ensures |Checked(s, k, now).nodes| == |s.nodes|
    ensures forall i :: 0 <= i < |s.nodes| ==>
              Checked(s, k, now).nodes[i] == if i < k then s.nodes[i].(breached := s.nodes[i].breached || s.nodes[i].Deadline() <= now) else s.nodes[i]
  {
    if k > 0 { CheckedNodes(s, k - 1, now); }
  }

  lemma CheckedRotated(cfg: Config, s: RunState, t: Time)
    requires Rotated(cfg, s, t)
    ensures Rotated(cfg, Checked(s, |s.nodes|, t), t)
  {
    hide InWindow, Serial, SimNode.Deadline;
    CheckedNodes(s, |s.nodes|, t);
    var c := Checked(s, |s.nodes|, t);
    forall n <- c.nodes
      ensures 0 <= n.DrainCap()
    {
      var i :| 0 <= i < |c.nodes| && c.nodes[i] == n;
      assert s.nodes[i] in s.nodes;
    }
  }

  lemma BegunRotated(cfg: Config, s: RunState, slot: nat, surgeless: bool, t: Time)
    requires Rotated(cfg, s, t) && s.rot.None? && slot < |s.nodes|
    requires InWindow(cfg.schedule, t) && (s.lastRotationAt.Some? ==> s.lastRotationAt.value + cfg.res.cooldown <= t)
    ensures Rotated(cfg, RotationBegun(cfg, s, slot, surgeless, t), t)
  {
    var u := RotationBegun(cfg, s, slot, surgeless, t);
    assert s.nodes[slot] in s.nodes;
    assert 0 <= DrainFor(cfg, s.nodes[slot]);
    hide InWindow, Serial, GenerationOf, Diagnosed, Durations, DrainFor;
    SerialAppended(cfg, s.rotations, u.rotations[|s.rotations|]);
    AmendedInOrder(cfg, s.rotations, u.rotations[|s.rotations|], t);
    assert u.rotations == s.rotations + [u.rotations[|s.rotations|]];
    DurationsKept(cfg, s.nodes, slot, u.nodes[slot]);
  }

  lemma StartedRotated(cfg: Config, s: RunState, t: Time)
    requires Rotated(cfg, s, t) && s.rot.None?
    ensures Rotated(cfg, Started(cfg, s, t, InWindow(cfg.schedule, t)), t)
  {
    hide InWindow, Serial, RotationBegun, Candidate, CensusOf, InOrder, Durations, Decide.SurgelessFallback;
    var c := Candidate(cfg, s, t);
    var gates := GateInputs(cfg, s, t, InWindow(cfg.schedule, t));
    if Decide.StartGate(gates) == Decide.GateNone && c.Some? {
      BegunRotated(cfg, CensusFlushed(BlockedFlushed(s, t), t), c.value.slot, Decide.SurgelessFallback(c.value.pick, gates), t);
    }
  }

  lemma ProcessedRotated(cfg: Config, s: RunState, last: Time, wasOpen: bool, t: Time)
    requires Rotated(cfg, s, last) && last <= t
    ensures Rotated(cfg, Processed(cfg, s, wasOpen, t), t)
  {
    hide InWindow, WindowTurned, SurgeReadied, RotationCompleted, Checked, Started, Serial, InOrder, Durations, Flying, Stamped;
    RotatedLater(cfg, s, last, t);
    var w := WindowTurned(cfg, s, wasOpen, t);
    SameRotations(cfg, s, w, t);
    ReadiedRotated(cfg, w, t);
    CompletedRotated(cfg, SurgeReadied(w, t), t);
    var a := Advanced(cfg, w, t);
    CheckedRotated(cfg, a, t);
    var c := Checked(a, |a.nodes|, t);
    if c.rot.None? { StartedRotated(cfg, c, t); }
  }

  lemma SameRotations(cfg: Config, s: RunState, t: RunState, last: Time)
    requires Rotated(cfg, s, last) && Indexed(t)
    requires t.nodes == s.nodes && t.rot == s.rot && t.rotations == s.rotations && t.lastRotationAt == s.lastRotationAt
    ensures Rotated(cfg, t, last)
  {
    hide InWindow, Serial, InOrder, Durations;
  }

  // ----- nothing after the end of the observation -----

  lemma ObservedLater(s: RunState, last: Time, t: Time)
    requires Observed(s, last) && last <= t
    ensures Observed(s, t)
  {
  }

  lemma TurnedObserved(cfg: Config, s: RunState, wasOpen: bool, t: Time)
    requires Indexed(s) && Observed(s, t)
    ensures Observed(WindowTurned(cfg, s, wasOpen, t), t)
  {
    hide InWindow;
    if s.winOpen { assert s.windows[|s.windows| - 1] in s.windows; }
  }

  lemma AdvancedObserved(cfg: Config, s: RunState, t: Time)
    requires Rotated(cfg, s, t) && Observed(s, t)
    ensures Observed(Advanced(cfg, s, t), t)
  {
    ReadiedRotated(cfg, s, t);
    var m := SurgeReadied(s, t);
    assert Observed(m, t) by {
      if m != s { assert s.generations[s.rot.value.genIdx.value] in s.generations; }
    }
    hide InWindow, SurgeReadied, Serial, Durations;
    if m.rot.Some? && !m.rot.value.surgeless { assert m.generations[m.rot.value.genIdx.value] in m.generations; }
  }

  lemma {:induction false} CheckedObserved(s: RunState, k: nat, t: Time)
    requires k <= |s.nodes| && Observed(s, t)
    ensures Observed(Checked(s, k, t), t)
  {
    if k > 0 { CheckedObserved(s, k - 1, t); }
  }

  lemma FlushedObserved(s: RunState, t: Time)
    requires Observed(s, t)
    ensures Observed(BlockedFlushed(s, t), t) && Observed(CensusFlushed(s, t), t)
  {
  }

  lemma RecordedObserved(s: RunState, t: Time, gate: Decide.Gate, c: Census)
    requires Observed(s, t)
    ensures Observed(BlockedRecorded(s, t, gate), t) && Observed(CensusRecorded(s, t, c), t)
  {
  }

  lemma StartedObserved(cfg: Config, s: RunState, t: Time, open: bool)
    requires Indexed(s) && s.rot.None? && Observed(s, t)
    ensures Observed(Started(cfg, s, t, open), t)
  {
    hide Observed, BlockedFlushed, CensusFlushed, BlockedRecorded, CensusRecorded, Candidate, Decide.StartGate,
         Decide.SurgelessFallback, CensusOf, RotationBegun;
    var gates, c := GateInputs(cfg, s, t, open), Candidate(cfg, s, t);
    var census := CensusOf(Views(s.nodes), Sim.SelectionInputs(cfg, t));
    FlushedObserved(s, t);
    FlushedObserved(BlockedFlushed(s, t), t);
    RecordedObserved(CensusFlushed(s, t), t, Decide.StartGate(gates), census);
    RecordedObserved(BlockedFlushed(s, t), t, Decide.StartGate(gates), census);
    if c.Some? {
      BegunObserved(cfg, CensusFlushed(BlockedFlushed(s, t), t), c.value.slot, Decide.SurgelessFallback(c.value.pick, gates), t);
    }
  }

  lemma BegunObserved(cfg: Config, s: RunState, slot: nat, surgeless: bool, t: Time)
    requires Indexed(s) && slot < |s.nodes| && Observed(s, t)
    ensures Observed(RotationBegun(cfg, s, slot, surgeless, t), t)
  {
    hide DrainDiagnosed, EligibilityBoundary;
  }

  lemma ProcessedObserved(cfg: Config, s: RunState, last: Time, wasOpen: bool, t: Time)
    requires Rotated(cfg, s, last) && Observed(s, last) && last <= t
    ensures Observed(Processed(cfg, s, wasOpen, t), t)
  {
    ObservedLater(s, last, t);
    RotatedLater(cfg, s, last, t);
    TurnedObserved(cfg, s, wasOpen, t);
    var w := WindowTurned(cfg, s, wasOpen, t);
    SameRotations(cfg, s, w, t);
    AdvancedObserved(cfg, w, t);
    var a := Advanced(cfg, w, t);
    CheckedObserved(a, |a.nodes|, t);
    hide WindowTurned, Advanced, Checked, Started, Observed, Rotated;
    var c := Checked(a, |a.nodes|, t);
    if c.rot.None? { StartedObserved(cfg, c, t, InWindow(cfg.schedule, t)); }
  }

  // ----- slots relay consecutive generations -----

  function Occurs(xs: seq<nat>, x: nat): nat {
    if xs == [] then 0 else Occurs(xs[..|xs| - 1], x) + if xs[|xs| - 1] == x then 1 else 0
  }

  /** The numbers count up, from zero, along each slot. */
  predicate Consecutive(slots: seq<nat>, numbers: seq<nat>) {
    && |slots| == |numbers|
    && forall k :: 0 <= k < |slots| ==> numbers[k] == Occurs(slots[..k], slots[k])
  }

  function RotationSlots(rs: seq<Rotation>): seq<nat> { seq(|rs|, k requires 0 <= k < |rs| => rs[k].slot) }
  function RotationFroms(rs: seq<Rotation>): seq<nat> { seq(|rs|, k requires 0 <= k < |rs| => rs[k].fromGen) }
  function GenerationSlots(gs: seq<Generation>): seq<nat> { seq(|gs|, k requires 0 <= k < |gs| => gs[k].slot) }
  function GenerationGens(gs: seq<Generation>): seq<nat> { seq(|gs|, k requires 0 <= k < |gs| => gs[k].gen) }

  lemma ConsecutiveAppended(slots: seq<nat>, numbers: seq<nat>, x: nat)
    requires Consecutive(slots, numbers)
    ensures Consecutive(slots + [x], numbers + [Occurs(slots, x)])
    ensures forall y :: Occurs(slots + [x], y) == Occurs(slots, y) + if x == y then 1 else 0
  {
    var longer := slots + [x];
    assert longer[..|slots|] == slots;
    forall k | 0 <= k < |longer|
      ensures (numbers + [Occurs(slots, x)])[k] == Occurs(longer[..k], longer[k])
    {
      if k < |slots| { assert longer[..k] == slots[..k]; }
    }
  }

  /** What the relay is about: the slots and numbers on record, the generation in each
  slot, and the slot in rotation, if any, with its surge. */
  datatype Ledger = Ledger(
    rotationSlots: seq<nat>,
    rotationFroms: seq<nat>,
    generationSlots: seq<nat>,
    generationGens: seq<nat>,
    current: seq<nat>,
    flying: Option<nat>,
    surge: bool)

  function LedgerOf(s: RunState): Ledger {
    Ledger(RotationSlots(s.rotations), RotationFroms(s.rotations), GenerationSlots(s.generations), GenerationGens(s.generations),
           seq(|s.nodes|, i requires 0 <= i < |s.nodes| => s.nodes[i].gen),
           if s.rot.Some? then Some(s.rot.value.slot) else None, s.rot.Some? && !s.rot.value.surgeless)
  }

  predicate Balanced(l: Ledger) {
    && Consecutive(l.rotationSlots, l.rotationFroms)
    && Consecutive(l.generationSlots, l.generationGens)
    && forall i: nat :: i < |l.current| ==> BalancedSlot(l, i)
  }

  /** A slot's generation is the number of its rotations done, and one more is on record
  than that, plus the provisional one of a surge in flight. */
  predicate BalancedSlot(l: Ledger, i: nat)
    requires i < |l.current|
  {
    && Occurs(l.rotationSlots, i) == l.current[i] + (if l.flying == Some(i) then 1 else 0)
    && Occurs(l.generationSlots, i) == l.current[i] + 1 + (if l.flying == Some(i) && l.surge then 1 else 0)
  }

  function LedgerStarted(l: Ledger, slot: nat, surge: bool): Ledger
    requires slot < |l.current|
  {
    l.(rotationSlots := l.rotationSlots + [slot], rotationFroms := l.rotationFroms + [l.current[slot]],
       generationSlots := if surge then l.generationSlots + [slot] else l.generationSlots,
       generationGens := if surge then l.generationGens + [l.current[slot] + 1] else l.generationGens,
       flying := Some(slot), surge := surge)
  }

  function LedgerDone(l: Ledger, slot: nat): Ledger
    requires slot < |l.current|
  {
    l.(generationSlots := if l.surge then l.generationSlots else l.generationSlots + [slot],
       generationGens := if l.surge then l.generationGens else l.generationGens + [l.current[slot] + 1],
       current := l.current[slot := l.current[slot] + 1], flying := None, surge := false)
  }

  lemma BalancedStart(l: Ledger, slot: nat, surge: bool)
    requires Balanced(l) && l.flying.None? && slot < |l.current|
    ensures Balanced(LedgerStarted(l, slot, surge))
  {
    var m := LedgerStarted(l, slot, surge);
    assert BalancedSlot(l, slot);
    ConsecutiveAppended(l.rotationSlots, l.rotationFroms, slot);
    ConsecutiveAppended(l.generationSlots, l.generationGens, slot);
    hide Consecutive, Occurs;
    forall i: nat | i < |m.current|
      ensures BalancedSlot(m, i)
    {
      assert BalancedSlot(l, i);
    }
  }

  lemma BalancedDone(l: Ledger, slot: nat)
    requires Balanced(l) && l.flying == Some(slot) && slot < |l.current|
    ensures Balanced(LedgerDone(l, slot))
  {
    var m := LedgerDone(l, slot);
    assert BalancedSlot(l, slot);
    ConsecutiveAppended(l.generationSlots, l.generationGens, slot);
    hide Consecutive, Occurs;
    forall i: nat | i < |m.current|
      ensures BalancedSlot(m, i)
    {
      assert BalancedSlot(l, i);
    }
  }

  predicate Relayed(s: RunState) {
    Balanced(LedgerOf(s))
  }

  lemma ReadiedRelayed(s: RunState, t: Time)
    requires Indexed(s) && Relayed(s)
    ensures Relayed(SurgeReadied(s, t))
  {
    hide Balanced;
    var u := SurgeReadied(s, t);
    assert LedgerOf(u) == LedgerOf(s);
  }

  /** What a completion does to the ledger. */
  lemma LedgerCompleted(cfg: Config, s: RunState, t: Time)
    requires Indexed(s) && s.rot.Some? && s.rot.value.doneAt <= t
    ensures LedgerOf(RotationCompleted(cfg, s, t)) == LedgerDone(LedgerOf(s), s.rot.value.slot)
  {
    hide EligibilityBoundary, SimNode.DrainCap, SimNode.Name, SimNode.Deadline;
    var u, l, rot := RotationCompleted(cfg, s, t), LedgerOf(s), s.rot.value;
    assert RotationSlots(u.rotations) == l.rotationSlots && RotationFroms(u.rotations) == l.rotationFroms;
    assert LedgerOf(u).current == l.current[rot.slot := l.current[rot.slot] + 1];
    if rot.surgeless {
      assert GenerationSlots(u.generations) == l.generationSlots + [rot.slot];
      assert GenerationGens(u.generations) == l.generationGens + [l.current[rot.slot] + 1];
    } else {
      assert GenerationSlots(u.generations) == l.generationSlots && GenerationGens(u.generations) == l.generationGens;
    }
  }

  lemma CompletedRelayed(cfg: Config, s: RunState, t: Time)
    requires Indexed(s) && Relayed(s)
    ensures Relayed(RotationCompleted(cfg, s, t))
  {
    hide Balanced, LedgerDone;
    if s.rot.Some? && s.rot.value.doneAt <= t {
      LedgerCompleted(cfg, s, t);
      assert |LedgerOf(s).current| == |s.nodes|;
      hide RotationCompleted, Replacement;
      BalancedDone(LedgerOf(s), s.rot.value.slot);
    }
  }

  lemma LedgerBegun(cfg: Config, s: RunState, slot: nat, surgeless: bool, t: Time)
    requires Indexed(s) && s.rot.None? && slot < |s.nodes|
    ensures LedgerOf(RotationBegun(cfg, s, slot, surgeless, t)) == LedgerStarted(LedgerOf(s), slot, !surgeless)
  {
    hide DrainDiagnosed, EligibilityBoundary, SimNode.DrainCap, SimNode.Name;
    var u, l := RotationBegun(cfg, s, slot, surgeless, t), LedgerOf(s);
    assert RotationSlots(u.rotations) == l.rotationSlots + [slot];
    assert RotationFroms(u.rotations) == l.rotationFroms + [l.current[slot]];
    assert LedgerOf(u).current == l.current;
    if surgeless {
      assert u.generations == s.generations;
    } else {
      assert GenerationSlots(u.generations) == l.generationSlots + [slot];
      assert GenerationGens(u.generations) == l.generationGens + [l.current[slot] + 1];
    }
  }

  lemma BegunRelayed(cfg: Config, s: RunState, slot: nat, surgeless: bool, t: Time)
    requires Indexed(s) && Relayed(s) && s.rot.None? && slot < |s.nodes|
    ensures Relayed(RotationBegun(cfg, s, slot, surgeless, t))
  {
    hide Balanced, RotationBegun, LedgerStarted;
    LedgerBegun(cfg, s, slot, surgeless, t);
    assert |LedgerOf(s).current| == |s.nodes|;
    BalancedStart(LedgerOf(s), slot, !surgeless);
  }

  lemma SameLedger(s: RunState, t: RunState)
    requires Relayed(s) && t.rotations == s.rotations && t.generations == s.generations && t.rot == s.rot
    requires |t.nodes| == |s.nodes| && forall i :: 0 <= i < |s.nodes| ==> t.nodes[i].gen == s.nodes[i].gen
    ensures Relayed(t)
  {
    hide Balanced;
    assert LedgerOf(t) == LedgerOf(s);
  }

  lemma StartedRelayed(cfg: Config, s: RunState, t: Time, open: bool)
    requires Indexed(s) && s.rot.None? && Relayed(s)
    ensures Relayed(Started(cfg, s, t, open))
  {
    hide Relayed, Candidate, Decide.StartGate, Decide.SurgelessFallback, CensusOf, RotationBegun;
    var gates, c, u := GateInputs(cfg, s, t, open), Candidate(cfg, s, t), CensusFlushed(BlockedFlushed(s, t), t);
    SameLedger(s, u);
    if !Derivation.HasFatal(cfg.res.derived.findings) && Decide.StartGate(gates) == Decide.GateNone && c.Some? {
      BegunRelayed(cfg, u, c.value.slot, Decide.SurgelessFallback(c.value.pick, gates), t);
    } else {
      SameLedger(s, Started(cfg, s, t, open));
    }
  }

  lemma ProcessedRelayed(cfg: Config, s: RunState, wasOpen: bool, t: Time)
    requires Indexed(s) && Relayed(s)
    ensures Relayed(Processed(cfg, s, wasOpen, t))
  {
    hide Relayed, WindowTurned, SurgeReadied, RotationCompleted, Checked, Started, InWindow;
    var w := WindowTurned(cfg, s, wasOpen, t);
    SameLedger(s, w);
    ReadiedRelayed(w, t);
    CompletedRelayed(cfg, SurgeReadied(w, t), t);
    var a := Advanced(cfg, w, t);
    CheckedNodes(a, |a.nodes|, t);
    var c := Checked(a, |a.nodes|, t);
    SameLedger(a, c);
    if c.rot.None? { StartedRelayed(cfg, c, t, InWindow(cfg.schedule, t)); }
  }

  /** The initial fleet: generation zero in every slot. */
  lemma InitialRelayed(cfg: Config, diagnostics: seq<Diagnostic>)
    ensures Relayed(InitialState(cfg, diagnostics))
  {
    var s := InitialState(cfg, diagnostics);
    var n := |s.nodes|;
    assert RotationSlots(s.rotations) == [];
    assert forall k :: 0 <= k < n ==> GenerationSlots(s.generations)[k] == k && GenerationGens(s.generations)[k] == 0;
    forall i: nat | i < n
      ensures BalancedSlot(LedgerOf(s), i)
    {
      UpTo(GenerationSlots(s.generations), i);
    }
    forall k | 0 <= k < n
      ensures Occurs(GenerationSlots(s.generations)[..k], k) == 0
    {
      UpTo(GenerationSlots(s.generations)[..k], k);
    }
  }

  lemma {:induction false} UpTo(xs: seq<nat>, x: nat)
    requires forall k :: 0 <= k < |xs| ==> xs[k] == k
    ensures Occurs(xs, x) == if x < |xs| then 1 else 0
  {
    if xs != [] { UpTo(xs[..|xs| - 1], x); }
  }

  // ----- whole runs -----

  predicate Sane(cfg: Config, s: RunState, last: Time) {
    Rotated(cfg, s, last) && Observed(s, last) && Relayed(s)
  }

  lemma {:induction false} SaneRun(cfg: Config, s: RunState, wasOpen: bool, now: Time, last: Time, steps: nat)
    requires Sane(cfg, s, last) && last <= now && last <= cfg.end
    ensures var e := RunFrom(cfg, s, wasOpen, now, last, steps);
            Sane(cfg, e.s, e.last) && e.last <= cfg.end
    decreases MAX_STEPS - steps
  {
    hide Observed, Relayed, Serial, Durations, Flying, Stamped, InOrder, Processed, InWindow, NextInstant;
    if cfg.end < now {
    } else if steps >= MAX_STEPS {
      NotedSane(cfg, s, last, StepBudgetExhausted(last));
    } else {
      var t := Processed(cfg, s, wasOpen, now);
      ProcessedRotated(cfg, s, last, wasOpen, now);
      ProcessedObserved(cfg, s, last, wasOpen, now);
      ProcessedRelayed(cfg, s, wasOpen, now);
      ClockAdvances(t, now);
      SaneRun(cfg, t, InWindow(cfg.schedule, now), NextInstant(t, now), now, steps + 1);
    }
  }

  /** The clock always moves forward, and by at most a minute. */
  lemma ClockAdvances(s: RunState, now: Time)
    ensures now < NextInstant(s, now) <= FloorMinute(now) + TICK
  {
  }

  lemma NotedSane(cfg: Config, s: RunState, last: Time, d: Diagnostic)
    requires Sane(cfg, s, last)
    ensures Sane(cfg, Diagnosed(s, d), last)
  {
    hide Diagnosed, Balanced, InWindow;
    SameLedger(s, Diagnosed(s, d));
  }

  lemma SweptSane(cfg: Config, s: RunState, last: Time, through: Time)
    requires Sane(cfg, s, last) && last <= through
    ensures Sane(cfg, Swept(s, through), through)
  {
    hide Relayed, Serial, Durations, InOrder, InWindow, Checked, BlockedFlushed, CensusFlushed;
    RotatedLater(cfg, s, last, through);
    ObservedLater(s, last, through);
    var c := Checked(s, |s.nodes|, through);
    CheckedRotated(cfg, s, through);
    CheckedObserved(s, |s.nodes|, through);
    CheckedNodes(s, |s.nodes|, through);
    FlushedObserved(c, through);
    FlushedObserved(BlockedFlushed(c, through), through);
    var u := CensusFlushed(BlockedFlushed(c, through), through);
    assert u.winOpen ==> u.windows[|u.windows| - 1] in u.windows;
    SameLedger(s, Swept(s, through));
  }

  lemma OpenedSane(cfg: Config, diagnostics: seq<Diagnostic>)
    requires Durations(cfg, InitialNodes(cfg.template))
    ensures Sane(cfg, Opened(cfg, InitialState(cfg, diagnostics)), cfg.start)
  {
    hide Diagnosed, Balanced, InWindow, Durations;
    InitialRelayed(cfg, diagnostics);
    SameLedger(InitialState(cfg, diagnostics), Opened(cfg, InitialState(cfg, diagnostics)));
  }

  /** The instant a run was simulated through. */
  function SimulatedThrough(cfg: Config, diagnostics: seq<Diagnostic>): Time {
    Through(cfg, RunFrom(cfg, Opened(cfg, InitialState(cfg, diagnostics)), InWindow(cfg.schedule, cfg.start), cfg.start, cfg.start, 0))
  }

  /** Every timeline: rotations start in the window, in order, each done and its cooldown
  over before the next; along each slot rotations and generations count up by one from
  zero; and nothing observed lies after the instant simulated through. */
  lemma TimelineStructure(cfg: Config, diagnostics: seq<Diagnostic>)
    requires Durations(cfg, InitialNodes(cfg.template)) && cfg.start <= cfg.end
    ensures var t, through := Ran(cfg, InitialState(cfg, diagnostics)), SimulatedThrough(cfg, diagnostics);
            && through <= cfg.end
            && Serial(cfg, t.rotations) && (forall r <- t.rotations :: InOrder(cfg, r, through))
            && Consecutive(RotationSlots(t.rotations), RotationFroms(t.rotations))
            && Consecutive(GenerationSlots(t.generations), GenerationGens(t.generations))
            && Observed(t, through)
  {
    hide Observed, Serial, Durations, Flying, Stamped, InOrder, Processed, InWindow, NextInstant, Opened, Swept, RunFrom, InitialNodes, InitialGenerations;
    var s := Opened(cfg, InitialState(cfg, diagnostics));
    OpenedSane(cfg, diagnostics);
    SaneRun(cfg, s, InWindow(cfg.schedule, cfg.start), cfg.start, cfg.start, 0);
    var e := RunFrom(cfg, s, InWindow(cfg.schedule, cfg.start), cfg.start, cfg.start, 0);
    SweptSane(cfg, e.s, e.last, Through(cfg, e));
  }

  /** Any two rotations, not only neighbours, are apart. */
  lemma {:induction false} NeverOverlap(cfg: Config, rs: seq<Rotation>, i: nat, k: nat)
    requires Serial(cfg, rs) && 0 <= cfg.res.cooldown && i < k < |rs|
    requires forall r <- rs :: r.done.Some? ==> r.start <= r.done.value
    ensures Before(cfg, rs[i], rs[k])
    decreases k - i
  {
    assert Before(cfg, rs[i], rs[i + 1]);
    if i + 1 < k {
      NeverOverlap(cfg, rs, i + 1, k);
      assert rs[i + 1] in rs;
    }
  }

  // ----- starts per occurrence -----

  /** Rotations as long as the forecast. */
  predicate Paced(cfg: Config, rs: seq<Rotation>) {
    forall r <- rs :: r.done.Some? ==> r.done.value == r.start + cfg.res.derived.tRotEst
  }

  lemma OneMore(n: int, x: int)
    ensures (n + 1) * x == n * x + x
  {
  }

  lemma {:induction false} SpacedBy(cfg: Config, rs: seq<Rotation>, a: nat, b: nat)
    requires Serial(cfg, rs) && Paced(cfg, rs) && a <= b < |rs|
    ensures rs[a].start + (b - a) * (cfg.res.derived.tRotEst + cfg.res.cooldown) <= rs[b].start
    decreases b
  {
    if a < b {
      SpacedBy(cfg, rs, a, b - 1);
      assert Before(cfg, rs[b - 1], rs[b]) && rs[b - 1] in rs;
      OneMore(b - 1 - a, cfg.res.derived.tRotEst + cfg.res.cooldown);
    }
  }

  /** No occurrence holds more starts than the forecast's count for its length. */
  lemma StartsFitTheForecast(cfg: Config, rs: seq<Rotation>, a: nat, b: nat, open: Time, length: int)
    requires Serial(cfg, rs) && Paced(cfg, rs) && a <= b < |rs|
    requires open <= rs[a].start && rs[b].start < open + length
    requires 0 < cfg.res.derived.tRotEst + cfg.res.cooldown
    ensures b - a + 1 <= Derivation.CeilDiv(length, cfg.res.derived.tRotEst + cfg.res.cooldown)
  {
    var spacing := cfg.res.derived.tRotEst + cfg.res.cooldown;
    SpacedBy(cfg, rs, a, b);
    Derivation.MulMonotone(0, b - a, spacing);
    Derivation.CeilDivCounts(length, spacing, b - a);
  }

  /** With the fallback off and the world as the policy estimates it, no drain reaching
  its bound, every rotation is as long as the forecast. */
  predicate AsForecast(cfg: Config, nodes: seq<SimNode>) {
    && !cfg.fallbackEnabled
    && cfg.env.provisioning + cfg.env.drain == cfg.res.derived.tRotEst
    && cfg.env.drain <= (if cfg.template.tgp.Some? then cfg.template.tgp.value else Derivation.DRAIN_FALLBACK)
    && (forall n <- nodes :: cfg.env.drain <= n.DrainCap())
  }

  predicate PacedState(cfg: Config, s: RunState) {
    && Indexed(s) && AsForecast(cfg, s.nodes) && Paced(cfg, s.rotations)
    && (s.rot.Some? ==>
          && !s.rot.value.surgeless && s.rot.value.doneAt == s.rot.value.start + cfg.res.derived.tRotEst
          && s.rotations[s.rot.value.rotIdx].start == s.rot.value.start)
  }

  lemma ForecastKept(cfg: Config, nodes: seq<SimNode>, i: nat, n: SimNode)
    requires AsForecast(cfg, nodes) && i < |nodes| && cfg.env.drain <= n.DrainCap()
    ensures AsForecast(cfg, nodes[i := n])
  {
  }

  lemma PacedAmended(cfg: Config, rs: seq<Rotation>, k: nat, r: Rotation)
    requires Paced(cfg, rs) && (r.done.Some? ==> r.done.value == r.start + cfg.res.derived.tRotEst)
    ensures Paced(cfg, rs + [r]) && (k < |rs| ==> Paced(cfg, rs[k := r]))
  {
  }

  lemma AdvancedPaced(cfg: Config, s: RunState, t: Time)
    requires PacedState(cfg, s)
    ensures PacedState(cfg, Advanced(cfg, s, t))
  {
    var m := SurgeReadied(s, t);
    if m != s {
      var rot := s.rot.value;
      assert s.nodes[rot.slot] in s.nodes && s.rotations[rot.rotIdx] in s.rotations;
      hide AsForecast, Paced;
      ForecastHere(cfg, s.nodes, rot.slot, m.nodes[rot.slot]);
      ForecastKept(cfg, s.nodes, rot.slot, m.nodes[rot.slot]);
      PacedHere(cfg, s.rotations, rot.rotIdx, m.rotations[rot.rotIdx]);
    }
    CompletedPaced(cfg, m, t);
  }

  lemma ForecastHere(cfg: Config, nodes: seq<SimNode>, i: nat, n: SimNode)
    requires AsForecast(cfg, nodes) && i < |nodes| && n.tgp == nodes[i].tgp
    ensures cfg.env.drain <= n.DrainCap()
  {
    assert nodes[i] in nodes;
  }

  lemma PacedHere(cfg: Config, rs: seq<Rotation>, k: nat, r: Rotation)
    requires Paced(cfg, rs) && k < |rs| && r.start == rs[k].start && r.done == rs[k].done
    ensures Paced(cfg, rs[k := r])
  {
    assert rs[k] in rs;
    PacedAmended(cfg, rs, k, r);
  }

  lemma CompletedPaced(cfg: Config, s: RunState, t: Time)
    requires PacedState(cfg, s)
    ensures PacedState(cfg, RotationCompleted(cfg, s, t))
  {
    if s.rot.Some? && s.rot.value.doneAt <= t {
      var rot, u := s.rot.value, RotationCompleted(cfg, s, t);
      assert cfg.env.drain <= u.nodes[rot.slot].DrainCap();
      hide AsForecast, Paced, GenerationOf;
      ForecastKept(cfg, s.nodes, rot.slot, u.nodes[rot.slot]);
      PacedAmended(cfg, s.rotations, rot.rotIdx, u.rotations[rot.rotIdx]);
    }
  }

  lemma CheckedPaced(cfg: Config, s: RunState, t: Time)
    requires PacedState(cfg, s)
    ensures PacedState(cfg, Checked(s, |s.nodes|, t))
  {
    CheckedNodes(s, |s.nodes|, t);
    hide Paced, SimNode.Deadline;
    var c := Checked(s, |s.nodes|, t);
    forall n <- c.nodes
      ensures cfg.env.drain <= n.DrainCap()
    {
      var i :| 0 <= i < |c.nodes| && c.nodes[i] == n;
      ForecastHere(cfg, s.nodes, i, n);
    }
  }

  lemma BegunPaced(cfg: Config, s: RunState, slot: nat, t: Time)
    requires PacedState(cfg, s) && s.rot.None? && slot < |s.nodes|
    ensures PacedState(cfg, RotationBegun(cfg, s, slot, false, t))
  {
    var u, k := RotationBegun(cfg, s, slot, false, t), |s.rotations|;
    ForecastHere(cfg, s.nodes, slot, s.nodes[slot]);
    assert DrainFor(cfg, s.nodes[slot]) == cfg.env.drain;
    assert u.rot.value.doneAt == t + cfg.res.derived.tRotEst;
    hide AsForecast, Paced, GenerationOf, DrainDiagnosed;
    ForecastHere(cfg, s.nodes, slot, u.nodes[slot]);
    ForecastKept(cfg, s.nodes, slot, u.nodes[slot]);
    PacedAmended(cfg, s.rotations, k, u.rotations[k]);
    assert u.rotations == s.rotations + [u.rotations[k]];
  }

  lemma StartedPaced(cfg: Config, s: RunState, t: Time, open: bool)
    requires PacedState(cfg, s) && s.rot.None?
    ensures PacedState(cfg, Started(cfg, s, t, open))
  {
    var c := Candidate(cfg, s, t);
    assert c.Some? ==> !Decide.SurgelessFallback(c.value.pick, GateInputs(cfg, s, t, open));
    hide AsForecast, Paced, Candidate, Decide.StartGate, Decide.SurgelessFallback, CensusOf, RotationBegun;
    if c.Some? { BegunPaced(cfg, CensusFlushed(BlockedFlushed(s, t), t), c.value.slot, t); }
  }

  lemma ProcessedPaced(cfg: Config, s: RunState, wasOpen: bool, t: Time)
    requires PacedState(cfg, s)
    ensures PacedState(cfg, Processed(cfg, s, wasOpen, t))
  {
    hide AsForecast, Paced, WindowTurned, Advanced, Checked, Started, InWindow;
    var w := WindowTurned(cfg, s, wasOpen, t);
    AdvancedPaced(cfg, w, t);
    var a := Advanced(cfg, w, t);
    CheckedPaced(cfg, a, t);
    var c := Checked(a, |a.nodes|, t);
    if c.rot.None? { StartedPaced(cfg, c, t, InWindow(cfg.schedule, t)); }
  }

  lemma {:induction false} PacedRun(cfg: Config, s: RunState, wasOpen: bool, now: Time, last: Time, steps: nat)
    requires PacedState(cfg, s)
    ensures PacedState(cfg, RunFrom(cfg, s, wasOpen, now, last, steps).s)
    decreases MAX_STEPS - steps
  {
    hide AsForecast, Paced, Processed, InWindow, NextInstant, Diagnosed;
    if now <= cfg.end && steps < MAX_STEPS {
      ProcessedPaced(cfg, s, wasOpen, now);
      var t := Processed(cfg, s, wasOpen, now);
      PacedRun(cfg, t, InWindow(cfg.schedule, now), NextInstant(t, now), now, steps + 1);
    }
  }

  /** The throughput forecast is a bound on the simulation: with the fallback off and the
  world as estimated, any occurrence of the forecast's window length holds at most C
  starts. */
  lemma ThroughputBoundsStarts(cfg: Config, diagnostics: seq<Diagnostic>, a: nat, b: nat, open: Time)
    requires Durations(cfg, InitialNodes(cfg.template)) && cfg.start <= cfg.end
    requires AsForecast(cfg, InitialNodes(cfg.template)) && 0 < cfg.res.derived.tRotEst + cfg.res.cooldown
    requires cfg.res.derived == Derivation.Derive(cfg.res.inputs) && cfg.res.cooldown == cfg.res.inputs.cooldown
    requires 0 < cfg.res.inputs.period && 0 < cfg.res.inputs.windowLen && cfg.res.inputs.maxUnavailable <= 1
    requires var rs := Ran(cfg, InitialState(cfg, diagnostics)).rotations;
             a <= b < |rs| && open <= rs[a].start && rs[b].start < open + cfg.res.inputs.windowLen
    ensures b - a + 1 <= cfg.res.derived.c
  {
    TimelineStructure(cfg, diagnostics);
    RunIsPaced(cfg, diagnostics);
    var rs := Ran(cfg, InitialState(cfg, diagnostics)).rotations;
    hide Ran, Serial, Paced, InOrder, Observed, Consecutive, InWindow, Derivation.Derive, AsForecast, Durations;
    StartsFitTheForecast(cfg, rs, a, b, open, cfg.res.inputs.windowLen);
    ForecastCount(cfg.res.inputs);
  }

  lemma ForecastCount(i: Derivation.Inputs)
    requires 0 < i.period && 0 < i.windowLen && i.maxUnavailable <= 1 && 0 < Derivation.Derive(i).tRotEst + i.cooldown
    ensures Derivation.Derive(i).c == Derivation.CeilDiv(i.windowLen, Derivation.Derive(i).tRotEst + i.cooldown)
  {
  }

  lemma RunIsPaced(cfg: Config, diagnostics: seq<Diagnostic>)
    requires AsForecast(cfg, InitialNodes(cfg.template))
    ensures Paced(cfg, Ran(cfg, InitialState(cfg, diagnostics)).rotations)
  {
    var s := Opened(cfg, InitialState(cfg, diagnostics));
    assert PacedState(cfg, s);
    PacedRun(cfg, s, InWindow(cfg.schedule, cfg.start), cfg.start, cfg.start, 0);
    var e := RunFrom(cfg, s, InWindow(cfg.schedule, cfg.start), cfg.start, cfg.start, 0);
    assert Swept(e.s, Through(cfg, e)).rotations == e.s.rotations;
  }
}
