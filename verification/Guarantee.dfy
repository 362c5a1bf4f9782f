/** The end-to-end guarantee, on the simulator: a one-node fleet on template values,
under a schedule with no fatal finding, never reaches its expiry
(internal/sim/loop.go over internal/schedule, internal/selection, internal/decide and
internal/window). */
module Guarantee {
  import opened Clock
  import opened Options
  import opened Notes
  import opened Calendar
  import opened Weekly
  import opened Periods
  import opened Selection
  import opened Sim
  import Decide
  import Derivation
  import Promise

  /** What the resolution of a policy and a fleet gives a run. */
  ghost predicate Resolves(cfg: Config) {
    var r, i := cfg.res, cfg.res.inputs;
    && r.derived == Derivation.Derive(i)
    && Promise.ReportedPeriod(Members(cfg.schedule), i.period)
    && r.leadTime == Promise.ResolvedLeadTime(i.k, i.period, i.readyTimeout)
    && r.override == i.override && r.readyTimeout == i.readyTimeout && r.cooldown == i.cooldown
    && i.expireAfter == cfg.template.expireAfter
    && i.tgp == (if cfg.template.tgp.Some? then cfg.template.tgp.value else Derivation.DRAIN_FALLBACK)
    && 0 < i.readyTimeout && 0 <= i.cooldown && 0 <= i.tgp
    && 0 <= cfg.env.provisioning <= r.readyTimeout && 0 <= cfg.env.drain
  }

  /** The template's drain, held to its bound. */
  function TemplateDrain(cfg: Config): int {
    var cap := if cfg.template.tgp.Some? then cfg.template.tgp.value else Derivation.DRAIN_FALLBACK;
    if cfg.env.drain > cap then cap else cfg.env.drain
  }

  /** A rotation, drained and settled, is over before the node it made is old enough. */
  ghost predicate Sound(cfg: Config) {
    && Fixed(cfg.schedule) && Resolves(cfg)
    && !Derivation.HasFatal(cfg.res.derived.findings)
    && cfg.env.provisioning + TemplateDrain(cfg) + cfg.res.cooldown <= cfg.res.derived.a
  }

  predicate OnTemplate(cfg: Config, n: SimNode) {
    n.expireAfter == cfg.template.expireAfter && n.tgp == cfg.template.tgp
  }

  /** The age the node must be past. */
  function Trigger(cfg: Config, n: SimNode): Time {
    n.createdAt + cfg.res.derived.a
  }

  /** With no fatal finding, one period, one worst-case rotation and the buffer fit
  between the trigger and the deadline. */
  lemma SlackFits(cfg: Config)
    requires Sound(cfg)
    ensures var i := cfg.res.inputs;
            && 0 < i.period && 0 < cfg.res.derived.a
            && cfg.res.derived.a + i.period + i.readyTimeout + i.tgp + Derivation.BUFFER <= cfg.template.expireAfter
            && 0 <= cfg.env.provisioning <= i.readyTimeout && 0 <= TemplateDrain(cfg) <= i.tgp && 0 <= cfg.res.cooldown
            && cfg.env.provisioning + TemplateDrain(cfg) + cfg.res.cooldown <= cfg.res.derived.a
  {
    hide Derivation.FloorDiv, Derivation.CeilDiv, Derivation.Layer1, Derivation.Layer2;
    var i := cfg.res.inputs;
    Derivation.AcceptedExactlyWhen(i);
    if i.override.None? {
      Derivation.MulMonotone(1, i.k, i.period);
      assert i.period <= i.k * i.period;
    }
  }

  /** The trigger selection applies is the derived threshold. */
  lemma TriggeredPastTrigger(cfg: Config, n: SimNode, now: Time)
    requires Sound(cfg) && OnTemplate(cfg, n)
    ensures Triggered(ViewOf(n), Sim.SelectionInputs(cfg, now)) <==> Trigger(cfg, n) < now
  {
    SlackFits(cfg);
  }

  // ----- opportunities -----

  lemma SameFloor(x: Time)
    requires x % MINUTE != 0
    ensures FloorMinute(x) == FloorMinute(x - 1)
  {
  }

  lemma OpeningsAreWholeMinutes(s: Schedule, x: Time)
    requires Fixed(s) && Opens(Members(s), x)
    ensures x % MINUTE == 0
  {
    if x % MINUTE != 0 {
      SameFloor(x);
      hide FloorMinute, InWindow, Fixed;
      assert Members(s)(x) == InWindow(s, x) && Members(s)(x - 1) == InWindow(s, x - 1);
      FixedAligned(s, FloorMinute(x), x + 1);
      SameMinuteAgree(s, FloorMinute(x), x + 1, x, x - 1);
    }
  }

  /** Any reported period past an instant holds a whole minute in the window. */
  lemma OpportunityWithin(s: Schedule, p: int, from: Time) returns (x: Time)
    requires Fixed(s) && Promise.ReportedPeriod(Members(s), p)
    ensures from < x <= from + p && x % MINUTE == 0 && InWindow(s, x)
  {
    if NeverCloses(Members(s)) {
      x := FloorMinute(from) + MINUTE;
      assert Members(s)(x);
    } else {
      assert HoldsOpening(Members(s), from, p);
      x :| from < x <= from + p && Opens(Members(s), x);
      OpeningsAreWholeMinutes(s, x);
      assert Members(s)(x);
    }
  }

  // ----- the invariant of the run -----

  predicate NoBreach(events: seq<Event>) {
    forall e <- events :: !e.Breached?
  }

  /** The window has offered nothing between the trigger and `last`. */
  ghost predicate NothingMissed(cfg: Config, n: SimNode, last: Time) {
    forall y :: Trigger(cfg, n) < y <= last && y % MINUTE == 0 ==> !InWindow(cfg.schedule, y)
  }

  /** The one node at rest: its last rotation has settled by its trigger, and it has had
  no chance yet. */
  ghost predicate AtRest(cfg: Config, s: RunState, last: Time)
    requires |s.nodes| == 1
  {
    var n := s.nodes[0];
    && s.rot.None? && n.phase == Fresh
    && (s.lastRotationAt.Some? ==> s.lastRotationAt.value + cfg.res.cooldown <= Trigger(cfg, n))
    && NothingMissed(cfg, n, last)
  }

  /** The one node in rotation, which will be over the buffer before the deadline. */
  ghost predicate InRotation(cfg: Config, s: RunState, last: Time)
    requires |s.nodes| == 1
  {
    && s.rot.Some?
    && var n, rot := s.nodes[0], s.rot.value;
       && rot.slot == 0 && n.phase in {Pending, Draining}
       && last <= rot.doneAt && (!rot.surgeless ==> rot.readyAt <= rot.doneAt)
       && rot.doneAt + Derivation.BUFFER <= n.Deadline()
       && rot.doneAt == rot.start + (if rot.surgeless then 0 else cfg.env.provisioning) + TemplateDrain(cfg)
  }

  ghost predicate Calm(cfg: Config, s: RunState, last: Time) {
    && Indexed(s) && |s.nodes| == 1
    && OnTemplate(cfg, s.nodes[0]) && !s.nodes[0].breached
    && NoBreach(s.events)
    && (AtRest(cfg, s, last) || InRotation(cfg, s, last))
  }

  /** `t` is the instant processed after `last`. */
  ghost predicate Follows(cfg: Config, s: RunState, last: Time, t: Time)
    requires |s.nodes| == 1
  {
    && last < t
    && (forall y :: last < y < t ==> y % MINUTE != 0)
    && (s.rot.None? ==> t % MINUTE == 0 || t <= Trigger(cfg, s.nodes[0]))
    && (s.rot.Some? ==>
          if last < s.rot.value.doneAt then t <= s.rot.value.doneAt else t % MINUTE == 0 && t <= last + MINUTE)
  }

  /** While nothing has been missed, the next instant is within a period of the trigger. */
  lemma NextChance(cfg: Config, n: SimNode, last: Time, t: Time)
    requires Sound(cfg) && OnTemplate(cfg, n) && NothingMissed(cfg, n, last)
    requires last < t && (forall y :: last < y < t ==> y % MINUTE != 0)
    ensures t <= Trigger(cfg, n) + cfg.res.inputs.period
  {
    var x := OpportunityWithin(cfg.schedule, cfg.res.inputs.period, Trigger(cfg, n));
    assert !(x <= last);
  }

  /** Before the deadline a check finds nothing. */
  lemma CheckFindsNothing(s: RunState, t: Time)
    requires |s.nodes| == 1 && t < s.nodes[0].Deadline()
    ensures Checked(s, 1, t) == s
  {
    assert Checked(s, 0, t) == s;
  }

  /** The one claim is picked exactly when it is past its trigger. */
  lemma OnlyCandidate(cfg: Config, s: RunState, t: Time)
    requires Sound(cfg) && |s.nodes| == 1 && OnTemplate(cfg, s.nodes[0]) && s.nodes[0].phase == Fresh
    ensures Candidate(cfg, s, t) == if Trigger(cfg, s.nodes[0]) < t then Some(Chosen(0, ViewOf(s.nodes[0]))) else None
  {
    var n, views, sel := s.nodes[0], Views(s.nodes), Sim.SelectionInputs(cfg, t);
    assert views == [ViewOf(n)];
    assert views[..0] == [];
    TriggeredPastTrigger(cfg, n, t);
    assert Pick(views, sel) == if Eligible(ViewOf(n), sel) then Some(ViewOf(n)) else None;
    assert SlotOf(s.nodes, n.Name(), 0) == 0;
  }

  /** A start within a period of the trigger is over the buffer before the deadline. */
  lemma BegunInTime(cfg: Config, s: RunState, surgeless: bool, t: Time)
    requires Sound(cfg) && Indexed(s) && |s.nodes| == 1 && OnTemplate(cfg, s.nodes[0]) && !s.nodes[0].breached
    requires NoBreach(s.events) && t <= Trigger(cfg, s.nodes[0]) + cfg.res.inputs.period
    ensures Calm(cfg, RotationBegun(cfg, s, 0, surgeless, t), t)
  {
    SlackFits(cfg);
    hide Sound, AtRest, InWindow, GenerationOf, EligibilityBoundary, NothingMissed;
    assert DrainFor(cfg, s.nodes[0]) == TemplateDrain(cfg);
    assert InRotation(cfg, RotationBegun(cfg, s, 0, surgeless, t), t);
  }

  lemma NotFatal(cfg: Config)
    requires Sound(cfg)
    ensures !Derivation.HasFatal(cfg.res.derived.findings)
  {
  }

  /** In the window and past its trigger, a node at rest meets no closed gate. */
  lemma GatesOpen(cfg: Config, s: RunState, last: Time, t: Time)
    requires |s.nodes| == 1 && AtRest(cfg, s, last) && Trigger(cfg, s.nodes[0]) < t && InWindow(cfg.schedule, t)
    ensures Decide.StartGate(GateInputs(cfg, s, t, true)) == Decide.GateNone
  {
  }

  /** A start that is not made only records why. */
  lemma IdleStep(cfg: Config, s: RunState, last: Time, t: Time, u: RunState)
    requires Calm(cfg, s, last) && AtRest(cfg, s, last) && NothingMissed(cfg, s.nodes[0], t)
    requires u == s.(events := u.events, blocked := u.blocked, census := u.census) && NoBreach(u.events)
    ensures Calm(cfg, u, t)
  {
    hide InWindow, NothingMissed;
  }

  lemma IdleEvents(s: RunState, t: Time, gate: Decide.Gate, c: Census)
    requires NoBreach(s.events)
    ensures NoBreach(CensusFlushed(BlockedFlushed(s, t), t).events)
    ensures NoBreach(BlockedRecorded(CensusFlushed(s, t), t, gate).events)
    ensures NoBreach(CensusRecorded(BlockedFlushed(s, t), t, c).events)
  {
  }

  /** At rest and before its deadline: either the node starts now, or it has still missed
  nothing. */
  lemma StartStep(cfg: Config, s: RunState, last: Time, t: Time)
    requires Sound(cfg) && Calm(cfg, s, last) && AtRest(cfg, s, last)
    requires last < t && (forall y :: last < y < t ==> y % MINUTE != 0)
    ensures Calm(cfg, Started(cfg, s, t, InWindow(cfg.schedule, t)), t)
  {
    var n, open := s.nodes[0], InWindow(cfg.schedule, t);
    var gates := GateInputs(cfg, s, t, open);
    NotFatal(cfg);
    OnlyCandidate(cfg, s, t);
    NextChance(cfg, n, last, t);
    IdleEvents(s, t, Decide.StartGate(gates), CensusOf(Views(s.nodes), Sim.SelectionInputs(cfg, t)));
    if Trigger(cfg, n) < t && open { GatesOpen(cfg, s, last, t); }
    NothingMissedNow(cfg, s, last, t);
    hide Sound, RotationBegun, Candidate, CensusOf, InWindow, Decide.SurgelessFallback, Decide.StartGate, InRotation,
         BlockedRecorded, CensusRecorded, BlockedFlushed, CensusFlushed, NothingMissed, GateInputs, NoBreach;
    if Decide.StartGate(gates) == Decide.GateNone && Trigger(cfg, n) < t {
      BegunInTime(cfg, CensusFlushed(BlockedFlushed(s, t), t), Decide.SurgelessFallback(ViewOf(n), gates), t);
    } else {
      IdleStep(cfg, s, last, t, Started(cfg, s, t, open));
    }
  }

  lemma NothingMissedNow(cfg: Config, s: RunState, last: Time, t: Time)
    requires |s.nodes| == 1 && AtRest(cfg, s, last) && last < t && (forall y :: last < y < t ==> y % MINUTE != 0)
    requires t <= Trigger(cfg, s.nodes[0]) || !InWindow(cfg.schedule, t)
             || Decide.StartGate(GateInputs(cfg, s, t, InWindow(cfg.schedule, t))) == Decide.GateNone
    ensures t <= Trigger(cfg, s.nodes[0]) || !InWindow(cfg.schedule, t) ==> NothingMissed(cfg, s.nodes[0], t)
    ensures Decide.StartGate(GateInputs(cfg, s, t, InWindow(cfg.schedule, t))) != Decide.GateNone ==> NothingMissed(cfg, s.nodes[0], t)
  {
    hide InWindow, Decide.StartGate;
  }

  /** A completion leaves a node at rest, whose trigger is not before the completion. */
  lemma CompletionStep(cfg: Config, s: RunState, last: Time, t: Time)
    requires Sound(cfg) && Calm(cfg, s, last) && InRotation(cfg, s, last) && Follows(cfg, s, last, t)
    requires s.rot.value.doneAt <= t
    ensures var a := Advanced(cfg, s, t);
            && Calm(cfg, a, last) && AtRest(cfg, a, last)
            && t < a.nodes[0].Deadline()
  {
    SlackFits(cfg);
    CompletedNode(cfg, s, t);
    var a := Advanced(cfg, s, t);
    CompletedAtRest(cfg, s, last, t);
    hide Sound, Follows, InRotation, Advanced, NothingMissed, InWindow;
    assert NoBreach(a.events);
  }

  /** What a completion leaves in the slot. */
  lemma CompletedNode(cfg: Config, s: RunState, t: Time)
    requires Indexed(s) && |s.nodes| == 1 && s.rot.Some? && s.rot.value.doneAt <= t
    ensures var a, rot := Advanced(cfg, s, t), s.rot.value;
            && |a.nodes| == 1 && a.rot.None? && a.lastRotationAt == Some(rot.doneAt)
            && OnTemplate(cfg, a.nodes[0]) && a.nodes[0].phase == Fresh && !a.nodes[0].breached
            && a.nodes[0].createdAt == (if rot.surgeless then rot.doneAt else rot.start)
            && (NoBreach(s.events) ==> NoBreach(a.events))
  {
  }

  lemma CompletedAtRest(cfg: Config, s: RunState, last: Time, t: Time)
    requires Sound(cfg) && Calm(cfg, s, last) && InRotation(cfg, s, last) && Follows(cfg, s, last, t)
    requires s.rot.value.doneAt <= t
    ensures |Advanced(cfg, s, t).nodes| == 1 && AtRest(cfg, Advanced(cfg, s, t), last)
    ensures t < Advanced(cfg, s, t).nodes[0].Deadline()
  {
    SlackFits(cfg);
    CompletedNode(cfg, s, t);
    hide Advanced, Calm, Indexed, InWindow;
    var n := Advanced(cfg, s, t).nodes[0];
    assert last <= s.rot.value.doneAt <= Trigger(cfg, n);
  }

  /** An advance short of completion. */
  lemma ReadyStep(cfg: Config, s: RunState, last: Time, t: Time)
    requires Sound(cfg) && Calm(cfg, s, last) && InRotation(cfg, s, last) && last < t < s.rot.value.doneAt
    ensures Calm(cfg, Advanced(cfg, s, t), t) && InRotation(cfg, Advanced(cfg, s, t), t)
    ensures t < Advanced(cfg, s, t).nodes[0].Deadline()
  {
  }

  lemma TurnKeepsCalm(cfg: Config, s: RunState, last: Time, wasOpen: bool, t: Time)
    requires Calm(cfg, s, last) && Follows(cfg, s, last, t)
    ensures var w := WindowTurned(cfg, s, wasOpen, t);
            && Calm(cfg, w, last) && Follows(cfg, w, last, t)
            && Indexed(w) && |w.nodes| == 1 && (w.rot.None? ==> AtRest(cfg, w, last)) && (w.rot.Some? ==> InRotation(cfg, w, last))
  {
    hide InWindow;
    var w := WindowTurned(cfg, s, wasOpen, t);
    assert w.nodes == s.nodes && w.rot == s.rot && w.lastRotationAt == s.lastRotationAt;
    assert NoBreach(w.events);
    assert AtRest(cfg, s, last) ==> AtRest(cfg, w, last);
  }

  lemma RestingBeforeDeadline(cfg: Config, s: RunState, last: Time, t: Time)
    requires Sound(cfg) && Calm(cfg, s, last) && AtRest(cfg, s, last) && Follows(cfg, s, last, t)
    ensures t < s.nodes[0].Deadline() && Advanced(cfg, s, t) == s
  {
    SlackFits(cfg);
    hide Sound, InWindow;
    NextChance(cfg, s.nodes[0], last, t);
  }

  /** One processed instant keeps the invariant. */
  lemma CalmStep(cfg: Config, s: RunState, last: Time, wasOpen: bool, t: Time)
    requires Sound(cfg) && Calm(cfg, s, last) && Follows(cfg, s, last, t)
    ensures Calm(cfg, Processed(cfg, s, wasOpen, t), t)
  {
    var w := WindowTurned(cfg, s, wasOpen, t);
    TurnKeepsCalm(cfg, s, last, wasOpen, t);
    hide Sound, AtRest, InRotation, NothingMissed, WindowTurned, InWindow, Started, Calm;
    var a := Advanced(cfg, w, t);
    if w.rot.None? {
      RestingBeforeDeadline(cfg, w, last, t);
      CheckFindsNothing(a, t);
      StartStep(cfg, a, last, t);
    } else if t < w.rot.value.doneAt {
      ReadyStep(cfg, w, last, t);
      CheckFindsNothing(a, t);
    } else {
      CompletionStep(cfg, w, last, t);
      CheckFindsNothing(a, t);
      StartStep(cfg, a, last, t);
    }
  }

  lemma NextMinute(now: Time)
    ensures now < FloorMinute(now) + MINUTE <= now + MINUTE && (FloorMinute(now) + MINUTE) % MINUTE == 0
  {
  }

  lemma NoMinuteBetween(now: Time, y: Time)
    requires now < y < FloorMinute(now) + MINUTE
    ensures y % MINUTE != 0
  {
  }

  /** The clock processes every whole minute and every completion. */
  lemma NextFollows(cfg: Config, s: RunState, now: Time)
    requires Calm(cfg, s, now)
    ensures Follows(cfg, s, now, NextInstant(s, now))
    ensures NextInstant(s, now) <= FloorMinute(now) + MINUTE
  {
    var next := NextInstant(s, now);
    forall y | now < y < next
      ensures y % MINUTE != 0
    {
      NoMinuteBetween(now, y);
    }
    NextMinute(now);
    hide FloorMinute, AtRest;
  }

  lemma CalmDiagnosed(cfg: Config, s: RunState, last: Time, d: Diagnostic)
    requires Calm(cfg, s, last)
    ensures Calm(cfg, Diagnosed(s, d), last)
  {
    hide InWindow;
    var t := Diagnosed(s, d);
    assert t.nodes == s.nodes && t.rot == s.rot && t.events == s.events;
    assert AtRest(cfg, s, last) ==> AtRest(cfg, t, last);
  }

  lemma {:induction false} CalmRun(cfg: Config, s: RunState, last: Time, wasOpen: bool, now: Time, shown: Time, steps: nat)
    requires Sound(cfg) && Calm(cfg, s, last) && Follows(cfg, s, last, now)
    requires steps == 0 ==> now <= cfg.end
    requires steps > 0 ==> shown == last
    ensures var e := RunFrom(cfg, s, wasOpen, now, shown, steps);
            && Calm(cfg, e.s, e.last)
            && (!e.exhausted ==> exists next :: Follows(cfg, e.s, e.last, next) && cfg.end < next)
    decreases MAX_STEPS - steps
  {
    hide Sound, AtRest, InRotation, Follows, Processed, NextInstant, InWindow;
    if cfg.end < now {
      assert Follows(cfg, s, last, now);
    } else if steps >= MAX_STEPS {
      CalmDiagnosed(cfg, s, last, StepBudgetExhausted(last));
    } else {
      var t := Processed(cfg, s, wasOpen, now);
      CalmStep(cfg, s, last, wasOpen, now);
      NextFollows(cfg, t, now);
      CalmRun(cfg, t, now, InWindow(cfg.schedule, now), NextInstant(t, now), now, steps + 1);
    }
  }

  /** The final sweep reaches no deadline either. */
  lemma SweepFindsNothing(cfg: Config, s: RunState, last: Time, through: Time)
    requires Sound(cfg) && Calm(cfg, s, last)
    requires through == last || exists next :: Follows(cfg, s, last, next) && through < next
    ensures NoBreach(Swept(s, through).events)
  {
    SlackFits(cfg);
    hide Sound, InWindow, NothingMissed;
    var n := s.nodes[0];
    var next := if through == last then last + 1 else (var x :| Follows(cfg, s, last, x) && through < x; x);
    if s.rot.None? {
      NextChance(cfg, n, last, next);
    }
    assert through < n.Deadline();
    CheckFindsNothing(s, through);
  }

  /** The guarantee. A one-node fleet on template values, with no fatal finding, whose
  horizon starts no later than the node's trigger, and whose threshold leaves room for a
  rotation and its cooldown, never breaches an expiry, in any generation, over any
  horizon. */
  lemma OneNodeNeverBreaches(cfg: Config, diagnostics: seq<Diagnostic>)
    requires Sound(cfg) && cfg.start <= cfg.end
    requires |cfg.template.nodes| == 1
    requires cfg.template.nodes[0].expireAfter.None? && cfg.template.nodes[0].tgp.None?
    requires cfg.start <= cfg.template.nodes[0].createdAt + cfg.res.derived.a
    ensures NoBreach(Ran(cfg, InitialState(cfg, diagnostics)).events)
  {
    var s := Opened(cfg, InitialState(cfg, diagnostics));
    var last := cfg.start - 1;
    assert NothingMissed(cfg, s.nodes[0], last);
    assert Calm(cfg, s, last);
    assert Follows(cfg, s, last, cfg.start);
    CalmRun(cfg, s, last, InWindow(cfg.schedule, cfg.start), cfg.start, cfg.start, 0);
    var e := RunFrom(cfg, s, InWindow(cfg.schedule, cfg.start), cfg.start, cfg.start, 0);
    SweepFindsNothing(cfg, e.s, e.last, Through(cfg, e));
  }
}
