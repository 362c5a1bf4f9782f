/** The simulator's entry point: the input guards, the resolution of a policy against a
fleet, and what the timeline then guarantees (internal/sim/sim.go,
internal/sim/resolve.go). */
module Simulator {
  import opened Clock
  import opened Options
  import opened Calendar
  import opened Weekly
  import opened Periods
  import opened Sim
  import opened Guarantee
  import Derivation
  import Promise
  import SimRun
  import Sorting

  /** The policy fields the simulation reads, defaults applied. `override` is None for an
  automatic age threshold. */
  datatype Policy = Policy(
    schedule: Schedule,
    readyTimeout: int,
    cooldown: int,
    failurePause: Option<int>,
    retryBackoff: int,
    drainEstimate: Option<int>,
    provisioningEstimate: Option<int>,
    fallbackEnabled: bool,
    k: int,
    maxUnavailable: int,
    override: Option<int>)

  const FAILURE_PAUSE_FLOOR: int := 10 * MINUTE

  predicate Positive(d: Option<int>) { d.Some? ==> 0 < d.value }

  predicate ValidPolicy(p: Policy) {
    && 1 <= p.k && p.maxUnavailable == 1
    && 0 < p.readyTimeout && 0 < p.retryBackoff && 0 <= p.cooldown
    && Positive(p.drainEstimate) && Positive(p.provisioningEstimate) && Positive(p.failurePause) && Positive(p.override)
    && p.schedule != []
    && forall e <- p.schedule :: e.days != [] && e.startMin < e.endMin
  }

  /** The resolution the controller would make, sourced from a fleet. */
  function Resolution(p: Policy, f: Fleet, period: int, windowLen: int, idleGap: Option<int>): Resolved {
    var tgp := if f.tgp.Some? then f.tgp.value else Derivation.DRAIN_FALLBACK;
    var inputs := Derivation.Inputs(f.expireAfter, tgp, f.tgp.None?, period, windowLen, idleGap, p.readyTimeout, p.cooldown,
                                    p.drainEstimate, p.provisioningEstimate, p.retryBackoff, p.k, p.maxUnavailable,
                                    |f.nodes|, p.override);
    Resolved(Promise.ResolvedLeadTime(p.k, period, p.readyTimeout), p.override, p.retryBackoff, p.readyTimeout, p.cooldown,
             if p.failurePause.Some? then p.failurePause.value else Derivation.Max(FAILURE_PAUSE_FLOOR, p.cooldown),
             Promise.PoolDrainBound(f.tgp), Derivation.Derive(inputs), inputs)
  }

  method Resolve(p: Policy, f: Fleet) returns (r: Resolved)
    requires Fixed(p.schedule)
    ensures exists period, windowLen, idleGap :: r == Resolution(p, f, period, windowLen, idleGap)
    ensures if NeverOpens(Members(p.schedule)) then r.inputs.period == 0
            else Promise.ReportedPeriod(Members(p.schedule), r.inputs.period)
    ensures if NeverOpens(Members(p.schedule)) || NeverCloses(Members(p.schedule)) then r.inputs.idleGap == None
            else r.inputs.idleGap.Some? && IsShortestGap(Members(p.schedule), r.inputs.idleGap.value)
  {
    var period, opens := WorstCasePeriod(p.schedule);
    var windowLen, _ := ShortestWindow(p.schedule);
    var gap, closes := ShortestIdleGap(p.schedule);
    var idleGap := if closes then Some(gap) else None;
    r := Resolution(p, f, period, windowLen, idleGap);
  }

  datatype Refusal = InvertedHorizon | NegativeEnv | NonPositiveExpireAfter | InvalidPolicy

  datatype Timeline = Timeline(
    events: seq<Event>,
    generations: seq<Generation>,
    rotations: seq<Rotation>,
    windows: seq<WindowInterval>,
    simulatedThrough: Option<Time>,
    derived: Derivation.Result,
    inputs: Derivation.Inputs,
    diagnostics: seq<Diagnostic>,
    partial: bool)

  datatype Outcome = Refused(why: Refusal) | Simulated(timeline: Timeline)

  function Earlier(a: Event, b: Event): bool { a.at <= b.at }

  /** The durations the virtual world takes, the policy's own estimates by default. */
  function ResolvedEnv(env: Env, r: Resolved): Env {
    Env(if env.provisioning == 0 then r.derived.provisioningEstimate else env.provisioning,
        if env.drain == 0 then r.derived.drainEstimate else env.drain)
  }

  /** The fleet the guarantee is about: one node on template values, old enough for the
  horizon to see its trigger, under an accepted schedule whose threshold leaves room for
  one rotation and its cooldown. */
  predicate Guaranteed(f: Fleet, env: Env, start: Time, t: Timeline) {
    && |f.nodes| == 1 && f.nodes[0].expireAfter.None? && f.nodes[0].tgp.None? && (f.tgp.Some? ==> 0 <= f.tgp.value)
    && !Derivation.HasFatal(t.derived.findings)
    && start <= f.nodes[0].createdAt + t.derived.a
    && (var prov := if env.provisioning == 0 then t.derived.provisioningEstimate else env.provisioning;
        var drain := if env.drain == 0 then t.derived.drainEstimate else env.drain;
        var cap := if f.tgp.Some? then f.tgp.value else Derivation.DRAIN_FALLBACK;
        prov + (if drain > cap then cap else drain) + t.inputs.cooldown <= t.derived.a)
  }

  /** What an accepted call runs: the policy resolved against the fleet, over the period
  its calendar reports. */
  ghost predicate Simulates(p: Policy, f: Fleet, env: Env, start: Time, end: Time, cfg: Config) {
    && Fixed(p.schedule)
    && (exists period, windowLen, idleGap :: cfg.res == Resolution(p, f, period, windowLen, idleGap))
    && (if NeverOpens(Members(p.schedule)) then cfg.res.inputs.period == 0
        else Promise.ReportedPeriod(Members(p.schedule), cfg.res.inputs.period))
    && cfg == Config(p.schedule, p.fallbackEnabled, cfg.res, ResolvedEnv(env, cfg.res), start, end, f)
  }

  /** The timeline is the record of the run, its events put in order. */
  predicate Shows(cfg: Config, t: Timeline) {
    var r := Ran(cfg, InitialState(cfg, []));
    && t.events == Sorting.Sort(Earlier, r.events)
    && t.generations == r.generations && t.rotations == r.rotations && t.windows == r.windows && t.diagnostics == r.diagnostics
  }

  /** The simulation. Its errors are the inputs it cannot run; everything else is on the
  timeline, whose events are in order, and a guaranteed fleet has no breach on it. */
  method Simulate(p: Policy, f: Fleet, env: Env, start: Time, end: Time) returns (o: Outcome)
    requires Fixed(p.schedule)
    ensures o.Refused? <==> end <= start || env.provisioning < 0 || env.drain < 0 || f.expireAfter <= 0 || !ValidPolicy(p)
    ensures o.Simulated? ==> Sorting.SortedBy(Earlier, o.timeline.events)
    ensures o.Simulated? && o.timeline.simulatedThrough.Some? ==>
              exists cfg :: Simulates(p, f, env, start, end, cfg) && Shows(cfg, o.timeline)
    ensures o.Simulated? && o.timeline.simulatedThrough.None? ==> o.timeline.generations == [] && o.timeline.partial
    ensures o.Simulated? && Guaranteed(f, env, start, o.timeline) ==> NoBreach(o.timeline.events)
  {
    if end <= start { return Refused(InvertedHorizon); }
    if env.provisioning < 0 || env.drain < 0 { return Refused(NegativeEnv); }
    if f.expireAfter <= 0 { return Refused(NonPositiveExpireAfter); }
    if !ValidPolicy(p) { return Refused(InvalidPolicy); }
    var res := Resolve(p, f);
    var world := ResolvedEnv(env, res);
    if world.provisioning > res.readyTimeout {
      return Simulated(Timeline([], [], [], [], None, res.derived, res.inputs, [EnvProvisioningAboveReadyTimeout], true));
    }
    var cfg := Config(p.schedule, p.fallbackEnabled, res, world, start, end, f);
    var run := new SimRun.Run(cfg, []);
    var through, partial := run.Loop();
    EarlierIsTotal();
    Sorting.SortIsSorted(Earlier, run.events);
    o := Simulated(Timeline(Sorting.Sort(Earlier, run.events), run.generations, run.rotations, run.windows, Some(through),
                            res.derived, res.inputs, run.diagnostics, partial));
    assert Simulates(p, f, env, start, end, cfg) && Shows(cfg, o.timeline);
    if Guaranteed(f, env, start, o.timeline) {
      GuaranteedIsSound(p, f, env, cfg, o.timeline);
      OneNodeNeverBreaches(cfg, []);
      assert NoBreach(run.State().events);
    }
  }

  lemma EarlierIsTotal()
    ensures Sorting.TotalOrder(Earlier)
  {
  }

  /** What a resolution hands on. */
  lemma ResolutionFacts(p: Policy, f: Fleet, period: int, windowLen: int, idleGap: Option<int>)
    ensures var r := Resolution(p, f, period, windowLen, idleGap);
            var i := r.inputs;
            && r.derived == Derivation.Derive(i)
            && r.leadTime == Promise.ResolvedLeadTime(i.k, i.period, i.readyTimeout)
            && r.override == i.override && r.readyTimeout == i.readyTimeout && r.cooldown == i.cooldown
            && i.expireAfter == f.expireAfter && i.override == p.override && i.readyTimeout == p.readyTimeout
            && i.cooldown == p.cooldown && i.drainEstimate == p.drainEstimate && i.provisioningEstimate == p.provisioningEstimate
            && i.tgp == (if f.tgp.Some? then f.tgp.value else Derivation.DRAIN_FALLBACK)
  {
    hide Derivation.Derive, Promise.ResolvedLeadTime, Promise.PoolDrainBound;
  }

  lemma GuaranteedIsSound(p: Policy, f: Fleet, env: Env, cfg: Config, t: Timeline)
    requires Fixed(p.schedule) && ValidPolicy(p) && 0 <= env.provisioning && 0 <= env.drain
    requires exists period, windowLen, idleGap :: cfg.res == Resolution(p, f, period, windowLen, idleGap)
    requires if NeverOpens(Members(p.schedule)) then cfg.res.inputs.period == 0
             else Promise.ReportedPeriod(Members(p.schedule), cfg.res.inputs.period)
    requires cfg == Config(p.schedule, p.fallbackEnabled, cfg.res, ResolvedEnv(env, cfg.res), cfg.start, cfg.end, f)
    requires cfg.env.provisioning <= cfg.res.readyTimeout
    requires t.derived == cfg.res.derived && t.inputs == cfg.res.inputs && Guaranteed(f, env, cfg.start, t)
    ensures Sound(cfg)
  {
    hide Derivation.Derive, Derivation.HasFatal, Resolution, Fixed, NeverOpens, NeverCloses, Promise.ResolvedLeadTime,
         Promise.ReportedPeriod, Members;
    var period, windowLen, idleGap :| cfg.res == Resolution(p, f, period, windowLen, idleGap);
    ResolutionFacts(p, f, period, windowLen, idleGap);
    Derivation.FatalExactlyWhen(cfg.res.inputs);
    EstimatesNonNegative(cfg.res.inputs);
  }

  lemma EstimatesNonNegative(i: Derivation.Inputs)
    requires 0 <= i.tgp && 0 < i.readyTimeout && Positive(i.drainEstimate) && Positive(i.provisioningEstimate)
    ensures 0 <= Derivation.Derive(i).drainEstimate && 0 <= Derivation.Derive(i).provisioningEstimate
  {
  }
}
