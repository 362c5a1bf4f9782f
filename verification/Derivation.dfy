/** The age-threshold derivation and its layered feasibility findings
(internal/schedule/schedule.go). */
module Derivation {
  import opened Clock
  import opened Options

  const BUFFER: int := 2 * MINUTE
  const HARD_CAP: int := 21 * DAY
  const DRAIN_FALLBACK: int := HOUR
  const DRAIN_ESTIMATE_DEFAULT: int := 10 * MINUTE
  const PROVISIONING_ESTIMATE_DEFAULT: int := 5 * MINUTE

  datatype Severity = Warn | Fatal

  datatype Code =
    | DrainEstimateAboveTGP | ProvisioningEstimateAboveReadyTimeout | NoWindows
    | KBelowOne | KBelowTwo | OverrideNonPositive | OverrideGBelowOne | OverrideGBelowK
    | ANonPositive | AVeryAggressive | TGPUnset | HardCapExceeded | RetryBackoffShort
    | ThroughputBelowArrival | ThroughputBurstShortfall | RotationSpansNextWindow

  datatype Finding = Finding(severity: Severity, code: Code)

  datatype Inputs = Inputs(
    expireAfter: int,
    tgp: int,
    tgpWasUnset: bool,
    period: int,
    windowLen: int,
    idleGap: Option<int>,
    readyTimeout: int,
    cooldown: int,
    drainEstimate: Option<int>,
    provisioningEstimate: Option<int>,
    retryBackoff: int,
    k: int,
    maxUnavailable: int,
    nodeCount: nat,
    override: Option<int>)

  datatype Result = Result(
    tRot: int,
    tRotEst: int,
    drainEstimate: int,
    provisioningEstimate: int,
    a: int,
    g: int,
    c: int,
    findings: seq<Finding>)

  function Min(a: int, b: int): int { if a <= b then a else b }

  function Max(a: int, b: int): int { if a >= b then a else b }

  function ResolveDrainEstimate(tgp: int, tgpWasUnset: bool, cfg: Option<int>): (int, seq<Finding>) {
    if cfg.None? then (Min(tgp, DRAIN_ESTIMATE_DEFAULT), [])
    else if !tgpWasUnset && cfg.value > tgp then (tgp, [Finding(Warn, DrainEstimateAboveTGP)])
    else (cfg.value, [])
  }

  function ResolveProvisioningEstimate(readyTimeout: int, cfg: Option<int>): (int, seq<Finding>) {
    if cfg.None? then (Min(readyTimeout, PROVISIONING_ESTIMATE_DEFAULT), [])
    else if cfg.value > readyTimeout then (readyTimeout, [Finding(Warn, ProvisioningEstimateAboveReadyTimeout)])
    else (cfg.value, [])
  }

  /** Go's integer division truncates toward zero. */
  function TruncDiv(a: int, b: int): int
    requires b != 0
  {
    if a >= 0 then a / b else -((-a) / b)
  }

  function TruncMod(a: int, b: int): int
    requires b != 0
  {
    a - TruncDiv(a, b) * b
  }

  function FloorDiv(a: int, b: int): int
    requires b != 0
  {
    var q := TruncDiv(a, b);
    if TruncMod(a, b) != 0 && (a < 0) != (b < 0) then q - 1 else q
  }

  function CeilDiv(a: int, b: int): int
    requires b != 0
  {
    var q := TruncDiv(a, b);
    if TruncMod(a, b) != 0 then q + 1 else q
  }

  function Derive(i: Inputs): Result {
    var (drain, drainFindings) := ResolveDrainEstimate(i.tgp, i.tgpWasUnset, i.drainEstimate);
    var (prov, provFindings) := ResolveProvisioningEstimate(i.readyTimeout, i.provisioningEstimate);
    var r := Result(i.readyTimeout + i.tgp + BUFFER, prov + drain, drain, prov, 0, 0, 0, drainFindings + provFindings);
    if i.period <= 0 then
      r.(findings := r.findings + [Finding(Fatal, NoWindows)])
    else
      var r1 :=
        if i.override.Some? then
          r.(a := i.override.value, g := FloorDiv(i.expireAfter - r.tRot - i.override.value, i.period))
        else
          r.(a := i.expireAfter - (i.k * i.period + r.tRot), g := i.k);
      var denom := r1.tRotEst + i.cooldown;
      var r2 :=
        if denom > 0 && i.windowLen > 0 then r1.(c := Max(i.maxUnavailable, 1) * CeilDiv(i.windowLen, denom)) else r1;
      r2.(findings := r2.findings + Layer1(i, r2) + Layer2(i, r2))
  }

  function When(b: bool, f: Finding): seq<Finding> {
    if b then [f] else []
  }

  function Layer1(i: Inputs, r: Result): seq<Finding> {
    var kFindings :=
      if i.k < 1 then [Finding(Fatal, KBelowOne)]
      else if i.k == 1 then [Finding(Warn, KBelowTwo)]
      else [];
    var aFindings :=
      if i.override.Some? then
        (if r.a <= 0 then [Finding(Fatal, OverrideNonPositive)]
         else if r.g < 1 then [Finding(Fatal, OverrideGBelowOne)]
         else if r.g < i.k then [Finding(Warn, OverrideGBelowK)]
         else [])
        + When(r.a > 0 && r.a < i.period, Finding(Warn, AVeryAggressive))
      else if r.a <= 0 then [Finding(Fatal, ANonPositive)]
      else When(r.a < i.period, Finding(Warn, AVeryAggressive));
    kFindings + aFindings
    + When(i.tgpWasUnset, Finding(Warn, TGPUnset))
    + When(i.expireAfter + i.tgp > HARD_CAP, Finding(Warn, HardCapExceeded))
    + When(i.retryBackoff < i.readyTimeout, Finding(Warn, RetryBackoffShort))
  }

  function Layer2(i: Inputs, r: Result): seq<Finding> {
    if i.windowLen <= 0 || r.c < 1 then []
    else
      When(i.nodeCount > 0 && r.a > 0 && r.c * r.a < i.nodeCount * i.period, Finding(Warn, ThroughputBelowArrival))
      + When(i.nodeCount > 0 && i.k > 0 && i.nodeCount > i.k * r.c, Finding(Warn, ThroughputBurstShortfall))
      + When(i.idleGap.Some? && r.tRotEst + i.cooldown > i.idleGap.value, Finding(Warn, RotationSpansNextWindow))
  }

  predicate HasFatal(findings: seq<Finding>) {
    exists f <- findings :: f.severity == Fatal
  }

  /** The first fatal finding, which every start is refused for. */
  function FirstFatal(findings: seq<Finding>): Option<Finding> {
    if findings == [] then None
    else if findings[0].severity == Fatal then Some(findings[0])
    else FirstFatal(findings[1..])
  }

  lemma {:induction false} FirstFatalExists(findings: seq<Finding>)
    ensures FirstFatal(findings).Some? <==> HasFatal(findings)
    ensures FirstFatal(findings).Some? ==> FirstFatal(findings).value in findings && FirstFatal(findings).value.severity == Fatal
  {
    if findings != [] { FirstFatalExists(findings[1..]); }
  }

  // ----- what the derivation promises -----

  lemma FloorDivIsFloor(a: int, b: int)
    requires b > 0
    ensures FloorDiv(a, b) == a / b
    ensures FloorDiv(a, b) * b <= a < (FloorDiv(a, b) + 1) * b
  {
    if a < 0 {
      var q, r := (-a) / b, (-a) % b;
      assert -a == q * b + r;
      assert TruncMod(a, b) == -r;
      var f := if r == 0 then -q else -q - 1;
      assert FloorDiv(a, b) == f;
      assert f * b <= a < f * b + b by {
        if r == 0 { assert f * b == -(q * b); } else { assert f * b == -(q * b) - b; }
      }
      QuotientUnique(a, b, f);
    } else {
      assert a == (a / b) * b + a % b;
    }
  }

  lemma QuotientUnique(a: int, b: int, q: int)
    requires b > 0 && q * b <= a < q * b + b
    ensures a / b == q
  {
    var d := a / b;
    assert d * b <= a < d * b + b;
    if d < q { MulMonotone(d + 1, q, b); }
    if q < d { MulMonotone(q + 1, d, b); }
  }

  lemma MulMonotone(x: int, y: int, b: int)
    requires x <= y && 0 <= b
    ensures x * b <= y * b
    ensures (x + 1) * b == x * b + b
  {
  }

  lemma NoFatalIn(a: seq<Finding>, b: seq<Finding>)
    ensures HasFatal(a + b) <==> HasFatal(a) || HasFatal(b)
  {
    assert forall f :: f in a + b <==> f in a || f in b;
  }

  lemma Layer2NeverFatal(i: Inputs, r: Result)
    ensures !HasFatal(Layer2(i, r))
  {
  }

  lemma EstimatesNeverFatal(i: Inputs)
    ensures !HasFatal(ResolveDrainEstimate(i.tgp, i.tgpWasUnset, i.drainEstimate).1
                      + ResolveProvisioningEstimate(i.readyTimeout, i.provisioningEstimate).1)
  {
  }

  lemma Layer1Fatal(i: Inputs, r: Result)
    ensures HasFatal(Layer1(i, r)) <==> i.k < 1 || r.a <= 0 || (i.override.Some? && r.g < 1)
  {
    if i.k < 1 { assert Layer1(i, r)[0] == Finding(Fatal, KBelowOne); }
    var n := if i.k <= 1 then 1 else 0;
    if r.a <= 0 { assert Layer1(i, r)[n].severity == Fatal; }
    if r.a > 0 && i.override.Some? && r.g < 1 { assert Layer1(i, r)[n].severity == Fatal; }
  }

  /** A schedule is accepted exactly when there is a period, at least one chance is
  asked for, the threshold is positive, and `k` periods and one rotation fit between
  the threshold and the expiry: exactly `k` of them, or at least one for an override. */
  lemma AcceptedExactlyWhen(i: Inputs)
    ensures !HasFatal(Derive(i).findings) <==>
              && i.period > 0
              && i.k >= 1
              && (if i.override.Some? then
                    0 < i.override.value && i.override.value + i.period + (i.readyTimeout + i.tgp + BUFFER) <= i.expireAfter
                  else
                    i.k * i.period + (i.readyTimeout + i.tgp + BUFFER) < i.expireAfter)
  {
    FatalExactlyWhen(i);
    if i.period > 0 && i.override.Some? {
      AtLeastOnePeriod(i.expireAfter - Derive(i).tRot - i.override.value, i.period);
    }
  }

  lemma AtLeastOnePeriod(slack: int, period: int)
    requires period > 0
    ensures FloorDiv(slack, period) >= 1 <==> slack >= period
  {
    FloorDivIsFloor(slack, period);
    var g := FloorDiv(slack, period);
    if g >= 1 { MulMonotone(1, g, period); } else { MulMonotone(g + 1, 1, period); }
  }

  lemma FatalExactlyWhen(i: Inputs)
    ensures var r := Derive(i);
            HasFatal(r.findings) <==> i.period <= 0 || i.k < 1 || r.a <= 0 || (i.override.Some? && r.g < 1)
  {
    var est := ResolveDrainEstimate(i.tgp, i.tgpWasUnset, i.drainEstimate).1
               + ResolveProvisioningEstimate(i.readyTimeout, i.provisioningEstimate).1;
    EstimatesNeverFatal(i);
    if i.period <= 0 {
      assert Derive(i).findings[|est|] == Finding(Fatal, NoWindows);
    } else {
      var partial := Derive(i).(findings := est);
      assert Derive(i).findings == est + Layer1(i, partial) + Layer2(i, partial);
      NoFatalIn(est + Layer1(i, partial), Layer2(i, partial));
      NoFatalIn(est, Layer1(i, partial));
      Layer1Fatal(i, partial);
      Layer2NeverFatal(i, partial);
    }
  }

  /** G is the number of whole periods between the threshold and the last instant a
  rotation can still complete: exactly k in auto mode, the most that fit for an
  override. */
  lemma GuaranteedChances(i: Inputs)
    requires i.period > 0
    ensures var r := Derive(i);
            && r.a + r.g * i.period + r.tRot <= i.expireAfter
            && i.expireAfter < r.a + (r.g + 1) * i.period + r.tRot
            && (i.override.None? ==> r.g == i.k)
  {
    if i.override.Some? {
      FloorDivIsFloor(i.expireAfter - Derive(i).tRot - i.override.value, i.period);
    }
  }

  /** Feeding the derived threshold back as an override guarantees the same k chances. */
  lemma DerivedAsOverride(i: Inputs)
    requires i.period > 0 && i.override.None?
    ensures Derive(i.(override := Some(Derive(i).a))).g == i.k
    ensures Derive(i.(override := Some(Derive(i).a))).a == Derive(i).a
  {
    FloorDivIsFloor(i.k * i.period, i.period);
    QuotientUnique(i.k * i.period, i.period, i.k);
  }

  /** C per unit of surge parallelism counts the legal starts in one occurrence: the
  multiples of the start spacing that fall strictly before the close. */
  lemma ThroughputCountsStarts(i: Inputs, n: nat)
    requires i.period > 0 && i.windowLen > 0 && i.maxUnavailable <= 1
    requires Derive(i).tRotEst + i.cooldown > 0
    ensures n < Derive(i).c <==> n * (Derive(i).tRotEst + i.cooldown) < i.windowLen
  {
    CeilDivCounts(i.windowLen, Derive(i).tRotEst + i.cooldown, n);
  }

  lemma CeilDivCounts(d: int, b: int, n: nat)
    requires d > 0 && b > 0
    ensures n < CeilDiv(d, b) <==> n * b < d
  {
    var q, r := d / b, d % b;
    assert d == q * b + r;
    var c := CeilDiv(d, b);
    assert c == if r == 0 then q else q + 1;
    MulMonotone(q, q, b);
    if n < c { MulMonotone(n, c - 1, b); } else { MulMonotone(c, n, b); }
  }

  /** The forecast estimates never reach the deadline side: changing them changes
  neither t_rot, nor A, nor G, nor whether the schedule is accepted. */
  lemma EstimatesAreForecastOnly(i: Inputs, drain: Option<int>, prov: Option<int>)
    ensures var j := i.(drainEstimate := drain, provisioningEstimate := prov);
            && Derive(j).tRot == Derive(i).tRot
            && Derive(j).a == Derive(i).a
            && Derive(j).g == Derive(i).g
            && (HasFatal(Derive(j).findings) <==> HasFatal(Derive(i).findings))
  {
    AcceptedExactlyWhen(i);
    AcceptedExactlyWhen(i.(drainEstimate := drain, provisioningEstimate := prov));
  }
}
