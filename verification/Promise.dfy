/** What the derived threshold promises a claim on a real calendar, and how the
announced retry instant relates to the two tests that act on it. */
module Promise {
  import opened Clock
  import opened Options
  import opened Calendar
  import opened Weekly
  import opened Periods
  import opened Notes
  import opened Selection
  import Derivation
  import Decide

  /** The instants in `xs` lie in (from, to], one after another. */
  ghost predicate Ascending(xs: seq<Time>, from: Time, to: Time) {
    && (forall i :: 0 <= i < |xs| ==> from < xs[i] <= to)
    && (forall i, j :: 0 <= i < j < |xs| ==> xs[i] < xs[j])
  }

  /** k rotation opportunities in (from, to]: instants in the window and, unless the
  window never closes, each the first instant of a different occurrence. */
  ghost predicate Chances(w: Membership, xs: seq<Time>, k: nat, from: Time, to: Time) {
    && |xs| == k
    && Ascending(xs, from, to)
    && (forall i :: 0 <= i < k ==> w(xs[i]))
    && (!NeverCloses(w) ==> forall i :: 0 <= i < k ==> Opens(w, xs[i]))
  }

  /** `p` is the period the calendar reports for the window. */
  ghost predicate ReportedPeriod(w: Membership, p: int) {
    && !NeverOpens(w)
    && (if NeverCloses(w) then p == CONTINUOUS_WINDOW_PERIOD else IsWorstPeriod(w, p))
  }

  /** Any k reported periods hold k opportunities. */
  lemma {:induction false} PeriodsHoldChances(w: Membership, p: int, k: nat, from: Time) returns (xs: seq<Time>)
    requires ReportedPeriod(w, p)
    ensures Chances(w, xs, k, from, from + k * p)
  {
    if k == 0 {
      xs := [];
    } else {
      var front := PeriodsHoldChances(w, p, k - 1, from);
      var edge := from + (k - 1) * p;
      assert from + k * p == edge + p;
      var x;
      if NeverCloses(w) {
        x := edge + p;
      } else {
        assert HoldsOpening(w, edge, p);
        x :| edge < x <= edge + p && Opens(w, x);
      }
      xs := front + [x];
      assert (k - 1) * p >= 0 by { NonNegative(k - 1, p); }
    }
  }

  lemma NonNegative(k: nat, p: int)
    requires 0 <= p
    ensures 0 <= k * p
  {
  }

  /** The lead time the controller resolves for a pool with period p. */
  function ResolvedLeadTime(k: int, p: int, readyTimeout: int): LeadTime {
    LeadTime(k * p + readyTimeout + Derivation.BUFFER, Derivation.DRAIN_FALLBACK)
  }

  /** t_rot for one claim: its own grace period, or the fallback. */
  function ClaimTRot(c: Claim, readyTimeout: int): int {
    readyTimeout + Derivation.BUFFER + if c.tgp.Some? then c.tgp.value else Derivation.DRAIN_FALLBACK
  }

  /** The drain bound resolved from a pool's grace period. */
  function PoolDrainBound(tgp: Option<int>): int {
    if tgp.Some? then tgp.value + Derivation.BUFFER else Derivation.DRAIN_FALLBACK
  }

  /** One opportunity the claim can use: it has passed its trigger, a rotation started
  then completes by the claim's deadline, and so the surge-less fallback is not taken. */
  ghost predicate Usable(c: Claim, i: Selection.Inputs, g: Decide.Inputs, tRot: int, x: Time) {
    && Triggered(c, i.(now := x))
    && c.expireAfter.Some? && x + tRot <= c.createdAt + c.expireAfter.value
    && !Decide.SurgelessFallback(c, g.(now := x))
  }

  /** The K-chances promise. In auto mode every expiring claim whose grace period is its
  pool's meets, between its trigger and the last instant a rotation can complete, at
  least k opportunities, each of which it can use. */
  lemma KChances(s: Schedule, c: Claim, i: Selection.Inputs, g: Decide.Inputs, k: nat, p: int) returns (xs: seq<Time>)
    requires ReportedPeriod(Members(s), p)
    requires c.expireAfter.Some? && i.override.None?
    requires i.leadTime == ResolvedLeadTime(k, p, g.readyTimeout)
    requires g.drainBound == PoolDrainBound(c.tgp)
    ensures var tRot := ClaimTRot(c, g.readyTimeout);
            var deadline := c.createdAt + c.expireAfter.value;
            && Chances(Members(s), xs, k, deadline - i.leadTime.For(c), deadline - tRot)
            && forall j :: 0 <= j < k ==> Usable(c, i, g, tRot, xs[j])
  {
    var deadline := c.createdAt + c.expireAfter.value;
    xs := PeriodsHoldChances(Members(s), p, k, deadline - i.leadTime.For(c));
  }

  /** The same for an explicit threshold: the g chances the derivation reports for it. */
  lemma OverrideChances(s: Schedule, c: Claim, i: Selection.Inputs, g: Decide.Inputs, d: Derivation.Inputs)
      returns (xs: seq<Time>)
    requires ReportedPeriod(Members(s), d.period)
    requires d.override.Some? && i.override == d.override && Derivation.Derive(d).g >= 0
    requires c.expireAfter == Some(d.expireAfter) && c.tgp == (if d.tgpWasUnset then None else Some(d.tgp))
    requires d.tgpWasUnset ==> d.tgp == Derivation.DRAIN_FALLBACK
    requires g.readyTimeout == d.readyTimeout && g.drainBound == PoolDrainBound(c.tgp)
    ensures var tRot := Derivation.Derive(d).tRot;
            && tRot == ClaimTRot(c, g.readyTimeout)
            && Chances(Members(s), xs, Derivation.Derive(d).g, c.createdAt + d.override.value, c.createdAt + d.expireAfter - tRot)
            && forall j :: 0 <= j < |xs| ==> Usable(c, i, g, tRot, xs[j])
  {
    PeriodPositive(Members(s), d.period);
    Derivation.GuaranteedChances(d);
    xs := PeriodsHoldChances(Members(s), d.period, Derivation.Derive(d).g, c.createdAt + d.override.value);
  }

  lemma PeriodPositive(w: Membership, p: int)
    requires ReportedPeriod(w, p)
    ensures 0 < p
  {
  }

  // ----- the announced retry -----

  /** The backoff test at `t`, with the occurrence bounds resolved at `t`: the one
  selection applies to an unanchored claim and the anchored retry applies to its own. */
  ghost predicate PastBackoff(s: Schedule, retry: int, base: int, failedAt: Time, t: Time) {
    t - failedAt >= EffectiveBackoff(retry, base, failedAt, BoundsAt(s, t))
  }

  /** The instant announced at `now` for a failure recorded at `failedAt`. */
  ghost function AnnouncedRetry(s: Schedule, retry: int, base: int, failedAt: Time, now: Time): Time {
    failedAt + EffectiveBackoff(retry, base, failedAt, BoundsAt(s, now))
  }

  /** On a fixed schedule the announced instant is the first, from the announcement on,
  at which the backoff test holds. */
  lemma AnnouncedRetryIsFirst(s: Schedule, retry: int, base: int, failedAt: Time, now: Time, t: Time)
    requires Fixed(s) && 0 < base && failedAt <= now
    requires now <= t <= AnnouncedRetry(s, retry, base, failedAt, now)
    ensures PastBackoff(s, retry, base, failedAt, t) <==> t == AnnouncedRetry(s, retry, base, failedAt, now)
  {
    var here, there := BoundsAt(s, now), BoundsAt(s, t);
    if Holds(here, failedAt) && failedAt + base < here.value.end {
      EffectiveBackoffIsLargestFit(retry, base, failedAt, here.value);
      FixedBoundsConstant(s, now, t);
    } else {
      EffectiveBackoffOtherwise(retry, base, failedAt, here);
      if Holds(there, failedAt) {
        FixedBoundsConstant(s, t, now);
      } else {
        EffectiveBackoffOtherwise(retry, base, failedAt, there);
      }
    }
  }

  predicate Holds(bounds: Option<Bounds>, t: Time) {
    bounds.Some? && bounds.value.start <= t < bounds.value.end
  }

  /** The two tests are one: selection's of an unanchored claim, and the one the anchored
  retry of a rolled-back claim applies before it re-enters. */
  lemma BothTestsArePastBackoff(s: Schedule, c: Claim, i: Selection.Inputs)
    requires c.notes.failedAt.Some? && i.bounds == BoundsAt(s, i.now)
    ensures FailedPastBackoff(c, i) <==> PastBackoff(s, c.notes.retry, i.retryBackoff, c.notes.failedAt.value, i.now)
    ensures c.notes.phase == Failed ==> (StateAllows(c, i) <==> FailedPastBackoff(c, i))
  {
  }

  /** So whichever of the two acts on a failed claim, from the announcement until the
  announced instant it first passes at that instant. */
  lemma RetryActsWhenAnnounced(s: Schedule, c: Claim, i: Selection.Inputs, now: Time)
    requires Fixed(s) && 0 < i.retryBackoff && i.bounds == BoundsAt(s, i.now)
    requires c.notes.phase == Failed && c.notes.failedAt.Some? && c.notes.failedAt.value <= now
    requires now <= i.now <= AnnouncedRetry(s, c.notes.retry, i.retryBackoff, c.notes.failedAt.value, now)
    ensures var announced := AnnouncedRetry(s, c.notes.retry, i.retryBackoff, c.notes.failedAt.value, now);
            && (StateAllows(c, i) <==> i.now == announced)
            && (FailedPastBackoff(c, i) <==> i.now == announced)
  {
    BothTestsArePastBackoff(s, c, i);
    AnnouncedRetryIsFirst(s, c.notes.retry, i.retryBackoff, c.notes.failedAt.value, now, i.now);
  }
}
