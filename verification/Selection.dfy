/** Which claim is the next rotation candidate, and why the others are not
(internal/selection/selection.go, internal/selection/census.go). */
module Selection {
  import opened Clock
  import opened Options
  import opened Notes
  import opened Calendar
  import Names

  const MAX_BACKOFF_SHIFT: nat := 3

  /** The pure view of a NodeClaim. No `expireAfter` means it never expires. */
  datatype Claim = Claim(
    name: string,
    createdAt: Time,
    deleting: bool,
    expireAfter: Option<int>,
    tgp: Option<int>,
    ready: bool,
    notes: ClaimNotes)

  datatype LeadTime = LeadTime(base: int, drainFallback: int) {
    function For(c: Claim): int {
      base + if c.tgp.Some? then c.tgp.value else drainFallback
    }
  }

  /** `bounds` is the occurrence containing `now`, when one was found. */
  datatype Inputs = Inputs(
    now: Time,
    leadTime: LeadTime,
    override: Option<int>,
    retryBackoff: int,
    excluded: set<string>,
    bounds: Option<Bounds>)

  // ----- the backoff ladder -----

  /** base shifted left by k. */
  function Shifted(base: int, k: nat): int {
    if k == 0 then base else 2 * Shifted(base, k - 1)
  }

  function LadderShift(retryCount: int): nat {
    if retryCount - 1 < 0 then 0
    else if retryCount - 1 > MAX_BACKOFF_SHIFT then MAX_BACKOFF_SHIFT
    else retryCount - 1
  }

  function EscalatedBackoff(retryCount: int, base: int): int {
    Shifted(base, LadderShift(retryCount))
  }

  /** Walking down from below `shift`: the first position whose retry lands before the
  close, or `otherwise`. */
  function WalkDown(base: int, shift: nat, failedAt: Time, end: Time, otherwise: nat): nat {
    if shift == 0 then otherwise
    else if failedAt + Shifted(base, shift - 1) < end then shift - 1
    else WalkDown(base, shift - 1, failedAt, end, otherwise)
  }

  /** The ladder position actually applied: walked down to the largest one whose retry
  still lands inside the occurrence the failure happened in. */
  function EffectiveShift(retryCount: int, base: int, failedAt: Time, bounds: Option<Bounds>): nat {
    var top := LadderShift(retryCount);
    if bounds.None? || failedAt < bounds.value.start || bounds.value.end <= failedAt then top
    else if failedAt + Shifted(base, top) < bounds.value.end then top
    else WalkDown(base, top, failedAt, bounds.value.end, top)
  }

  function EffectiveBackoff(retryCount: int, base: int, failedAt: Time, bounds: Option<Bounds>): int {
    Shifted(base, EffectiveShift(retryCount, base, failedAt, bounds))
  }

  /** The ladder walk as the code runs it. */
  method WalkLadder(retryCount: int, base: int, failedAt: Time, bounds: Option<Bounds>) returns (backoff: int)
    ensures backoff == EffectiveBackoff(retryCount, base, failedAt, bounds)
  {
    var escalated := EscalatedBackoff(retryCount, base);
    if bounds.None? { return escalated; }
    var Bounds(start, end) := bounds.value;
    if failedAt < start || end <= failedAt { return escalated; }
    if failedAt + escalated < end { return escalated; }
    var shift: nat := LadderShift(retryCount);
    while shift > 0
      invariant EffectiveShift(retryCount, base, failedAt, bounds) == WalkDown(base, shift, failedAt, end, LadderShift(retryCount))
    {
      shift := shift - 1;
      var step := Shifted(base, shift);
      if failedAt + step < end { return step; }
    }
    return escalated;
  }

  // ----- eligibility -----

  predicate FailedPastBackoff(c: Claim, i: Inputs) {
    if c.notes.failedAt.None? then true
    else i.now - c.notes.failedAt.value >= EffectiveBackoff(c.notes.retry, i.retryBackoff, c.notes.failedAt.value, i.bounds)
  }

  predicate StateAllows(c: Claim, i: Inputs) {
    match c.notes.phase
    case Fresh => true
    case Failed => FailedPastBackoff(c, i)
    case _ => false
  }

  predicate Triggered(c: Claim, i: Inputs) {
    var age := i.now - c.createdAt;
    if i.override.Some? then age > i.override.value
    else if c.expireAfter.None? then false
    else age > c.expireAfter.value - i.leadTime.For(c)
  }

  predicate Eligible(c: Claim, i: Inputs) {
    && c.name !in i.excluded
    && !c.deleting
    && c.ready
    && StateAllows(c, i)
    && Triggered(c, i)
  }

  // ----- the candidate order -----

  function DeadlineOf(c: Claim, i: Inputs): Option<Time> {
    if i.override.Some? || c.expireAfter.None? then None else Some(c.createdAt + c.expireAfter.value)
  }

  predicate EarlierDeadline(a: Claim, b: Claim, i: Inputs) {
    var da, db := DeadlineOf(a, i), DeadlineOf(b, i);
    if da.Some? && db.Some? && da.value != db.value then da.value < db.value
    else if da.Some? != db.Some? then da.Some?
    else if a.createdAt != b.createdAt then a.createdAt < b.createdAt
    else Names.Less(a.name, b.name)
  }

  /** A strict total order on distinctly named claims. */
  lemma EarlierIsStrictTotalOrder(a: Claim, b: Claim, c: Claim, i: Inputs)
    ensures !EarlierDeadline(a, a, i)
    ensures EarlierDeadline(a, b, i) && EarlierDeadline(b, c, i) ==> EarlierDeadline(a, c, i)
    ensures a.name != b.name ==> EarlierDeadline(a, b, i) || EarlierDeadline(b, a, i)
  {
    Names.LessIrreflexive(a.name);
    Names.LessTotal(a.name, b.name);
    if Names.Less(a.name, b.name) && Names.Less(b.name, c.name) {
      Names.LessTransitive(a.name, b.name, c.name);
    }
  }

  /** `best` is an eligible claim of the list, and no eligible one comes before it. */
  ghost predicate IsPick(claims: seq<Claim>, i: Inputs, best: Claim) {
    && best in claims && Eligible(best, i)
    && (forall c <- claims :: Eligible(c, i) ==> !EarlierDeadline(c, best, i))
  }

  /** The pick as a fold over the list: a later claim replaces the best so far only when
  it is eligible and strictly earlier. */
  function Pick(claims: seq<Claim>, i: Inputs): Option<Claim> {
    if claims == [] then None
    else
      var best, c := Pick(claims[..|claims| - 1], i), claims[|claims| - 1];
      if Eligible(c, i) && (best.None? || EarlierDeadline(c, best.value, i)) then Some(c) else best
  }

  /** The eligible claim racing the earliest forceful expiration. */
  method PickEarliestDeadlineEligible(claims: seq<Claim>, i: Inputs) returns (pick: Option<Claim>)
    ensures pick == Pick(claims, i)
    ensures pick.None? <==> CountEligible(claims, i) == 0
    ensures pick.Some? ==> IsPick(claims, i, pick.value)
  {
    pick := None;
    for k := 0 to |claims|
      invariant pick == Pick(claims[..k], i)
    {
      var c := claims[k];
      assert claims[..k + 1][..k] == claims[..k];
      if Eligible(c, i) && (pick.None? || EarlierDeadline(c, pick.value, i)) {
        pick := Some(c);
      }
    }
    assert claims[..|claims|] == claims;
    PickIsMinimum(claims, i);
  }

  /** The pick is a minimum of the eligible claims, and absent only when there are none. */
  lemma {:induction false} PickIsMinimum(claims: seq<Claim>, i: Inputs)
    ensures Pick(claims, i).None? <==> CountEligible(claims, i) == 0
    ensures Pick(claims, i).Some? ==> IsPick(claims, i, Pick(claims, i).value)
  {
    if claims != [] {
      var front, c := claims[..|claims| - 1], claims[|claims| - 1];
      assert claims == front + [c];
      PickIsMinimum(front, i);
      EarlierIsStrictTotalOrder(c, c, c, i);
      if Pick(front, i).None? {
        NoneEligible(front, i);
      } else {
        EarlierBeatsAll(front, i, Pick(front, i).value, c);
      }
    }
  }

  lemma EarlierBeatsAll(claims: seq<Claim>, i: Inputs, best: Claim, c: Claim)
    requires IsPick(claims, i, best)
    ensures EarlierDeadline(c, best, i) ==> forall d <- claims :: Eligible(d, i) ==> !EarlierDeadline(d, c, i)
  {
    if EarlierDeadline(c, best, i) {
      forall d <- claims | Eligible(d, i)
        ensures !EarlierDeadline(d, c, i)
      {
        EarlierIsStrictTotalOrder(d, c, best, i);
      }
    }
  }

  ghost predicate DistinctNames(claims: seq<Claim>) {
    forall j, k :: 0 <= j < k < |claims| ==> claims[j].name != claims[k].name
  }

  /** Among distinctly named claims the pick comes strictly before every other eligible
  one, and does not depend on the order of the list. */
  lemma PickIsUnique(a: seq<Claim>, b: seq<Claim>, i: Inputs, p: Claim, q: Claim)
    requires DistinctNames(a) && forall c :: c in a <==> c in b
    requires IsPick(a, i, p) && IsPick(b, i, q)
    ensures p == q
    ensures forall c <- a :: Eligible(c, i) && c != p ==> EarlierDeadline(p, c, i)
  {
    forall c <- a | Eligible(c, i) && c.name != p.name
      ensures EarlierDeadline(p, c, i)
    {
      EarlierIsStrictTotalOrder(p, c, p, i);
    }
    var j :| 0 <= j < |a| && a[j] == p;
  }

  function CountEligible(claims: seq<Claim>, i: Inputs): nat {
    if claims == [] then 0
    else CountEligible(claims[..|claims| - 1], i) + if Eligible(claims[|claims| - 1], i) then 1 else 0
  }

  lemma {:induction false} NoneEligible(claims: seq<Claim>, i: Inputs)
    requires CountEligible(claims, i) == 0
    ensures forall c <- claims :: !Eligible(c, i)
  {
    if claims != [] {
      NoneEligible(claims[..|claims| - 1], i);
      assert claims == claims[..|claims| - 1] + [claims[|claims| - 1]];
    }
  }

  // ----- the census -----

  /** Every claim under the first check it fails. `inBackoffTriggered` overlaps
  `inBackoff` and is not part of the partition. */
  datatype Census = Census(
    total: nat,
    eligible: nat,
    optedOut: nat,
    deleting: nat,
    notReady: nat,
    inFlight: nat,
    terminal: nat,
    inBackoff: nat,
    notTriggered: nat,
    inBackoffTriggered: nat)

  const EMPTY_CENSUS := Census(0, 0, 0, 0, 0, 0, 0, 0, 0, 0)

  function Classify(s: Census, c: Claim, i: Inputs): Census {
    if c.name in i.excluded then s.(optedOut := s.optedOut + 1)
    else if c.deleting then s.(deleting := s.deleting + 1)
    else if !c.ready then s.(notReady := s.notReady + 1)
    else if !StateAllows(c, i) then
      if c.notes.phase == Expired then s.(terminal := s.terminal + 1)
      else if c.notes.phase == Failed then
        s.(inBackoff := s.inBackoff + 1,
           inBackoffTriggered := s.inBackoffTriggered + if Triggered(c, i) then 1 else 0)
      else s.(inFlight := s.inFlight + 1)
    else if !Triggered(c, i) then s.(notTriggered := s.notTriggered + 1)
    else s.(eligible := s.eligible + 1)
  }

  function CensusOf(claims: seq<Claim>, i: Inputs): Census {
    if claims == [] then EMPTY_CENSUS
    else
      var n := |claims| - 1;
      var s := CensusOf(claims[..n], i);
      Classify(s.(total := s.total + 1), claims[n], i)
  }

  /** The census as the code counts it. */
  method TakeCensus(claims: seq<Claim>, i: Inputs) returns (s: Census)
    ensures s == CensusOf(claims, i)
  {
    s := EMPTY_CENSUS.(total := |claims|);
    for k := 0 to |claims|
      invariant s == CensusOf(claims[..k], i).(total := |claims|)
    {
      assert claims[..k + 1][..k] == claims[..k];
      s := Classify(s, claims[k], i);
    }
    assert claims[..|claims|] == claims;
    CensusPartition(claims, i);
  }

  /** The buckets partition the list, and the eligible one is what selection counts. */
  lemma {:induction false} CensusPartition(claims: seq<Claim>, i: Inputs)
    ensures var s := CensusOf(claims, i);
            && s.total == |claims|
            && s.eligible + s.optedOut + s.deleting + s.notReady + s.inFlight + s.terminal + s.inBackoff + s.notTriggered
               == s.total
            && s.eligible == CountEligible(claims, i)
            && s.inBackoffTriggered <= s.inBackoff
  {
    if claims != [] { CensusPartition(claims[..|claims| - 1], i); }
  }

  /** A claim that would be eligible but for its backoff. */
  predicate EligibleButBackoff(c: Claim, i: Inputs) {
    && c.name !in i.excluded
    && !c.deleting
    && c.ready
    && c.notes.phase in {Fresh, Failed}
    && Triggered(c, i)
  }

  function CountButBackoff(claims: seq<Claim>, i: Inputs): nat {
    if claims == [] then 0
    else CountButBackoff(claims[..|claims| - 1], i) + if EligibleButBackoff(claims[|claims| - 1], i) then 1 else 0
  }

  /** What a window leaves outstanding is exactly what would be eligible if no claim
  were held back by its backoff. */
  lemma {:induction false} OutstandingIgnoresBackoff(claims: seq<Claim>, i: Inputs)
    ensures CensusOf(claims, i).eligible + CensusOf(claims, i).inBackoffTriggered == CountButBackoff(claims, i)
  {
    if claims != [] { OutstandingIgnoresBackoff(claims[..|claims| - 1], i); }
  }

  /** With no failed claim in view the occurrence bounds decide nothing, so skipping
  their resolution changes neither the pick nor the census. */
  lemma {:induction false} BoundsMatterOnlyForFailed(claims: seq<Claim>, i: Inputs, bounds: Option<Bounds>)
    requires forall c <- claims :: c.notes.phase != Failed
    ensures CensusOf(claims, i.(bounds := bounds)) == CensusOf(claims, i)
    ensures forall c <- claims :: Eligible(c, i.(bounds := bounds)) == Eligible(c, i)
  {
    if claims != [] {
      var front := claims[..|claims| - 1];
      assert claims == front + [claims[|claims| - 1]];
      BoundsMatterOnlyForFailed(front, i, bounds);
    }
  }

  // ----- what the ladder guarantees -----

  lemma {:induction false} ShiftedMonotone(base: int, j: nat, k: nat)
    requires 0 <= base && j <= k
    ensures Shifted(base, j) <= Shifted(base, k)
    ensures 0 <= Shifted(base, k)
    decreases k
  {
    if j < k { ShiftedMonotone(base, j, k - 1); } else if k > 0 { ShiftedMonotone(base, k - 1, k - 1); }
  }

  /** The walk finds the largest fitting position below where it starts, if the base
  fits. */
  lemma {:induction false} WalkDownIsLargest(base: int, shift: nat, failedAt: Time, end: Time, otherwise: nat)
    requires 0 <= base
    ensures shift == 0 || end <= failedAt + base ==> WalkDown(base, shift, failedAt, end, otherwise) == otherwise
    ensures shift > 0 && failedAt + base < end ==>
              var j := WalkDown(base, shift, failedAt, end, otherwise);
              && j < shift && failedAt + Shifted(base, j) < end
              && forall k: nat :: j < k < shift ==> end <= failedAt + Shifted(base, k)
  {
    if shift > 0 {
      ShiftedMonotone(base, 0, shift - 1);
      WalkDownIsLargest(base, shift - 1, failedAt, end, otherwise);
    }
  }

  /** Inside the occurrence and with the base fitting, the applied position is the
  largest, at most the escalated one, whose retry lands before the close. */
  lemma EffectiveBackoffIsLargestFit(retryCount: int, base: int, failedAt: Time, b: Bounds)
    requires 0 <= base && b.start <= failedAt && failedAt + base < b.end
    ensures var j := EffectiveShift(retryCount, base, failedAt, Some(b));
            && j <= LadderShift(retryCount)
            && failedAt + Shifted(base, j) < b.end
            && forall k: nat :: j < k <= LadderShift(retryCount) ==> b.end <= failedAt + Shifted(base, k)
  {
    WalkDownIsLargest(base, LadderShift(retryCount), failedAt, b.end, LadderShift(retryCount));
  }

  /** In every other case the ladder is not clamped at all. */
  lemma EffectiveBackoffOtherwise(retryCount: int, base: int, failedAt: Time, bounds: Option<Bounds>)
    requires 0 <= base
    requires bounds.None? || failedAt < bounds.value.start || bounds.value.end <= failedAt + base
    ensures EffectiveBackoff(retryCount, base, failedAt, bounds) == EscalatedBackoff(retryCount, base)
  {
    if bounds.Some? {
      WalkDownIsLargest(base, LadderShift(retryCount), failedAt, bounds.value.end, LadderShift(retryCount));
    }
  }

  /** More failures never shorten the wait. */
  lemma EffectiveBackoffMonotone(r1: int, r2: int, base: int, failedAt: Time, bounds: Option<Bounds>)
    requires 0 <= base && r1 <= r2
    ensures EffectiveBackoff(r1, base, failedAt, bounds) <= EffectiveBackoff(r2, base, failedAt, bounds)
  {
    ShiftedMonotone(base, LadderShift(r1), LadderShift(r2));
    if bounds.Some? && bounds.value.start <= failedAt && failedAt + base < bounds.value.end {
      EffectiveBackoffIsLargestFit(r1, base, failedAt, bounds.value);
      EffectiveBackoffIsLargestFit(r2, base, failedAt, bounds.value);
      ShiftedMonotone(base, EffectiveShift(r1, base, failedAt, bounds), EffectiveShift(r2, base, failedAt, bounds));
    } else {
      EffectiveBackoffOtherwise(r1, base, failedAt, bounds);
      EffectiveBackoffOtherwise(r2, base, failedAt, bounds);
    }
  }
}
