/** The three figures the derivation reads off the calendar: the worst-case period
between occurrence starts, the shortest occurrence, and the shortest time the window
stays closed (internal/window/window.go). */
module Periods {
  import opened Clock
  import opened Calendar
  import opened Weekly
  import opened Sorting

  /** What a continuously open window reports for a period: one reconcile tick. */
  const CONTINUOUS_WINDOW_PERIOD: int := MINUTE

  ghost predicate NeverCloses(w: Membership) {
    forall t :: w(t)
  }

  ghost predicate NeverOpens(w: Membership) {
    forall t :: !w(t)
  }

  predicate Opens(w: Membership, t: Time) {
    w(t) && !w(t - 1)
  }

  /** The span (t, t + p] holds an opening. */
  ghost predicate HoldsOpening(w: Membership, t: Time, p: int) {
    exists x :: t < x <= t + p && Opens(w, x)
  }

  ghost predicate NoneSooner(w: Membership, t: Time, p: int) {
    forall q :: q < p ==> !HoldsOpening(w, t, q)
  }

  /** Every span (t, t + p] holds an opening, and for no shorter length is that so. */
  ghost predicate IsWorstPeriod(w: Membership, p: int) {
    && 0 < p
    && (forall t :: HoldsOpening(w, t, p))
    && (exists t :: NoneSooner(w, t, p))
  }

  /** [a, b) is a maximal open stretch of the timeline. */
  ghost predicate OpenRun(w: Membership, a: Time, b: Time) {
    && a < b
    && !w(a - 1) && !w(b)
    && (forall t :: a <= t < b ==> w(t))
  }

  /** [a, b) is a maximal closed stretch of the timeline. */
  ghost predicate ClosedRun(w: Membership, a: Time, b: Time) {
    && a < b
    && w(a - 1) && w(b)
    && (forall t :: a <= t < b ==> !w(t))
  }

  ghost predicate IsShortestGap(w: Membership, g: int) {
    && 0 < g
    && (forall a, b :: ClosedRun(w, a, b) ==> g <= b - a)
    && (exists a, b :: ClosedRun(w, a, b) && g == b - a)
  }

  ghost predicate IsShortestWindow(w: Membership, d: int) {
    && (forall a, b :: OpenRun(w, a, b) ==> d <= b - a)
    && (exists a, b :: OpenRun(w, a, b) && d == b - a)
  }

  // ----- a window's occurrences in order of their starts -----

  predicate Earlier(a: Occurrence, b: Occurrence) {
    a.start <= b.start
  }

  lemma EarlierIsOrder()
    ensures TotalOrder(Earlier)
  {
  }

  /** `x` is a start of the occurrence, in some week. */
  predicate At(o: Occurrence, x: Time) {
    (x - o.start) % WEEK == 0
  }

  ghost predicate InRun(o: Occurrence, t: Time) {
    exists x :: At(o, x) && x <= t < x + o.length
  }

  ghost predicate InSomeRun(occs: seq<Occurrence>, t: Time) {
    exists i :: 0 <= i < |occs| && InRun(occs[i], t)
  }

  ghost predicate Increasing(occs: seq<Occurrence>) {
    && (forall i :: 0 <= i < |occs| ==> WellFormed(occs[i]))
    && (forall i, j :: 0 <= i < j < |occs| ==> occs[i].start < occs[j].start)
  }

  /** The window is open exactly on the weekly runs of `occs`, which are maximal and
  listed by start. */
  ghost predicate Timeline(w: Membership, occs: seq<Occurrence>) {
    && occs != []
    && Increasing(occs)
    && (forall i, x :: 0 <= i < |occs| && At(occs[i], x) ==> OpenRun(w, x, x + occs[i].length))
    && (forall t :: w(t) ==> InSomeRun(occs, t))
  }

  /** The last start of `o` at or before `t`. */
  function LastStartOf(o: Occurrence, t: Time): Time {
    t - (t - o.start) % WEEK
  }

  lemma LastStartIsStart(o: Occurrence, t: Time)
    ensures At(o, LastStartOf(o, t))
    ensures During(o, t) <==> t < LastStartOf(o, t) + o.length
  {
    var q, r := (t - o.start) / WEEK, (t - o.start) % WEEK;
    assert LastStartOf(o, t) - o.start == q * WEEK;
    assert (q * WEEK) % WEEK == 0;
  }

  lemma InRunIsDuring(o: Occurrence, t: Time, x: Time)
    requires At(o, x) && x <= t < x + o.length
    ensures During(o, t)
  {
    if t - x < WEEK { OffsetMod(t, x, o.start); }
  }

  lemma DuringIsInRun(o: Occurrence, t: Time)
    ensures During(o, t) <==> InRun(o, t)
  {
    LastStartIsStart(o, t);
    hide During, At;
    if During(o, t) {
      var x := LastStartOf(o, t);
      assert At(o, x) && x <= t < x + o.length;
    }
    if InRun(o, t) {
      var x :| At(o, x) && x <= t < x + o.length;
      InRunIsDuring(o, t, x);
    }
  }

  lemma OffsetMod(t: int, x: int, y: int)
    requires (x - y) % WEEK == 0 && 0 <= t - x < WEEK
    ensures (t - y) % WEEK == t - x
  {
    assert t - y == (t - x) + ((x - y) / WEEK) * WEEK;
  }

  lemma SameStart(occs: seq<Occurrence>, k: int, l: int)
    requires 0 <= k < |occs| && 0 <= l < |occs|
    requires Disjoint(occs) && WellFormed(occs[k]) && WellFormed(occs[l])
    requires occs[k].start == occs[l].start
    ensures k == l
  {
    assert During(occs[k], occs[k].start) && During(occs[l], occs[k].start);
  }

  lemma UnionDistinct(s: Schedule, occs: seq<Occurrence>)
    requires IsUnion(s, occs)
    ensures Distinct(occs)
  {
    forall i, j | 0 <= i < j < |occs|
      ensures occs[i] != occs[j]
    {
      if occs[i] == occs[j] { SameStart(occs, i, j); }
    }
  }

  lemma SortedIncreasing(s: Schedule, occs: seq<Occurrence>)
    requires IsUnion(s, occs)
    ensures Increasing(Sort(Earlier, occs))
    ensures SameMembers(Sort(Earlier, occs), occs)
  {
    EarlierIsOrder();
    SortIsSorted(Earlier, occs);
    UnionDistinct(s, occs);
    SortDistinct(Earlier, occs);
    var sorted := Sort(Earlier, occs);
    forall i, j | 0 <= i < j < |sorted|
      ensures sorted[i].start < sorted[j].start
    {
      assert sorted[i] in occs && sorted[j] in occs;
      var k, l :| 0 <= k < |occs| && 0 <= l < |occs| && occs[k] == sorted[i] && occs[l] == sorted[j];
      if occs[k].start == occs[l].start { SameStart(occs, k, l); }
      assert Earlier(sorted[i], sorted[j]);
    }
    forall i | 0 <= i < |sorted|
      ensures WellFormed(sorted[i])
    {
      assert sorted[i] in occs;
    }
  }

  lemma SortedTimeline(s: Schedule, occs: seq<Occurrence>)
    requires Fixed(s) && IsUnion(s, occs) && occs != [] && !AlwaysOpen(occs)
    ensures Timeline(Members(s), Sort(Earlier, occs))
    ensures SameMembers(Sort(Earlier, occs), occs)
  {
    SortedIncreasing(s, occs);
    var sorted := Sort(Earlier, occs);
    forall i, x | 0 <= i < |sorted| && At(sorted[i], x)
      ensures OpenRun(Members(s), x, x + sorted[i].length)
    {
      assert sorted[i] in occs;
      var k :| 0 <= k < |occs| && occs[k] == sorted[i];
      UnionRun(s, occs, k, x);
    }
    forall t | Members(s)(t)
      ensures InSomeRun(sorted, t)
    {
      assert InWindow(s, t);
      var k :| 0 <= k < |occs| && During(occs[k], t);
      DuringIsInRun(occs[k], t);
      assert occs[k] in sorted;
    }
  }

  lemma UnionRun(s: Schedule, occs: seq<Occurrence>, k: int, x: Time)
    requires IsUnion(s, occs) && Maximal(occs) && 0 <= k < |occs| && At(occs[k], x)
    ensures OpenRun(Members(s), x, x + occs[k].length)
  {
    var end := x + occs[k].length;
    assert SameWeekly(x - 1, occs[k].start - 1) && SameWeekly(end, occs[k].start + occs[k].length);
    assert !InWindow(s, x - 1) && !InWindow(s, end);
    forall t | x <= t < end
      ensures InWindow(s, t)
    {
      assert InRun(occs[k], t);
      DuringIsInRun(occs[k], t);
    }
  }

  /** The openings of the timeline are exactly the occurrence starts, every week. */
  lemma OpeningsAreStarts(w: Membership, occs: seq<Occurrence>, t: Time)
    requires Timeline(w, occs)
    ensures Opens(w, t) <==> exists i :: 0 <= i < |occs| && At(occs[i], t)
  {
    if Opens(w, t) {
      var i :| 0 <= i < |occs| && InRun(occs[i], t);
      var x :| At(occs[i], x) && x <= t < x + occs[i].length;
    }
  }

  // ----- start-to-start distances -----

  /** From occurrence i to the start of the next, across the week boundary for the
  last one. */
  function Distance(occs: seq<Occurrence>, i: int): int
    requires 0 <= i < |occs|
  {
    if i + 1 < |occs| then occs[i + 1].start - occs[i].start else occs[0].start + WEEK - occs[i].start
  }

  /** The occurrence whose start is the last one at or before `t`. */
  lemma LastStart(occs: seq<Occurrence>, t: Time) returns (i: int, x: Time)
    requires occs != [] && Increasing(occs)
    ensures 0 <= i < |occs| && At(occs[i], x)
    ensures x <= t < x + Distance(occs, i)
  {
    var w := t % WEEK;
    if w < occs[0].start {
      i := |occs| - 1;
      x := t - w - WEEK + occs[i].start;
      assert WellFormed(occs[i]);
    } else {
      i := 0;
      while i + 1 < |occs| && occs[i + 1].start <= w
        invariant 0 <= i < |occs| && occs[i].start <= w
      {
        i := i + 1;
      }
      x := t - w + occs[i].start;
      assert WellFormed(occs[0]);
    }
    assert (x - occs[i].start) % WEEK == 0;
  }

  lemma NoStartBetween(occs: seq<Occurrence>, i: int, j: int, x: Time, y: Time)
    requires Increasing(occs) && 0 <= i < |occs| && 0 <= j < |occs|
    requires At(occs[i], x) && x < y < x + Distance(occs, i)
    ensures !At(occs[j], y)
  {
    var z := (y - x) - (occs[j].start - occs[i].start);
    assert WellFormed(occs[i]) && WellFormed(occs[j]);
    assert 0 < z < WEEK || -WEEK < z < 0 by {
      assert j > i ==> i + 1 < |occs| && occs[i + 1].start <= occs[j].start;
      assert j < i ==> occs[j].start < occs[i].start;
      assert j > 0 ==> occs[0].start < occs[j].start;
    }
    assert y - occs[j].start == z + (x - occs[i].start);
  }

  lemma NextStart(occs: seq<Occurrence>, i: int, x: Time)
    requires Increasing(occs) && 0 <= i < |occs| && At(occs[i], x)
    ensures 0 < Distance(occs, i)
    ensures At(occs[if i + 1 < |occs| then i + 1 else 0], x + Distance(occs, i))
  {
    assert WellFormed(occs[i]) && WellFormed(occs[0]);
  }

  /** Strictly between a start and the next there is no opening; the next one is. */
  lemma NextOpening(w: Membership, occs: seq<Occurrence>, i: int, x: Time)
    requires Timeline(w, occs) && 0 <= i < |occs| && At(occs[i], x)
    ensures 0 < Distance(occs, i)
    ensures Opens(w, x) && Opens(w, x + Distance(occs, i))
    ensures forall y :: x < y < x + Distance(occs, i) ==> !Opens(w, y)
  {
    NextStart(occs, i, x);
    OpeningsAreStarts(w, occs, x);
    OpeningsAreStarts(w, occs, x + Distance(occs, i));
    forall y | x < y < x + Distance(occs, i)
      ensures !Opens(w, y)
    {
      OpeningsAreStarts(w, occs, y);
      forall j | 0 <= j < |occs|
        ensures !At(occs[j], y)
      {
        NoStartBetween(occs, i, j, x, y);
      }
    }
  }

  /** The largest distance is the least period that always holds an opening. */
  lemma LargestDistanceIsWorstPeriod(w: Membership, occs: seq<Occurrence>, p: int, worst: int)
    requires Timeline(w, occs)
    requires forall i :: 0 <= i < |occs| ==> Distance(occs, i) <= p
    requires 0 <= worst < |occs| && Distance(occs, worst) == p
    ensures IsWorstPeriod(w, p)
  {
    forall t
      ensures HoldsOpening(w, t, p)
    {
      var i, x := LastStart(occs, t);
      NextOpening(w, occs, i, x);
    }
    var x := occs[worst].start;
    assert At(occs[worst], x);
    NextOpening(w, occs, worst, x);
    assert NoneSooner(w, x, p);
  }

  /** P: the largest gap between consecutive occurrence starts over the weekly cycle. */
  method WorstCasePeriod(s: Schedule) returns (p: int, ok: bool)
    requires Fixed(s)
    ensures ok <==> !NeverOpens(Members(s))
    ensures !ok ==> p == 0
    ensures NeverCloses(Members(s)) ==> p == CONTINUOUS_WINDOW_PERIOD
    ensures ok && !NeverCloses(Members(s)) ==> IsWorstPeriod(Members(s), p)
  {
    var occs := MergedOccurrences(s);
    OccurrencesSummary(s);
    if |occs| == 0 { return 0, false; }
    if |occs| == 1 && occs[0].length >= WEEK {
      return CONTINUOUS_WINDOW_PERIOD, true;
    }
    var sorted := Sort(Earlier, occs);
    p := LargestDistance(sorted);
    LargestIsWorst(Members(s), sorted, p);
    return p, true;
  }

  lemma LargestIsWorst(w: Membership, occs: seq<Occurrence>, p: int)
    requires Timeline(w, occs)
    requires forall i :: 0 <= i < |occs| ==> Distance(occs, i) <= p
    requires exists i :: 0 <= i < |occs| && Distance(occs, i) == p
    ensures IsWorstPeriod(w, p)
  {
    var i :| 0 <= i < |occs| && Distance(occs, i) == p;
    LargestDistanceIsWorstPeriod(w, occs, p, i);
  }

  /** The running maximum over neighbouring starts, then the wrap. */
  method LargestDistance(occs: seq<Occurrence>) returns (maxGap: int)
    requires occs != [] && Increasing(occs)
    ensures forall i :: 0 <= i < |occs| ==> Distance(occs, i) <= maxGap
    ensures exists i :: 0 <= i < |occs| && Distance(occs, i) == maxGap
  {
    var starts := seq(|occs|, i requires 0 <= i < |occs| => occs[i].start);
    maxGap := 0;
    for i := 1 to |starts|
      invariant 0 <= maxGap
      invariant forall k :: 0 <= k < i - 1 ==> Distance(occs, k) <= maxGap
      invariant maxGap == 0 || exists k :: 0 <= k < i - 1 && Distance(occs, k) == maxGap
    {
      var g := starts[i] - starts[i - 1];
      assert g == Distance(occs, i - 1);
      if g > maxGap {
        maxGap := g;
      }
    }
    var n := |starts| - 1;
    var wrap := (starts[0] + WEEK) - starts[n];
    assert wrap == Distance(occs, n);
    assert WellFormed(occs[n]) && WellFormed(occs[0]);
    if wrap > maxGap {
      maxGap := wrap;
    }
  }

  /** What the projection tells about a schedule, case by case. */
  lemma OccurrencesSummary(s: Schedule)
    requires Fixed(s)
    ensures Occurrences(s) == [] <==> NeverOpens(Members(s))
    ensures AlwaysOpen(Occurrences(s)) <==> NeverCloses(Members(s))
    ensures forall i :: 0 <= i < |Occurrences(s)| ==> WellFormed(Occurrences(s)[i])
    ensures Occurrences(s) != [] && !AlwaysOpen(Occurrences(s)) ==>
              && Timeline(Members(s), Sort(Earlier, Occurrences(s)))
              && SameMembers(Sort(Earlier, Occurrences(s)), Occurrences(s))
  {
    EmptyNeverOpens(s);
    var occs := Occurrences(s);
    if occs != [] {
      NonEmptySummary(s, occs);
    }
  }

  lemma EmptyNeverOpens(s: Schedule)
    requires Fixed(s)
    ensures Occurrences(s) == [] <==> NeverOpens(Members(s))
    ensures NeverCloses(Members(s)) ==> Occurrences(s) != []
    ensures IsUnion(s, Occurrences(s))
  {
    OccurrencesAreUnion(s);
    if NeverOpens(Members(s)) {
      forall t
        ensures !InWindow(s, t)
      {
        assert !Members(s)(t);
      }
    }
    assert NeverCloses(Members(s)) ==> Members(s)(0);
  }

  lemma NonEmptySummary(s: Schedule, occs: seq<Occurrence>)
    requires Fixed(s) && IsUnion(s, occs) && occs != []
    ensures AlwaysOpen(occs) <==> NeverCloses(Members(s))
    ensures !AlwaysOpen(occs) ==>
              Timeline(Members(s), Sort(Earlier, occs)) && SameMembers(Sort(Earlier, occs), occs)
  {
    if AlwaysOpen(occs) {
      AlwaysOpenNeverCloses(s, occs);
    } else {
      SortedTimeline(s, occs);
      TimelineCloses(Members(s), Sort(Earlier, occs));
    }
  }

  lemma AlwaysOpenNeverCloses(s: Schedule, occs: seq<Occurrence>)
    requires IsUnion(s, occs) && AlwaysOpen(occs)
    ensures NeverCloses(Members(s))
  {
    forall t
      ensures InWindow(s, t)
    {
      assert During(occs[0], t);
    }
  }

  lemma TimelineCloses(w: Membership, occs: seq<Occurrence>)
    requires Timeline(w, occs)
    ensures !NeverCloses(w)
  {
    assert At(occs[0], occs[0].start);
    assert !w(occs[0].start - 1);
  }

  // ----- lengths and idle gaps -----

  /** From the end of occurrence i to the start of the next. */
  function Idle(occs: seq<Occurrence>, i: int): int
    requires 0 <= i < |occs|
  {
    Distance(occs, i) - occs[i].length
  }

  /** From the end of an occurrence the window is closed until the next start. */
  lemma IdleRun(w: Membership, occs: seq<Occurrence>, i: int, x: Time)
    requires Timeline(w, occs) && 0 <= i < |occs| && At(occs[i], x)
    ensures 0 < Idle(occs, i)
    ensures ClosedRun(w, x + occs[i].length, x + Distance(occs, i))
  {
    var end := x + occs[i].length;
    assert OpenRun(w, x, end);
    NextOpening(w, occs, i, x);
    assert end < x + Distance(occs, i);
    forall t | end <= t < x + Distance(occs, i)
      ensures !w(t)
    {
      if w(t) {
        var y := BackToOpening(w, end, t);
      }
    }
  }

  /** Walking back from an open instant to a closed one passes an opening. */
  lemma BackToOpening(w: Membership, closed: Time, t: Time) returns (y: Time)
    requires closed <= t && !w(closed) && w(t)
    ensures closed < y <= t && Opens(w, y)
  {
    y := t;
    while w(y - 1)
      invariant closed < y <= t && w(y)
      decreases y - closed
    {
      y := y - 1;
    }
  }

  /** Every closed stretch is the idle time after some occurrence. */
  lemma ClosedRunIsIdle(w: Membership, occs: seq<Occurrence>, a: Time, b: Time) returns (i: int)
    requires Timeline(w, occs) && ClosedRun(w, a, b)
    ensures 0 <= i < |occs| && b - a == Idle(occs, i)
  {
    var x;
    i, x := LastStart(occs, a - 1);
    IdleRun(w, occs, i, x);
    SameClosedRun(w, x, x + occs[i].length, x + Distance(occs, i), a, b);
  }

  /** A closed stretch entered from the open run [x, end) is the one that begins at end. */
  lemma SameClosedRun(w: Membership, x: Time, end: Time, next: Time, a: Time, b: Time)
    requires OpenRun(w, x, end) && ClosedRun(w, end, next) && ClosedRun(w, a, b)
    requires x <= a - 1 < next
    ensures a == end && b == next
  {
    assert w(a - 1) && !w(a);
    assert a == end;
    assert w(next) && w(b);
  }

  /** Every open stretch is some occurrence. */
  lemma OpenRunIsOccurrence(w: Membership, occs: seq<Occurrence>, a: Time, b: Time) returns (i: int)
    requires Timeline(w, occs) && OpenRun(w, a, b)
    ensures 0 <= i < |occs| && b - a == occs[i].length
  {
    OpeningsAreStarts(w, occs, a);
    i :| 0 <= i < |occs| && At(occs[i], a);
    assert OpenRun(w, a, a + occs[i].length);
  }

  /** D: the shortest occurrence of the effective window. */
  method ShortestWindow(s: Schedule) returns (d: int, ok: bool)
    requires Fixed(s)
    ensures ok <==> !NeverOpens(Members(s))
    ensures NeverCloses(Members(s)) ==> d == WEEK
    ensures ok && !NeverCloses(Members(s)) ==> IsShortestWindow(Members(s), d)
  {
    var occs := MergedOccurrences(s);
    OccurrencesSummary(s);
    if |occs| == 0 { return 0, false; }
    d := LeastLength(occs);
    ok := true;
    if !AlwaysOpen(occs) {
      LeastLengthIsShortestWindow(Members(s), Sort(Earlier, occs), occs, d);
    }
  }

  method LeastLength(occs: seq<Occurrence>) returns (shortest: int)
    requires occs != []
    ensures forall k :: 0 <= k < |occs| ==> shortest <= occs[k].length
    ensures exists k :: 0 <= k < |occs| && shortest == occs[k].length
  {
    shortest := occs[0].length;
    for i := 1 to |occs|
      invariant exists k :: 0 <= k < i && shortest == occs[k].length
      invariant forall k :: 0 <= k < i ==> shortest <= occs[k].length
    {
      if occs[i].length < shortest {
        shortest := occs[i].length;
      }
    }
  }

  lemma LeastLengthIsShortestWindow(w: Membership, sorted: seq<Occurrence>, occs: seq<Occurrence>, d: int)
    requires Timeline(w, sorted) && SameMembers(sorted, occs)
    requires forall k :: 0 <= k < |occs| ==> d <= occs[k].length
    requires exists k :: 0 <= k < |occs| && d == occs[k].length
    ensures IsShortestWindow(w, d)
  {
    var least :| 0 <= least < |occs| && d == occs[least].length;
    forall a, b | OpenRun(w, a, b)
      ensures d <= b - a
    {
      var i := OpenRunIsOccurrence(w, sorted, a, b);
      assert sorted[i] in occs;
    }
    assert occs[least] in sorted;
    var j :| 0 <= j < |sorted| && sorted[j] == occs[least];
    var x := sorted[j].start;
    assert At(sorted[j], x);
    assert OpenRun(w, x, x + d);
    assert d == (x + d) - x;
  }

  /** The shortest stretch of the weekly cycle during which the window is closed. */
  method ShortestIdleGap(s: Schedule) returns (g: int, ok: bool)
    requires Fixed(s)
    ensures ok <==> !NeverOpens(Members(s)) && !NeverCloses(Members(s))
    ensures ok ==> IsShortestGap(Members(s), g)
  {
    var occs := MergedOccurrences(s);
    OccurrencesSummary(s);
    if |occs| == 0 { return 0, false; }
    if |occs| == 1 && occs[0].length >= WEEK {
      return 0, false;
    }
    var sorted := Sort(Earlier, occs);
    g := LeastIdle(Members(s), sorted);
    LeastIdleIsShortestGap(Members(s), sorted, g);
    return g, true;
  }

  /** The running minimum of end-to-start distances, the wrap last; -1 until set. */
  method LeastIdle(ghost w: Membership, occs: seq<Occurrence>) returns (shortest: int)
    requires Timeline(w, occs)
    ensures forall i :: 0 <= i < |occs| ==> shortest <= Idle(occs, i)
    ensures exists i :: 0 <= i < |occs| && shortest == Idle(occs, i)
  {
    IdlesPositive(w, occs);
    shortest := -1;
    for i := 1 to |occs|
      invariant i == 1 ==> shortest == -1
      invariant i > 1 ==> 0 < shortest && exists k :: 0 <= k < i - 1 && shortest == Idle(occs, k)
      invariant forall k :: 0 <= k < i - 1 ==> shortest <= Idle(occs, k)
    {
      var gap := occs[i].start - (occs[i - 1].start + occs[i - 1].length);
      assert gap == Idle(occs, i - 1);
      if shortest < 0 || gap < shortest {
        shortest := gap;
      }
    }
    var n := |occs| - 1;
    var last := occs[0].start + WEEK - (occs[n].start + occs[n].length);
    assert last == Idle(occs, n);
    if shortest < 0 || last < shortest {
      shortest := last;
    }
  }

  lemma IdlesPositive(w: Membership, occs: seq<Occurrence>)
    requires Timeline(w, occs)
    ensures forall i :: 0 <= i < |occs| ==> 0 < Idle(occs, i)
  {
    forall i | 0 <= i < |occs|
      ensures 0 < Idle(occs, i)
    {
      assert At(occs[i], occs[i].start);
      IdleRun(w, occs, i, occs[i].start);
    }
  }

  lemma LeastIdleIsShortestGap(w: Membership, occs: seq<Occurrence>, g: int)
    requires Timeline(w, occs)
    requires forall i :: 0 <= i < |occs| ==> g <= Idle(occs, i)
    requires exists i :: 0 <= i < |occs| && g == Idle(occs, i)
    ensures IsShortestGap(w, g)
  {
    forall a, b | ClosedRun(w, a, b)
      ensures g <= b - a
    {
      var i := ClosedRunIsIdle(w, occs, a, b);
    }
    var i :| 0 <= i < |occs| && g == Idle(occs, i);
    var x := occs[i].start;
    assert At(occs[i], x);
    IdleRun(w, occs, i, x);
    assert g == (x + Distance(occs, i)) - (x + occs[i].length);
  }

  // ----- a week is exactly its occurrences and its idle gaps -----

  function OpenTime(occs: seq<Occurrence>, n: nat): int
    requires n <= |occs|
  {
    if n == 0 then 0 else OpenTime(occs, n - 1) + occs[n - 1].length
  }

  function IdleTime(occs: seq<Occurrence>, n: nat): int
    requires n <= |occs|
  {
    if n == 0 then 0 else IdleTime(occs, n - 1) + Idle(occs, n - 1)
  }

  /** The open instants of [a, b). */
  function OpenInstants(w: Membership, a: Time, b: Time): nat
    decreases b - a
  {
    if b <= a then 0 else OpenInstants(w, a, b - 1) + if w(b - 1) then 1 else 0
  }

  lemma {:induction false} InstantsSplit(w: Membership, a: Time, m: Time, b: Time)
    requires a <= m <= b
    ensures OpenInstants(w, a, b) == OpenInstants(w, a, m) + OpenInstants(w, m, b)
    decreases b - m
  {
    if m < b { InstantsSplit(w, a, m, b - 1); }
  }

  lemma {:induction false} UniformInstants(w: Membership, a: Time, b: Time, open: bool)
    requires a <= b && forall t :: a <= t < b ==> w(t) == open
    ensures OpenInstants(w, a, b) == if open then b - a else 0
    decreases b - a
  {
    if a < b { UniformInstants(w, a, b - 1, open); }
  }

  /** Where the first n occurrences and the idle gaps after them end. */
  function Edge(occs: seq<Occurrence>, n: nat): Time
    requires occs != [] && n <= |occs|
  {
    if n == |occs| then occs[0].start + WEEK else occs[n].start
  }

  /** From one start to the next the window is open for the length of the occurrence. */
  lemma OneOccurrence(w: Membership, occs: seq<Occurrence>, i: nat)
    requires Timeline(w, occs) && i < |occs|
    ensures Edge(occs, i + 1) == occs[i].start + occs[i].length + Idle(occs, i)
    ensures 0 < occs[i].length && 0 < Idle(occs, i)
    ensures OpenInstants(w, occs[i].start, Edge(occs, i + 1)) == occs[i].length
  {
    var o, close := occs[i], occs[i].start + occs[i].length;
    assert At(o, o.start);
    IdleRun(w, occs, i, o.start);
    assert OpenRun(w, o.start, close);
    hide Timeline, OpenInstants;
    UniformInstants(w, o.start, close, true);
    UniformInstants(w, close, Edge(occs, i + 1), false);
    InstantsSplit(w, o.start, close, Edge(occs, i + 1));
  }

  /** The instants in the window up to an edge are the lengths of the occurrences passed. */
  lemma {:induction false} InstantsAreOpenTime(w: Membership, occs: seq<Occurrence>, n: nat)
    requires Timeline(w, occs) && n <= |occs|
    ensures occs[0].start <= Edge(occs, n) == occs[0].start + OpenTime(occs, n) + IdleTime(occs, n)
    ensures OpenInstants(w, occs[0].start, Edge(occs, n)) == OpenTime(occs, n)
  {
    if n > 0 {
      InstantsAreOpenTime(w, occs, n - 1);
      OneOccurrence(w, occs, n - 1);
      hide Timeline, Idle, OpenInstants;
      InstantsSplit(w, occs[0].start, occs[n - 1].start, Edge(occs, n));
    }
  }

  /** A window that repeats weekly is open equally long in every week, wherever it is cut. */
  lemma {:induction false} EveryWeekAlike(w: Membership, a: Time, b: Time)
    requires a <= b && forall t :: w(t + WEEK) == w(t)
    ensures OpenInstants(w, a, a + WEEK) == OpenInstants(w, b, b + WEEK)
    decreases b - a
  {
    if a < b {
      EveryWeekAlike(w, a, b - 1);
      var c := b - 1;
      InstantsSplit(w, c, b, b + WEEK);
      assert OpenInstants(w, c, b) == if w(c) then 1 else 0;
      assert OpenInstants(w, c, c + WEEK + 1) == OpenInstants(w, c, c + WEEK) + if w(c + WEEK) then 1 else 0;
    }
  }

  /** The seven days from `t` on. */
  function OpenInWeek(w: Membership, t: Time): nat {
    OpenInstants(w, t, t + WEEK)
  }

  /** From each of its starts an occurrence is a maximal open stretch, and the idle gap
  after it a maximal closed one. */
  ghost predicate Alternating(w: Membership, occs: seq<Occurrence>) {
    forall i, x :: 0 <= i < |occs| && At(occs[i], x) ==>
      var close := x + occs[i].length;
      OpenRun(w, x, close) && ClosedRun(w, close, close + Idle(occs, i))
  }

  /** The effective window of a fixed schedule that opens and closes: its occurrences in
  order are its maximal open stretches, the idle gaps between them its maximal closed
  ones; their lengths make up exactly one week, and any seven days hold exactly the open
  part in the window. */
  lemma WeekIsOpenPlusIdle(s: Schedule)
    requires Fixed(s) && !NeverOpens(Members(s)) && !NeverCloses(Members(s))
    ensures var occs := Sort(Earlier, Occurrences(s));
            && occs != [] && Alternating(Members(s), occs)
            && OpenTime(occs, |occs|) + IdleTime(occs, |occs|) == WEEK
            && (forall t :: OpenInWeek(Members(s), t) == OpenTime(occs, |occs|))
  {
    OccurrencesSummary(s);
    var occs := Sort(Earlier, Occurrences(s));
    hide Fixed, Timeline, OpenInstants, NeverOpens, NeverCloses;
    TimelineAlternates(Members(s), occs);
    InstantsAreOpenTime(Members(s), occs, |occs|);
    hide Alternating, OpenTime, IdleTime;
    forall t
      ensures OpenInWeek(Members(s), t) == OpenTime(occs, |occs|)
    {
      AnyWeekAlike(s, t, occs[0].start);
    }
  }

  lemma TimelineAlternates(w: Membership, occs: seq<Occurrence>)
    requires Timeline(w, occs)
    ensures occs != [] && Alternating(w, occs)
  {
    forall i, x | 0 <= i < |occs| && At(occs[i], x)
      ensures var close := x + occs[i].length; OpenRun(w, x, close) && ClosedRun(w, close, close + Idle(occs, i))
    {
      IdleRun(w, occs, i, x);
    }
  }

  lemma AnyWeekAlike(s: Schedule, a: Time, b: Time)
    requires Fixed(s)
    ensures OpenInWeek(Members(s), a) == OpenInWeek(Members(s), b)
  {
    forall t
      ensures Members(s)(t + WEEK) == Members(s)(t)
    {
      InWindowWeekly(s, t, 1);
    }
    if a <= b { EveryWeekAlike(Members(s), a, b); } else { EveryWeekAlike(Members(s), b, a); }
  }
}
