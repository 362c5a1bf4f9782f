/** The maintenance calendar: a union of weekly windows, each in its own time zone
(internal/window/window.go). */
module Calendar {
  import opened Clock
  import opened Options

  /** A change of UTC offset at an instant. */
  datatype Shift = Shift(at: Time, offset: int)

  /** A time zone: the offset before the first shift, and the shifts in order. */
  datatype Zone = Zone(base: int, shifts: seq<Shift>)

  ghost predicate ValidZone(z: Zone) {
    forall i, j :: 0 <= i < j < |z.shifts| ==> z.shifts[i].at < z.shifts[j].at
  }

  /** The offset in effect at `t`: that of the last shift at or before `t`. */
  function OffsetAt(z: Zone, t: Time): int
    decreases |z.shifts|
  {
    var n := |z.shifts|;
    if n == 0 then z.base
    else if z.shifts[n - 1].at <= t then z.shifts[n - 1].offset
    else OffsetAt(Zone(z.base, z.shifts[..n - 1]), t)
  }

  /** The first shift strictly after `t`, where the segment containing `t` ends. */
  function NextShift(z: Zone, t: Time): Option<Time>
    decreases |z.shifts|
  {
    if z.shifts == [] then None
    else if t < z.shifts[0].at then Some(z.shifts[0].at)
    else NextShift(Zone(z.base, z.shifts[1..]), t)
  }

  /** One recurrence. Weekdays are numbered as in Go: Sunday is 0. */
  datatype Entry = Entry(zone: Zone, days: seq<nat>, startMin: int, endMin: int)

  type Schedule = seq<Entry>

  /** What parsing guarantees of an entry: weekday numbers and HH:MM times. An entry
  whose end does not follow its start is still an entry, one that never opens. */
  ghost predicate ValidEntry(e: Entry) {
    && ValidZone(e.zone)
    && (forall d <- e.days :: d < 7)
    && 0 <= e.startMin < 1440
    && 0 <= e.endMin < 1440
  }

  ghost predicate Valid(s: Schedule) {
    forall e <- s :: ValidEntry(e)
  }

  /** Minutes since local midnight, and the local weekday, at `t`. */
  function MinuteOfDay(z: Zone, t: Time): int {
    (t + OffsetAt(z, t)) % DAY / MINUTE
  }

  function Weekday(z: Zone, t: Time): int {
    ((t + OffsetAt(z, t)) / DAY + 1) % 7
  }

  predicate Open(e: Entry, t: Time) {
    && e.startMin <= MinuteOfDay(e.zone, t) < e.endMin
    && Weekday(e.zone, t) in e.days
  }

  predicate InWindow(s: Schedule, t: Time) {
    exists e <- s :: Open(e, t)
  }

  // ----- occurrence bounds around an instant -----

  /** A window as a set of instants. */
  type Membership = Time -> bool

  function Members(s: Schedule): Membership {
    t => InWindow(s, t)
  }

  const SCAN_STEP: int := MINUTE
  const SEARCH_HORIZON: int := WEEK
  const SCAN_MARGIN: int := SCAN_STEP

  /** Every offset in effect in [from, to) and every shift strictly inside it is a
  whole number of minutes. */
  ghost predicate MinuteAligned(e: Entry, from: Time, to: Time) {
    && (forall t :: from <= t < to ==> OffsetAt(e.zone, t) % MINUTE == 0)
    && (forall i {:trigger e.zone.shifts[i]} :: 0 <= i < |e.zone.shifts| && from < e.zone.shifts[i].at < to
          ==> e.zone.shifts[i].at % MINUTE == 0)
  }

  ghost predicate AllAligned(s: Schedule, from: Time, to: Time) {
    forall e <- s :: MinuteAligned(e, from, to)
  }

  lemma {:induction false} NextShiftIsFirst(z: Zone, t: Time)
    requires ValidZone(z)
    ensures NextShift(z, t).None? ==> forall i :: 0 <= i < |z.shifts| ==> z.shifts[i].at <= t
    ensures NextShift(z, t).Some? ==>
              && t < NextShift(z, t).value
              && (exists i :: 0 <= i < |z.shifts| && z.shifts[i].at == NextShift(z, t).value)
              && (forall i :: 0 <= i < |z.shifts| && t < z.shifts[i].at ==> NextShift(z, t).value <= z.shifts[i].at)
    decreases |z.shifts|
  {
    if z.shifts != [] && z.shifts[0].at <= t {
      var rest := Zone(z.base, z.shifts[1..]);
      NextShiftIsFirst(rest, t);
      assert forall i :: 1 <= i < |z.shifts| ==> z.shifts[i] == rest.shifts[i - 1];
      if NextShift(z, t).Some? {
        var k :| 0 <= k < |rest.shifts| && rest.shifts[k].at == NextShift(rest, t).value;
        assert z.shifts[k + 1].at == NextShift(z, t).value;
      }
    } else if z.shifts != [] {
      assert z.shifts[0].at == NextShift(z, t).value;
    }
  }

  /** Between two instants with no shift after the first and up to the second, the
  offset does not change. */
  lemma {:induction false} OffsetConstant(z: Zone, t: Time, u: Time)
    requires t <= u
    requires forall i :: 0 <= i < |z.shifts| ==> !(t < z.shifts[i].at <= u)
    ensures OffsetAt(z, t) == OffsetAt(z, u)
    decreases |z.shifts|
  {
    var n := |z.shifts|;
    if n > 0 && !(z.shifts[n - 1].at <= t) {
      assert u < z.shifts[n - 1].at;
      OffsetConstant(Zone(z.base, z.shifts[..n - 1]), t, u);
    }
  }

  /** The zone audit over [from, to). */
  method MinuteAlignedZones(s: Schedule, from: Time, to: Time) returns (aligned: bool)
    requires Valid(s)
    requires from < to
    ensures aligned <==> AllAligned(s, from, to)
  {
    for k := 0 to |s|
      invariant forall j :: 0 <= j < k ==> MinuteAligned(s[j], from, to)
    {
      assert ValidEntry(s[k]);
      var ok := EntryAligned(s[k], from, to);
      if !ok { return false; }
    }
    return true;
  }

  /** The part of the audit a walk from `from` has covered on reaching `t`. */
  ghost predicate AlignedUpTo(e: Entry, from: Time, t: Time) {
    && (forall u :: from <= u < t ==> OffsetAt(e.zone, u) % MINUTE == 0)
    && (forall i {:trigger e.zone.shifts[i]} :: 0 <= i < |e.zone.shifts| && from < e.zone.shifts[i].at <= t
          ==> e.zone.shifts[i].at % MINUTE == 0)
  }

  /** One entry's zone, segment by segment. */
  method EntryAligned(e: Entry, from: Time, to: Time) returns (aligned: bool)
    requires ValidZone(e.zone)
    requires from < to
    ensures aligned <==> MinuteAligned(e, from, to)
  {
    var t, open := from, true;
    while open && t < to
      invariant from <= t && (open ==> t < to)
      invariant AlignedUpTo(e, from, if open then t else to - 1)
      invariant !open ==> OffsetAt(e.zone, to - 1) % MINUTE == 0
      decreases open, to - t
    {
      if OffsetAt(e.zone, t) % MINUTE != 0 {
        return false;
      }
      NextShiftIsFirst(e.zone, t);
      var end := NextShift(e.zone, t);
      SegmentAligned(e.zone, t, if end.None? || to <= end.value then to else end.value);
      if end.None? || to <= end.value {
        open := false;
      } else {
        if end.value % MINUTE != 0 {
          return false;
        }
        t := end.value;
      }
    }
    return true;
  }

  lemma SegmentAligned(z: Zone, t: Time, stop: Time)
    requires t < stop
    requires forall i :: 0 <= i < |z.shifts| ==> !(t < z.shifts[i].at < stop)
    requires OffsetAt(z, t) % MINUTE == 0
    ensures forall u :: t <= u < stop ==> OffsetAt(z, u) % MINUTE == 0
  {
    forall u | t <= u < stop
      ensures OffsetAt(z, u) % MINUTE == 0
    {
      OffsetConstant(z, t, u);
    }
  }

  function FloorMinute(t: Time): Time {
    t - t % MINUTE
  }

  /** Under the audit, membership is constant on every whole UTC minute. */
  lemma MinuteConstant(s: Schedule, from: Time, to: Time, t: Time)
    requires AllAligned(s, from, to)
    requires from <= FloorMinute(t) && t < to
    ensures InWindow(s, t) == InWindow(s, FloorMinute(t))
  {
    forall e <- s
      ensures Open(e, t) == Open(e, FloorMinute(t))
    {
      EntryMinuteConstant(e, from, to, t);
    }
  }

  lemma EntryMinuteConstant(e: Entry, from: Time, to: Time, t: Time)
    requires MinuteAligned(e, from, to)
    requires from <= FloorMinute(t) && t < to
    ensures Open(e, t) == Open(e, FloorMinute(t))
  {
    var b := FloorMinute(t);
    OffsetConstant(e.zone, b, t);
    var off := OffsetAt(e.zone, b);
    assert off % MINUTE == 0;
    assert (t + off) / DAY == (b + off) / DAY && (t + off) % DAY / MINUTE == (b + off) % DAY / MINUTE by {
      SameMinute(b + off, t - b);
    }
  }

  lemma SameMinute(b: int, r: int)
    requires b % MINUTE == 0 && 0 <= r < MINUTE
    ensures (b + r) / DAY == b / DAY && (b + r) % DAY / MINUTE == b % DAY / MINUTE
  {
    var d, m := b / DAY, b % DAY;
    assert b == d * DAY + m;
    assert m % MINUTE == 0;
    assert (b + r) / DAY == d && (b + r) % DAY == m + r;
  }

  /** Two instants of the same UTC minute agree. */
  lemma SameMinuteAgree(s: Schedule, from: Time, to: Time, t: Time, u: Time)
    requires AllAligned(s, from, to)
    requires FloorMinute(t) == FloorMinute(u)
    requires from <= FloorMinute(t) && t < to && u < to
    ensures InWindow(s, t) == InWindow(s, u)
  {
    MinuteConstant(s, from, to, t);
    MinuteConstant(s, from, to, u);
  }

  /** [start, end) is the maximal run of in-window instants around `now`. */
  ghost predicate IsOccurrence(s: Schedule, now: Time, start: Time, end: Time) {
    && start <= now < end
    && (forall t :: start <= t < end ==> InWindow(s, t))
    && !InWindow(s, start - 1)
    && !InWindow(s, end)
  }

  /** Binary search of a bracket whose ends differ in membership: the result is on
  hi's side, the instant before it on lo's. */
  method Refine(w: Membership, lo0: Time, hi0: Time, wantIn: bool) returns (r: Time)
    requires lo0 < hi0
    requires w(lo0) != wantIn && w(hi0) == wantIn
    ensures lo0 < r <= hi0
    ensures w(r) == wantIn && w(r - 1) != wantIn
  {
    var lo, hi := lo0, hi0;
    while hi - lo > 1
      invariant lo0 <= lo < hi <= hi0
      invariant w(lo) != wantIn && w(hi) == wantIn
    {
      var mid := lo + (hi - lo) / 2;
      if w(mid) == wantIn {
        hi := mid;
      } else {
        lo := mid;
      }
    }
    r := hi;
  }

  /** A step [a, a + 60] meets one minute boundary b: membership is that of a before b
  and that of a + 60 from b on. So a one-minute sample lattice steps over nothing. */
  ghost predicate Split(w: Time -> bool, a: Time, b: Time) {
    && a < b <= a + SCAN_STEP
    && (forall t :: a <= t < b ==> w(t) == w(a))
    && (forall t :: b <= t <= a + SCAN_STEP ==> w(t) == w(a + SCAN_STEP))
  }

  /** The minute boundary strictly after `a`. */
  function Boundary(a: Time): Time {
    FloorMinute(a) + MINUTE
  }

  ghost predicate SplitsEverywhere(w: Membership, from: Time, to: Time) {
    forall a {:trigger Boundary(a)} :: from <= a <= to ==> Split(w, a, Boundary(a))
  }

  lemma AlignedSplits(s: Schedule, from: Time, to: Time)
    requires AllAligned(s, from - SCAN_MARGIN, to + SCAN_STEP + SCAN_MARGIN)
    ensures SplitsEverywhere(Members(s), from, to)
  {
    forall a {:trigger Boundary(a)} | from <= a <= to
      ensures Split(Members(s), a, Boundary(a))
    {
      StepSplits(s, from - SCAN_MARGIN, to + SCAN_STEP + SCAN_MARGIN, a, Boundary(a));
    }
  }

  lemma StepSplits(s: Schedule, from: Time, to: Time, a: Time, b: Time)
    requires AllAligned(s, from, to)
    requires from <= FloorMinute(a) && a + SCAN_STEP < to && b == Boundary(a)
    ensures Split(Members(s), a, b)
  {
    forall t | a <= t < b
      ensures InWindow(s, t) == InWindow(s, a)
    {
      SameMinuteAgree(s, from, to, t, a);
    }
    forall t | b <= t <= a + SCAN_STEP
      ensures InWindow(s, t) == InWindow(s, a + SCAN_STEP)
    {
      SameMinuteAgree(s, from, to, t, a + SCAN_STEP);
    }
  }

  /** The crossing a refinement finds in a split step is its only one. */
  lemma OneCrossing(w: Membership, a: Time, b: Time, r: Time)
    requires Split(w, a, b) && w(a) != w(a + SCAN_STEP)
    requires a < r <= a + SCAN_STEP && w(r) == w(a + SCAN_STEP) && w(r - 1) == w(a)
    ensures r == b
    ensures forall t :: a <= t < r ==> w(t) == w(a)
    ensures forall t :: r <= t <= a + SCAN_STEP ==> w(t) == w(a + SCAN_STEP)
  {
  }

  ghost predicate Throughout(w: Membership, a: Time, b: Time) {
    forall t :: a <= t <= b ==> w(t)
  }

  lemma StepInside(w: Membership, lo: Time, a: Time, b: Time, hi: Time)
    requires Split(w, a, b) && w(a) && w(a + SCAN_STEP)
    ensures Throughout(w, lo, a) ==> Throughout(w, lo, a + SCAN_STEP)
    ensures Throughout(w, a + SCAN_STEP, hi) ==> Throughout(w, a, hi)
  {
  }

  /** The first out-of-window instant after `now`. */
  method FirstOutAfter(w: Membership, now: Time) returns (end: Time, ok: bool)
    requires w(now)
    requires SplitsEverywhere(w, now, now + SEARCH_HORIZON - SCAN_STEP)
    ensures ok ==> now < end <= now + SEARCH_HORIZON && !w(end) && Throughout(w, now, end - 1)
    ensures !ok ==> Throughout(w, now, now + SEARCH_HORIZON)
  {
    var last := now;
    for k := 0 to SEARCH_HORIZON / SCAN_STEP
      invariant last == now + k * SCAN_STEP
      invariant w(last)
      invariant Throughout(w, now, last)
    {
      var out := last + SCAN_STEP;
      ghost var b := Boundary(last);
      if !w(out) {
        end := Refine(w, last, out, false);
        OneCrossing(w, last, b, end);
        return end, true;
      }
      StepInside(w, now, last, b, now);
      last := out;
    }
    return now, false;
  }

  /** The first instant of the occurrence containing `now`. */
  method FirstInAtOrBefore(w: Membership, now: Time) returns (start: Time, ok: bool)
    requires w(now)
    requires SplitsEverywhere(w, now - SEARCH_HORIZON, now - SCAN_STEP)
    ensures ok ==> now - SEARCH_HORIZON < start <= now && !w(start - 1) && Throughout(w, start, now)
    ensures !ok ==> Throughout(w, now - SEARCH_HORIZON, now)
  {
    var first := now;
    for k := 0 to SEARCH_HORIZON / SCAN_STEP
      invariant first == now - k * SCAN_STEP
      invariant w(first)
      invariant Throughout(w, first, now)
    {
      var out := first - SCAN_STEP;
      ghost var b := Boundary(out);
      if !w(out) {
        start := Refine(w, out, first, true);
        OneCrossing(w, out, b, start);
        return start, true;
      }
      StepInside(w, now, out, b, now);
      first := out;
    }
    return now, false;
  }

  /** When the occurrence search succeeds: in the window, every zone aligned across the
  searched span, and a closed instant within the horizon on either side. */
  ghost predicate Found(s: Schedule, now: Time) {
    && InWindow(s, now)
    && AllAligned(s, now - SEARCH_HORIZON - SCAN_MARGIN, now + SEARCH_HORIZON + SCAN_MARGIN)
    && (exists u :: now < u <= now + SEARCH_HORIZON && !InWindow(s, u))
    && (exists u :: now - SEARCH_HORIZON <= u < now && !InWindow(s, u))
  }

  /** The bounds [start, end) of one occurrence. */
  datatype Bounds = Bounds(start: Time, end: Time)

  /** The bounds of the occurrence containing `now`; none when out of the window, when
  the zones are misaligned, or when no boundary lies within the search horizon. */
  method OccurrenceBounds(s: Schedule, now: Time) returns (bounds: Option<Bounds>)
    requires Valid(s)
    ensures bounds.Some? <==> Found(s, now)
    ensures bounds.Some? ==> IsOccurrence(s, now, bounds.value.start, bounds.value.end)
    ensures bounds == BoundsAt(s, now)
  {
    if !InWindow(s, now) { return None; }
    var aligned := MinuteAlignedZones(s, now - SEARCH_HORIZON - SCAN_MARGIN, now + SEARCH_HORIZON + SCAN_MARGIN);
    if !aligned { return None; }
    AlignedSplits(s, now - SEARCH_HORIZON, now + SEARCH_HORIZON - SCAN_STEP);
    var end, closes := FirstOutAfter(Members(s), now);
    if !closes {
      NotFound(s, now);
      return None;
    }
    var start, opens := FirstInAtOrBefore(Members(s), now);
    if !opens {
      NotFound(s, now);
      return None;
    }
    SearchResult(s, now, start, end);
    return Some(Bounds(start, end));
  }

  /** What the search finds, as a function of the schedule and the instant. */
  ghost function BoundsAt(s: Schedule, now: Time): (r: Option<Bounds>)
    ensures r.Some? <==> Found(s, now)
    ensures r.Some? ==> IsOccurrence(s, now, r.value.start, r.value.end)
  {
    if Found(s, now) then
      FoundOccurrence(s, now);
      var start, end :| IsOccurrence(s, now, start, end);
      Some(Bounds(start, end))
    else
      None
  }

  lemma NotFound(s: Schedule, now: Time)
    requires Throughout(Members(s), now, now + SEARCH_HORIZON) || Throughout(Members(s), now - SEARCH_HORIZON, now)
    ensures !Found(s, now)
  {
    var from := if Throughout(Members(s), now, now + SEARCH_HORIZON) then now else now - SEARCH_HORIZON;
    forall u | from <= u <= from + SEARCH_HORIZON
      ensures InWindow(s, u)
    {
      assert Members(s)(u);
    }
  }

  lemma SearchResult(s: Schedule, now: Time, start: Time, end: Time)
    requires AllAligned(s, now - SEARCH_HORIZON - SCAN_MARGIN, now + SEARCH_HORIZON + SCAN_MARGIN)
    requires now - SEARCH_HORIZON < start <= now < end <= now + SEARCH_HORIZON
    requires !InWindow(s, start - 1) && !InWindow(s, end)
    requires Throughout(Members(s), start, now) && Throughout(Members(s), now, end - 1)
    ensures Found(s, now) && BoundsAt(s, now) == Some(Bounds(start, end))
  {
    forall t | start <= t < end
      ensures InWindow(s, t)
    {
      assert Members(s)(t);
    }
    BoundsAtIs(s, now, start, end);
  }

  lemma FoundOccurrence(s: Schedule, now: Time)
    requires Found(s, now)
    ensures exists start, end :: IsOccurrence(s, now, start, end)
  {
    var w := Members(s);
    var u :| now < u <= now + SEARCH_HORIZON && !InWindow(s, u);
    var v :| now - SEARCH_HORIZON <= v < now && !InWindow(s, v);
    assert w(now) && !w(u) && !w(v);
    var end := RunEnd(w, now, u);
    var start := RunStart(w, v, now);
    forall t | start <= t < end
      ensures InWindow(s, t)
    {
      assert w(t);
    }
    assert IsOccurrence(s, now, start, end);
  }

  lemma RunEnd(w: Membership, now: Time, u: Time) returns (end: Time)
    requires w(now) && !w(u) && now <= u
    ensures now < end <= u && !w(end) && forall t :: now <= t < end ==> w(t)
  {
    end := now;
    while w(end)
      invariant now <= end <= u
      invariant forall t :: now <= t < end ==> w(t)
      decreases u - end
    {
      end := end + 1;
    }
  }

  lemma RunStart(w: Membership, v: Time, now: Time) returns (start: Time)
    requires w(now) && !w(v) && v <= now
    ensures v < start <= now && !w(start - 1) && forall t :: start <= t <= now ==> w(t)
  {
    start := now;
    while w(start - 1)
      invariant v < start <= now
      invariant forall t :: start <= t <= now ==> w(t)
      decreases start - v
    {
      start := start - 1;
    }
  }

  lemma BoundsAtIs(s: Schedule, now: Time, start: Time, end: Time)
    requires Found(s, now) && IsOccurrence(s, now, start, end)
    ensures BoundsAt(s, now) == Some(Bounds(start, end))
  {
    var b := BoundsAt(s, now).value;
    OccurrenceUnique(s, now, start, end, now, b.start, b.end);
  }

  /** The maximal run around an instant is unique, and every instant of it has it. */
  lemma OccurrenceUnique(s: Schedule, now: Time, a: Time, b: Time, later: Time, c: Time, d: Time)
    requires IsOccurrence(s, now, a, b)
    requires IsOccurrence(s, later, c, d)
    ensures a <= later < b <==> c <= now < d
    ensures a <= later < b ==> a == c && b == d
  {
  }
}
