/** The weekly projection of a schedule with constant whole-minute offsets: its
occurrences on the circle of one week, and the three figures read off them
(internal/window/window.go). */
module Weekly {
  import opened Clock
  import opened Calendar
  import opened Sorting

  /** Every zone keeps one whole-minute UTC offset. */
  ghost predicate Fixed(s: Schedule) {
    && Calendar.Valid(s)
    && (forall e <- s :: e.zone.shifts == [] && e.zone.base % MINUTE == 0)
  }

  // ----- the direct test repeats weekly -----

  lemma OpenWeekly(e: Entry, t: Time, k: int)
    requires e.zone.shifts == []
    ensures Open(e, t + k * WEEK) == Open(e, t)
  {
    var local := t + e.zone.base;
    assert (local + 7 * k * DAY) % DAY == local % DAY && (local + 7 * k * DAY) / DAY == local / DAY + 7 * k;
    assert (local / DAY + 7 * k + 1) % 7 == (local / DAY + 1) % 7;
  }

  lemma InWindowWeekly(s: Schedule, t: Time, k: int)
    requires Fixed(s)
    ensures InWindow(s, t + k * WEEK) == InWindow(s, t)
  {
    forall e <- s
      ensures Open(e, t + k * WEEK) == Open(e, t)
    {
      OpenWeekly(e, t, k);
    }
  }

  /** Two instants a whole number of weeks apart. */
  predicate SameWeekly(t: Time, u: Time) {
    (t - u) % WEEK == 0
  }

  lemma InWindowSameWeekly(s: Schedule, t: Time, u: Time)
    requires Fixed(s) && SameWeekly(t, u)
    ensures InWindow(s, t) == InWindow(s, u)
  {
    assert t == u + ((t - u) / WEEK) * WEEK;
    InWindowWeekly(s, u, (t - u) / WEEK);
  }

  /** Fixed zones pass the audit over any span. */
  lemma FixedAligned(s: Schedule, from: Time, to: Time)
    requires Fixed(s)
    ensures AllAligned(s, from, to)
  {
  }

  /** The recurrence of `out` in the week after `now`. */
  lemma RecursAfter(now: Time, out: Time) returns (after: Time)
    ensures now <= after < now + WEEK
    ensures SameWeekly(after, out) && SameWeekly(after - WEEK, out)
  {
    after := now + (out - now) % WEEK;
    assert after - out == -((out - now) / WEEK) * WEEK;
    assert after - WEEK - out == (-((out - now) / WEEK) - 1) * WEEK;
  }

  /** A closed instant recurs within a week of any other, on either side. */
  lemma ClosedNearby(s: Schedule, now: Time, out: Time)
    requires Fixed(s) && InWindow(s, now) && !InWindow(s, out)
    ensures exists u :: now < u <= now + SEARCH_HORIZON && !InWindow(s, u)
    ensures exists u :: now - SEARCH_HORIZON <= u < now && !InWindow(s, u)
  {
    var after := RecursAfter(now, out);
    InWindowSameWeekly(s, after, out);
    InWindowSameWeekly(s, after - WEEK, out);
    NotNow(s, now, after);
    NotNow(s, now, after - WEEK);
  }

  lemma NotNow(s: Schedule, now: Time, u: Time)
    requires InWindow(s, now) && !InWindow(s, u)
    ensures u != now
  {
  }

  /** On a fixed schedule that closes at all, the search succeeds at every in-window
  instant: the clamp it feeds is never silently lost. */
  lemma FixedFound(s: Schedule, now: Time, out: Time)
    requires Fixed(s) && InWindow(s, now) && !InWindow(s, out)
    ensures Found(s, now)
  {
    FixedAligned(s, now - SEARCH_HORIZON - SCAN_MARGIN, now + SEARCH_HORIZON + SCAN_MARGIN);
    ClosedNearby(s, now, out);
  }

  /** ... and its answer is the same at every instant of the occurrence. */
  lemma FixedBoundsConstant(s: Schedule, now: Time, later: Time)
    requires Fixed(s) && BoundsAt(s, now).Some?
    requires BoundsAt(s, now).value.start <= later < BoundsAt(s, now).value.end
    ensures BoundsAt(s, later) == BoundsAt(s, now)
  {
    var b := BoundsAt(s, now).value;
    FixedFound(s, later, b.end);
    var c := BoundsAt(s, later).value;
    OccurrenceUnique(s, now, b.start, b.end, later, c.start, c.end);
  }

  // ----- projecting the entries -----

  /** A half-open interval of the week. */
  datatype Span = Span(start: int, end: int)

  predicate ValidSpan(x: Span) {
    0 <= x.start < x.end <= WEEK
  }

  predicate Holds(x: Span, w: int) {
    x.start <= w < x.end
  }

  ghost predicate Covered(spans: seq<Span>, w: int) {
    exists x <- spans :: Holds(x, w)
  }

  /** Where the occurrence of `e` on weekday `d` starts, as seconds into the week. */
  function StartOffset(e: Entry, d: nat): (st: int)
    ensures 0 <= st < WEEK
  {
    ((d + 6) % 7 * DAY + e.startMin * MINUTE - e.zone.base) % WEEK
  }

  /** The one or two pieces of the week an occurrence occupies: a wrapping one is
  split at the week boundary. */
  function Pieces(e: Entry, d: nat): seq<Span> {
    var st := StartOffset(e, d);
    var en := st + (e.endMin - e.startMin) * MINUTE;
    if en > WEEK then [Span(0, en - WEEK), Span(st, WEEK)] else [Span(st, en)]
  }

  /** Euclidean remainder is unique. */
  lemma ModUnique(x: int, y: int)
    requires (x - y) % WEEK == 0 && 0 <= y < WEEK
    ensures x % WEEK == y
  {
  }

  /** On the circle, being `len` or less past `st` is being in one of the pieces. */
  lemma PieceHolds(e: Entry, d: nat, t: Time)
    requires ValidEntry(e) && e.startMin < e.endMin
    ensures Covered(Pieces(e, d), t % WEEK) <==> (t - StartOffset(e, d)) % WEEK < (e.endMin - e.startMin) * MINUTE
  {
    var st, len, w := StartOffset(e, d), (e.endMin - e.startMin) * MINUTE, t % WEEK;
    if st <= w {
      ModUnique(t - st, w - st);
    } else {
      ModUnique(t - st, w - st + WEEK);
    }
    if st + len > WEEK {
      CoveredConcat([Span(0, st + len - WEEK)], [Span(st, WEEK)], w);
      CoveredOne(Span(0, st + len - WEEK), w);
      CoveredOne(Span(st, WEEK), w);
      assert Pieces(e, d) == [Span(0, st + len - WEEK)] + [Span(st, WEEK)];
    } else {
      CoveredOne(Span(st, st + len), w);
    }
  }

  lemma CoveredOne(x: Span, w: int)
    ensures Covered([x], w) <==> Holds(x, w)
  {
    assert x in [x];
  }

  /** The direct test of one entry agrees with the projection of its occurrences. */
  lemma EntryProjected(e: Entry, t: Time)
    requires ValidEntry(e) && e.zone.shifts == [] && e.startMin < e.endMin
    ensures Open(e, t) <==> exists d <- e.days :: Covered(Pieces(e, d), t % WEEK)
  {
    forall d <- e.days
      ensures Covered(Pieces(e, d), t % WEEK) <==> Open(e, t) && d == Weekday(e.zone, t)
    {
      PieceHolds(e, d, t);
      DayProjected(e, d, t);
    }
  }

  lemma DayProjected(e: Entry, d: nat, t: Time)
    requires ValidEntry(e) && e.zone.shifts == [] && e.startMin < e.endMin && d < 7
    ensures (t - StartOffset(e, d)) % WEEK < (e.endMin - e.startMin) * MINUTE
       <==> e.startMin <= MinuteOfDay(e.zone, t) < e.endMin && Weekday(e.zone, t) == d
  {
    var local, x := t + e.zone.base, (d + 6) % 7 * DAY + e.startMin * MINUTE;
    SubtractMod(t, x - e.zone.base);
    assert t - (x - e.zone.base) == local - x;
    LocalDay(local, d, e.startMin, e.endMin);
  }

  lemma LocalDay(local: int, d: nat, startMin: int, endMin: int)
    requires 0 <= startMin < endMin < 1440 && d < 7
    ensures (local - ((d + 6) % 7 * DAY + startMin * MINUTE)) % WEEK < (endMin - startMin) * MINUTE
       <==> startMin <= local % DAY / MINUTE < endMin && (local / DAY + 1) % 7 == d
  {
    var day, sec, D := local / DAY, local % DAY, (d + 6) % 7;
    assert local == day * DAY + sec;
    DayArithmetic(day, sec, D, startMin * MINUTE);
    SameWeekday(day, d);
    assert startMin * MINUTE <= sec < endMin * MINUTE <==> startMin <= sec / MINUTE < endMin;
  }

  lemma SameWeekday(day: int, d: nat)
    requires d < 7
    ensures (day - (d + 6) % 7) % 7 == 0 <==> (day + 1) % 7 == d
  {
    var q, r := day / 7, day % 7;
    assert day == 7 * q + r;
    assert (day + 1) % 7 == (r + 1) % 7;
    assert (day - (d + 6) % 7) % 7 == (r - (d + 6) % 7) % 7;
  }

  /** How far past second `start` of weekday `D` a given second of a given day lies. */
  lemma DayArithmetic(day: int, sec: int, D: int, start: int)
    requires 0 <= sec < DAY && 0 <= D < 7 && 0 <= start < DAY
    ensures var y := (day * DAY + sec - (D * DAY + start)) % WEEK;
            var r := (day - D) % 7;
            y == if r == 0 && sec < start then WEEK + sec - start else r * DAY + sec - start
  {
    var n, r := (day - D) / 7, (day - D) % 7;
    var y := r * DAY + sec - start;
    var z := day * DAY + sec - (D * DAY + start);
    assert z == n * WEEK + y;
    ModUnique(z, if y >= 0 then y else y + WEEK);
  }

  lemma SubtractMod(t: int, x: int)
    ensures (t - x % WEEK) % WEEK == (t - x) % WEEK
  {
    assert t - x % WEEK == (t - x) + (x / WEEK) * WEEK;
    assert ((t - x) + (x / WEEK) * WEEK) % WEEK == (t - x) % WEEK;
  }

  /** All pieces of all entries, in projection order. */
  function PiecesOfDays(e: Entry, days: seq<nat>): seq<Span> {
    if days == [] then [] else PiecesOfDays(e, days[..|days| - 1]) + Pieces(e, days[|days| - 1])
  }

  function Projected(s: Schedule): seq<Span> {
    if s == [] then []
    else
      var e := s[|s| - 1];
      Projected(s[..|s| - 1]) + if e.startMin < e.endMin then PiecesOfDays(e, e.days) else []
  }

  lemma {:induction false} PiecesOfDaysCover(e: Entry, days: seq<nat>, w: int)
    ensures Covered(PiecesOfDays(e, days), w) <==> exists d <- days :: Covered(Pieces(e, d), w)
  {
    if days != [] {
      var n := |days| - 1;
      PiecesOfDaysCover(e, days[..n], w);
      assert days == days[..n] + [days[n]];
      CoveredConcat(PiecesOfDays(e, days[..n]), Pieces(e, days[n]), w);
    }
  }

  lemma CoveredConcat(a: seq<Span>, b: seq<Span>, w: int)
    ensures Covered(a + b, w) <==> Covered(a, w) || Covered(b, w)
  {
    assert forall x :: x in a + b <==> x in a || x in b;
  }

  lemma {:induction false} PiecesValid(e: Entry, days: seq<nat>)
    requires ValidEntry(e) && e.startMin < e.endMin
    ensures forall x <- PiecesOfDays(e, days) :: ValidSpan(x)
  {
    if days != [] { PiecesValid(e, days[..|days| - 1]); }
  }

  lemma {:induction false} ProjectedValid(s: Schedule)
    requires Calendar.Valid(s)
    ensures forall x <- Projected(s) :: ValidSpan(x)
  {
    if s != [] {
      var e := s[|s| - 1];
      ProjectedValid(s[..|s| - 1]);
      if e.startMin < e.endMin { PiecesValid(e, e.days); }
    }
  }

  /** The union test is membership in the projected pieces. */
  lemma {:induction false} ProjectedCovers(s: Schedule, t: Time)
    requires Fixed(s)
    ensures InWindow(s, t) <==> Covered(Projected(s), t % WEEK)
  {
    if s != [] {
      var e := s[|s| - 1];
      var rest := s[..|s| - 1];
      assert s == rest + [e];
      ProjectedCovers(rest, t);
      assert InWindow(s, t) <==> InWindow(rest, t) || Open(e, t);
      var last := if e.startMin < e.endMin then PiecesOfDays(e, e.days) else [];
      CoveredConcat(Projected(rest), last, t % WEEK);
      if e.startMin < e.endMin {
        EntryProjected(e, t);
        PiecesOfDaysCover(e, e.days, t % WEEK);
      }
    }
  }

  // ----- sorting and merging -----

  predicate Before(a: Span, b: Span) {
    a.start < b.start || (a.start == b.start && a.end <= b.end)
  }

  /** Disjoint, non-adjacent, in order. */
  ghost predicate Separated(spans: seq<Span>) {
    forall i, j :: 0 <= i < j < |spans| ==> spans[i].end < spans[j].start
  }

  ghost predicate AllValid(spans: seq<Span>) {
    forall i :: 0 <= i < |spans| ==> ValidSpan(spans[i])
  }

  /** One step of the merge: a span that touches the last one extends it. */
  function Absorb(merged: seq<Span>, x: Span): (r: seq<Span>)
    requires merged != []
    ensures r != []
  {
    var n := |merged| - 1;
    if x.start <= merged[n].end then
      merged[..n] + [Span(merged[n].start, if x.end > merged[n].end then x.end else merged[n].end)]
    else
      merged + [x]
  }

  function Merged(spans: seq<Span>): (r: seq<Span>)
    requires spans != []
    ensures 0 < |r| <= |spans|
  {
    var n := |spans| - 1;
    if n == 0 then spans else Absorb(Merged(spans[..n]), spans[n])
  }

  /** The merge as the code runs it: compacted into the front of the very slice it is
  still reading. */
  method MergeInPlace(a: array<Span>) returns (n: nat)
    requires 0 < a.Length
    modifies a
    ensures 0 < n <= a.Length
    ensures a[..n] == Merged(old(a[..]))
  {
    ghost var src := a[..];
    n := 1;
    assert a[..1] == src[..1];
    for i := 1 to a.Length
      invariant 0 < n <= i
      invariant forall k :: i <= k < a.Length ==> a[k] == src[k]
      invariant a[..n] == Merged(src[..i])
    {
      ghost var was := a[..n];
      MergedStep(src, i);
      var x := a[i];
      if x.start <= a[n - 1].end {
        if x.end > a[n - 1].end {
          a[n - 1] := Span(a[n - 1].start, x.end);
        }
        assert a[..n] == was[..n - 1] + [a[n - 1]];
      } else {
        a[n] := x;
        n := n + 1;
        assert a[..n] == was + [x];
      }
    }
    assert src[..a.Length] == src;
  }

  lemma MergedStep(src: seq<Span>, i: int)
    requires 0 < i < |src|
    ensures Merged(src[..i + 1]) == Absorb(Merged(src[..i]), src[i])
  {
    assert src[..i + 1][..i] == src[..i];
  }

  lemma AbsorbCovers(merged: seq<Span>, x: Span, w: int)
    requires merged != [] && ValidSpan(merged[|merged| - 1]) && ValidSpan(x)
    requires merged[|merged| - 1].start <= x.start
    ensures Covered(Absorb(merged, x), w) <==> Covered(merged, w) || Holds(x, w)
  {
    var n := |merged| - 1;
    var joined := Span(merged[n].start, if x.end > merged[n].end then x.end else merged[n].end);
    CoveredOne(x, w);
    CoveredConcat(merged, [x], w);
    assert merged == merged[..n] + [merged[n]];
    CoveredOne(merged[n], w);
    CoveredConcat(merged[..n], [merged[n]], w);
    CoveredOne(joined, w);
    CoveredConcat(merged[..n], [joined], w);
  }

  lemma AbsorbSeparated(merged: seq<Span>, x: Span)
    requires merged != [] && AllValid(merged) && Separated(merged) && ValidSpan(x)
    requires merged[|merged| - 1].start <= x.start
    ensures AllValid(Absorb(merged, x)) && Separated(Absorb(merged, x))
    ensures Absorb(merged, x)[|Absorb(merged, x)| - 1].start <= x.start
  {
  }

  lemma FrontSorted(spans: seq<Span>)
    requires |spans| > 1 && SortedBy(Before, spans) && AllValid(spans)
    ensures SortedBy(Before, spans[..|spans| - 1]) && AllValid(spans[..|spans| - 1])
    ensures spans[|spans| - 2].start <= spans[|spans| - 1].start
  {
    assert Before(spans[|spans| - 2], spans[|spans| - 1]);
  }

  /** Merging a sorted slice leaves disjoint, non-adjacent runs in order. */
  lemma {:induction false} MergedIsSeparated(spans: seq<Span>)
    requires spans != [] && SortedBy(Before, spans) && AllValid(spans)
    ensures AllValid(Merged(spans)) && Separated(Merged(spans))
    ensures Merged(spans)[|Merged(spans)| - 1].start <= spans[|spans| - 1].start
  {
    var n := |spans| - 1;
    if n > 0 {
      FrontSorted(spans);
      MergedIsSeparated(spans[..n]);
      AbsorbSeparated(Merged(spans[..n]), spans[n]);
    }
  }

  /** Merging keeps exactly what the slice covers. */
  lemma {:induction false} MergedCovers(spans: seq<Span>, w: int)
    requires spans != [] && SortedBy(Before, spans) && AllValid(spans)
    ensures Covered(Merged(spans), w) <==> Covered(spans, w)
  {
    var n := |spans| - 1;
    if n > 0 {
      FrontSorted(spans);
      MergedCovers(spans[..n], w);
      MergedIsSeparated(spans[..n]);
      AbsorbCovers(Merged(spans[..n]), spans[n], w);
      CoveredLast(spans, w);
    }
  }

  lemma CoveredLast(spans: seq<Span>, w: int)
    requires spans != []
    ensures Covered(spans, w) <==> Covered(spans[..|spans| - 1], w) || Holds(spans[|spans| - 1], w)
  {
    var n := |spans| - 1;
    assert spans == spans[..n] + [spans[n]];
    CoveredOne(spans[n], w);
    CoveredConcat(spans[..n], [spans[n]], w);
  }

  // ----- occurrences on the circle -----

  /** An occurrence begins at `start` and lasts `length`, wrapping past the week end
  if it must. */
  datatype Occurrence = Occurrence(start: int, length: int)

  predicate During(o: Occurrence, t: Time) {
    (t - o.start) % WEEK < o.length
  }

  ghost predicate DuringSome(occs: seq<Occurrence>, t: Time) {
    exists i :: 0 <= i < |occs| && During(occs[i], t)
  }

  predicate WellFormed(o: Occurrence) {
    0 <= o.start < WEEK && 0 < o.length <= WEEK
  }

  /** The union never closes: one occurrence spans the whole week. */
  predicate AlwaysOpen(occs: seq<Occurrence>) {
    |occs| == 1 && occs[0].length == WEEK
  }

  /** Each occurrence is a maximal run: it does not continue on either side. */
  ghost predicate Maximal(occs: seq<Occurrence>) {
    forall i, t :: 0 <= i < |occs| && JustOutside(occs[i], t) ==> !DuringSome(occs, t)
  }

  /** `t` is the instant before an occurrence, or the first one after it. */
  predicate JustOutside(o: Occurrence, t: Time) {
    SameWeekly(t, o.start - 1) || SameWeekly(t, o.start + o.length)
  }

  ghost predicate Disjoint(occs: seq<Occurrence>) {
    forall i, j, t :: 0 <= i < j < |occs| ==> !(During(occs[i], t) && During(occs[j], t))
  }

  ghost predicate Shaped(occs: seq<Occurrence>) {
    && (forall i :: 0 <= i < |occs| ==> WellFormed(occs[i]))
    && Disjoint(occs)
    && (AlwaysOpen(occs) || Maximal(occs))
  }

  /** The occurrences of a schedule's effective window: what the direct test says,
  cut into pairwise disjoint, non-adjacent, maximal runs. */
  ghost predicate IsUnion(s: Schedule, occs: seq<Occurrence>) {
    && (forall t :: InWindow(s, t) <==> DuringSome(occs, t))
    && Shaped(occs)
  }

  /** A span of the week, as an occurrence. */
  function AsOccurrence(x: Span): Occurrence {
    Occurrence(x.start, x.end - x.start)
  }

  /** A span touching the week end continues into one starting at 0: they are one
  occurrence, anchored at its true, late-week start. */
  predicate Wraps(m: seq<Span>) {
    |m| > 1 && m[0].start == 0 && m[|m| - 1].end == WEEK
  }

  function Joined(m: seq<Span>): seq<Occurrence> {
    var n := |m|;
    if Wraps(m) then
      [Occurrence(m[n - 1].start, (WEEK - m[n - 1].start) + m[0].end)] + seq(n - 2, i requires 0 <= i < n - 2 => AsOccurrence(m[i + 1]))
    else
      seq(n, i requires 0 <= i < n => AsOccurrence(m[i]))
  }

  lemma DuringSpan(x: Span, t: Time)
    requires ValidSpan(x)
    ensures During(AsOccurrence(x), t) <==> Holds(x, t % WEEK)
  {
    var w := t % WEEK;
    ModUnique(t - x.start, if x.start <= w then w - x.start else w - x.start + WEEK);
  }

  lemma DuringWrap(m: seq<Span>, t: Time)
    requires AllValid(m) && Separated(m) && Wraps(m)
    ensures During(Joined(m)[0], t) <==> Holds(m[0], t % WEEK) || Holds(m[|m| - 1], t % WEEK)
  {
    WrapMod(m[|m| - 1].start, t);
    assert m[0].end < m[|m| - 1].start;
  }

  lemma WrapMod(st: int, t: Time)
    requires 0 <= st < WEEK
    ensures (t - st) % WEEK == if st <= t % WEEK then t % WEEK - st else t % WEEK - st + WEEK
  {
    var w := t % WEEK;
    ModUnique(t - st, if st <= w then w - st else w - st + WEEK);
  }

  /** The spans an occurrence of the join stands for. */
  predicate StandsFor(m: seq<Span>, i: int, k: int) {
    if Wraps(m) then
      if i == 0 then k == 0 || k == |m| - 1 else k == i
    else
      k == i
  }

  lemma JoinedDuring(m: seq<Span>, i: int, t: Time)
    requires AllValid(m) && Separated(m) && 0 <= i < |Joined(m)|
    ensures During(Joined(m)[i], t) <==> exists k :: 0 <= k < |m| && StandsFor(m, i, k) && Holds(m[k], t % WEEK)
  {
    if Wraps(m) && i == 0 {
      DuringWrap(m, t);
      assert StandsFor(m, 0, 0) && StandsFor(m, 0, |m| - 1);
    } else {
      DuringSpan(m[i], t);
      assert StandsFor(m, i, i);
    }
  }

  lemma JoinedCovers(m: seq<Span>, t: Time)
    requires AllValid(m) && Separated(m)
    ensures DuringSome(Joined(m), t) <==> Covered(m, t % WEEK)
  {
    forall i | 0 <= i < |Joined(m)|
      ensures During(Joined(m)[i], t) <==> exists k :: 0 <= k < |m| && StandsFor(m, i, k) && Holds(m[k], t % WEEK)
    {
      JoinedDuring(m, i, t);
    }
    if Covered(m, t % WEEK) {
      var k :| 0 <= k < |m| && Holds(m[k], t % WEEK);
      var i := if Wraps(m) && k == |m| - 1 then 0 else k;
      assert StandsFor(m, i, k);
      assert During(Joined(m)[i], t);
    }
  }

  lemma JoinedDisjoint(m: seq<Span>)
    requires AllValid(m) && Separated(m)
    ensures Disjoint(Joined(m))
  {
    forall i, j, t | 0 <= i < j < |Joined(m)|
      ensures !(During(Joined(m)[i], t) && During(Joined(m)[j], t))
    {
      JoinedDuring(m, i, t);
      JoinedDuring(m, j, t);
    }
  }

  /** Just outside a separated span, nothing is covered. */
  lemma EdgesUncovered(m: seq<Span>, k: int)
    requires AllValid(m) && Separated(m) && 0 <= k < |m|
    ensures !Covered(m, m[k].start - 1)
    ensures !Covered(m, m[k].end)
  {
  }

  lemma JoinedMaximal(m: seq<Span>)
    requires m != [] && AllValid(m) && Separated(m)
    ensures AlwaysOpen(Joined(m)) || Maximal(Joined(m))
  {
    if m != [Span(0, WEEK)] {
      forall i, t | 0 <= i < |Joined(m)| && JustOutside(Joined(m)[i], t)
        ensures !DuringSome(Joined(m), t)
      {
        JoinedEdge(m, i, t);
      }
    }
  }

  lemma JoinedEdge(m: seq<Span>, i: int, t: Time)
    requires m != [Span(0, WEEK)] && AllValid(m) && Separated(m) && 0 <= i < |Joined(m)|
    requires JustOutside(Joined(m)[i], t)
    ensures !DuringSome(Joined(m), t)
  {
    JoinedCovers(m, t);
    var first, last := FirstSpan(m, i), LastSpan(m, i);
    JoinedEnds(m, i);
    if SameWeekly(t, m[first].start - 1) {
      LeftEdge(m, first, t);
    } else {
      WholeWeek(t, m[last].end);
      RightEdge(m, last, t);
    }
  }

  /** The spans an occurrence of the join begins and ends with. */
  function FirstSpan(m: seq<Span>, i: int): int {
    if Wraps(m) && i == 0 then |m| - 1 else i
  }

  function LastSpan(m: seq<Span>, i: int): int {
    if Wraps(m) && i == 0 then 0 else i
  }

  lemma JoinedEnds(m: seq<Span>, i: int)
    requires 0 <= i < |Joined(m)|
    ensures 0 <= FirstSpan(m, i) < |m| && 0 <= LastSpan(m, i) < |m|
    ensures Joined(m)[i].start == m[FirstSpan(m, i)].start
    ensures Joined(m)[i].start + Joined(m)[i].length == m[LastSpan(m, i)].end + if Wraps(m) && i == 0 then WEEK else 0
    ensures Wraps(m) ==> FirstSpan(m, i) != 0 && LastSpan(m, i) != |m| - 1
  {
  }

  lemma WholeWeek(t: Time, x: Time)
    requires SameWeekly(t, x) || SameWeekly(t, x + WEEK)
    ensures SameWeekly(t, x)
  {
    assert t - x == (t - (x + WEEK)) + WEEK;
  }

  lemma LeftEdge(m: seq<Span>, k: int, t: Time)
    requires m != [Span(0, WEEK)] && AllValid(m) && Separated(m) && 0 <= k < |m|
    requires Wraps(m) ==> k != 0
    requires SameWeekly(t, m[k].start - 1)
    ensures !Covered(m, t % WEEK)
  {
    if m[k].start > 0 {
      ModUnique(t, m[k].start - 1);
      EdgesUncovered(m, k);
    } else {
      ModUnique(t, WEEK - 1);
      assert forall j :: 0 < j < |m| ==> m[0].end < m[j].start;
      assert forall j :: 0 <= j < |m| - 1 ==> m[j].end < m[|m| - 1].start;
    }
  }

  lemma RightEdge(m: seq<Span>, k: int, t: Time)
    requires m != [Span(0, WEEK)] && AllValid(m) && Separated(m) && 0 <= k < |m|
    requires Wraps(m) ==> k != |m| - 1
    requires SameWeekly(t, m[k].end)
    ensures !Covered(m, t % WEEK)
  {
    if m[k].end < WEEK {
      ModUnique(t, m[k].end);
      EdgesUncovered(m, k);
    } else {
      ModUnique(t, 0);
      assert forall j :: 0 <= j < |m| - 1 ==> m[j].end < m[|m| - 1].start;
      assert forall j :: 0 < j < |m| ==> m[0].end < m[j].start;
    }
  }

  lemma BeforeIsOrder()
    ensures TotalOrder(Before)
  {
  }

  /** The occurrences of a schedule, as a value: projected, sorted, merged, joined. */
  function Occurrences(s: Schedule): seq<Occurrence> {
    if Projected(s) == [] then [] else Joined(Merged(Sort(Before, Projected(s))))
  }

  /** The heart of the projection: on fixed zones the direct per-instant test says
  exactly what the merged occurrences say. */
  lemma OccurrencesCover(s: Schedule, t: Time)
    requires Fixed(s)
    ensures InWindow(s, t) <==> DuringSome(Occurrences(s), t)
  {
    var spans := Projected(s);
    ProjectedCovers(s, t);
    if spans != [] {
      ProjectedValid(s);
      SortedMerge(spans);
      SortedMergeCovers(spans, t % WEEK);
      JoinedCovers(Merged(Sort(Before, spans)), t);
    }
  }

  lemma JoinedWellFormed(m: seq<Span>, i: int)
    requires AllValid(m) && Separated(m) && 0 <= i < |Joined(m)|
    ensures WellFormed(Joined(m)[i])
  {
  }

  lemma JoinedShaped(m: seq<Span>)
    requires m != [] && AllValid(m) && Separated(m)
    ensures Shaped(Joined(m))
  {
    forall i | 0 <= i < |Joined(m)|
      ensures WellFormed(Joined(m)[i])
    {
      JoinedWellFormed(m, i);
    }
    JoinedDisjoint(m);
    JoinedMaximal(m);
  }

  lemma OccurrencesShape(s: Schedule)
    requires Fixed(s) && Occurrences(s) != []
    ensures Shaped(Occurrences(s))
  {
    ProjectedValid(s);
    SortedMerge(Projected(s));
    JoinedShaped(Merged(Sort(Before, Projected(s))));
  }

  /** The merged occurrences are the window, cut into maximal disjoint runs. */
  lemma OccurrencesAreUnion(s: Schedule)
    requires Fixed(s)
    ensures IsUnion(s, Occurrences(s))
    ensures Occurrences(s) == [] <==> forall t :: !InWindow(s, t)
  {
    forall t
      ensures InWindow(s, t) <==> DuringSome(Occurrences(s), t)
    {
      OccurrencesCover(s, t);
    }
    if Occurrences(s) != [] {
      OccurrencesShape(s);
      FirstIsOpen(s, Occurrences(s));
    }
  }

  lemma FirstIsOpen(s: Schedule, occs: seq<Occurrence>)
    requires occs != [] && WellFormed(occs[0])
    requires forall t :: InWindow(s, t) <==> DuringSome(occs, t)
    ensures exists t :: InWindow(s, t)
  {
    assert During(occs[0], occs[0].start);
    assert InWindow(s, occs[0].start);
  }

  lemma SortedMerge(spans: seq<Span>)
    requires spans != [] && forall x <- spans :: ValidSpan(x)
    ensures AllValid(Merged(Sort(Before, spans))) && Separated(Merged(Sort(Before, spans)))
    ensures SortedBy(Before, Sort(Before, spans)) && AllValid(Sort(Before, spans))
    ensures SameMembers(Sort(Before, spans), spans)
  {
    BeforeIsOrder();
    SortIsSorted(Before, spans);
    var sorted := Sort(Before, spans);
    forall i | 0 <= i < |sorted|
      ensures ValidSpan(sorted[i])
    {
      assert sorted[i] in spans;
    }
    MergedIsSeparated(sorted);
  }

  lemma SortedMergeCovers(spans: seq<Span>, w: int)
    requires spans != [] && forall x <- spans :: ValidSpan(x)
    ensures Covered(Merged(Sort(Before, spans)), w) <==> Covered(spans, w)
  {
    SortedMerge(spans);
    MergedCovers(Sort(Before, spans), w);
  }

  lemma UnionIfFixed(s: Schedule)
    ensures Fixed(s) ==> IsUnion(s, Occurrences(s))
  {
    if Fixed(s) { OccurrencesAreUnion(s); }
  }

  /** The projection as the code runs it: append the pieces, sort, compact in place,
  join across the week boundary. */
  method MergedOccurrences(s: Schedule) returns (occs: seq<Occurrence>)
    ensures occs == Occurrences(s)
    ensures Fixed(s) ==> IsUnion(s, occs)
  {
    UnionIfFixed(s);
    var spans := Project(s);
    if spans == [] { return []; }
    var sorted := Sort(Before, spans);
    var a := new Span[|sorted|](i requires 0 <= i < |sorted| => sorted[i]);
    assert a[..] == sorted;
    var n := MergeInPlace(a);
    occs := Joined(a[..n]);
  }

  method Project(s: Schedule) returns (spans: seq<Span>)
    ensures spans == Projected(s)
  {
    spans := [];
    for k := 0 to |s|
      invariant spans == Projected(s[..k])
    {
      ProjectedStep(s, k);
      if s[k].startMin < s[k].endMin {
        var pieces := ProjectDays(s[k]);
        spans := spans + pieces;
      }
    }
    assert s[..|s|] == s;
  }

  lemma ProjectedStep(s: Schedule, k: int)
    requires 0 <= k < |s|
    ensures Projected(s[..k + 1]) ==
            Projected(s[..k]) + if s[k].startMin < s[k].endMin then PiecesOfDays(s[k], s[k].days) else []
  {
    assert s[..k + 1][..k] == s[..k];
  }

  method ProjectDays(e: Entry) returns (spans: seq<Span>)
    ensures spans == PiecesOfDays(e, e.days)
  {
    spans := [];
    for j := 0 to |e.days|
      invariant spans == PiecesOfDays(e, e.days[..j])
    {
      assert e.days[..j + 1][..j] == e.days[..j];
      spans := spans + Pieces(e, e.days[j]);
    }
    assert e.days[..|e.days|] == e.days;
  }
}
