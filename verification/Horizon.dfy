/** The windows on a simulated timeline are the schedule's own occurrences, cut only by
the horizon (internal/sim/sim.go, openWindow and closeWindow). */
module Horizon {
  import opened Clock
  import opened Options
  import opened Calendar
  import opened Weekly
  import opened Sim
  import opened Selection
  import opened Relay
  import Decide

  predicate Covers(w: WindowInterval, t: Time) {
    w.start <= t && (w.end.Some? ==> t < w.end.value)
  }

  predicate Shown(ws: seq<WindowInterval>, t: Time) {
    exists w <- ws :: Covers(w, t)
  }

  /** An interval opens where the schedule does, or at the start of the horizon. */
  predicate WellOpened(cfg: Config, w: WindowInterval) {
    && InWindow(cfg.schedule, w.start)
    && w.startClipped == InWindow(cfg.schedule, w.start - 1)
    && (w.startClipped ==> w.start == cfg.start)
  }

  /** It ends where the schedule closes, or where observation stopped. */
  predicate WellClosed(cfg: Config, w: WindowInterval, through: Time) {
    && w.end.Some? && w.start <= w.end.value <= through
    && (if w.endClipped then w.end.value == through else w.start < w.end.value && !InWindow(cfg.schedule, w.end.value))
  }

  predicate Apart(ws: seq<WindowInterval>) {
    forall k :: 0 <= k < |ws| - 1 ==> EndsBefore(ws[k], ws[k + 1])
  }

  predicate EndsBefore(a: WindowInterval, b: WindowInterval) {
    a.end.Some? && a.end.value < b.start
  }

  /** The intervals recorded up to `last`: all closed but one still open. */
  predicate Recording(cfg: Config, s: RunState, last: Time) {
    && Apart(s.windows)
    && (forall w <- s.windows :: WellOpened(cfg, w) && w.start <= last && (w.end.Some? ==> !w.endClipped && WellClosed(cfg, w, last)))
    && s.winOpen == InWindow(cfg.schedule, last)
    && (s.winOpen ==> s.windows != [] && s.windows[|s.windows| - 1].end.None?)
    && (!s.winOpen && s.windows != [] ==> s.windows[|s.windows| - 1].end.Some?)
  }

  /** Up to `last`, the intervals show exactly when the window was open. */
  ghost predicate Faithful(cfg: Config, ws: seq<WindowInterval>, last: Time) {
    forall t :: cfg.start <= t <= last ==> (InWindow(cfg.schedule, t) <==> Shown(ws, t))
  }

  /** Between two processed instants the window does not turn. */
  lemma NoTurnBetween(s: Schedule, last: Time, t: Time)
    requires Fixed(s) && FloorMinute(t) == FloorMinute(last)
    ensures InWindow(s, t) == InWindow(s, last)
  {
    var top := if t < last then last else t;
    FixedAligned(s, FloorMinute(last), top + 1);
    SameMinuteAgree(s, FloorMinute(last), top + 1, t, last);
  }

  lemma SameFloorWithin(last: Time, t: Time)
    requires last <= t < FloorMinute(last) + MINUTE
    ensures FloorMinute(t) == FloorMinute(last)
  {
  }

  /** All closed intervals end by `last`. */
  lemma NoneBeyond(cfg: Config, s: RunState, last: Time, t: Time)
    requires Recording(cfg, s, last) && last < t
    ensures Shown(s.windows, t) <==> s.winOpen
  {
    hide InWindow, WellOpened;
    if s.winOpen {
      assert s.windows[|s.windows| - 1] in s.windows;
      assert Covers(s.windows[|s.windows| - 1], t);
    } else {
      forall w <- s.windows
        ensures !Covers(w, t)
      {
        AllClosed(cfg, s, last, w);
      }
    }
  }

  lemma AllClosed(cfg: Config, s: RunState, last: Time, w: WindowInterval)
    requires Recording(cfg, s, last) && w in s.windows && (!s.winOpen || w != s.windows[|s.windows| - 1])
    ensures w.end.Some? && w.end.value <= last
  {
    hide InWindow, WellOpened;
    var k :| 0 <= k < |s.windows| && s.windows[k] == w;
    if k < |s.windows| - 1 { assert EndsBefore(s.windows[k], s.windows[k + 1]); }
  }

  lemma ShownAppended(ws: seq<WindowInterval>, w: WindowInterval, t: Time)
    ensures Shown(ws + [w], t) <==> Shown(ws, t) || Covers(w, t)
  {
    if Shown(ws, t) {
      var v :| v in ws && Covers(v, t);
      assert v in ws + [w];
    }
    if Covers(w, t) { assert w in ws + [w]; }
  }

  /** Up to the next instant without a turn, the record stays faithful. */
  lemma FaithfulUntil(cfg: Config, s: RunState, last: Time, t: Time)
    requires Fixed(cfg.schedule) && Recording(cfg, s, last) && Faithful(cfg, s.windows, last)
    requires last < t <= FloorMinute(last) + MINUTE
    ensures Faithful(cfg, s.windows, t - 1)
  {
    forall y | cfg.start <= y <= t - 1
      ensures InWindow(cfg.schedule, y) <==> Shown(s.windows, y)
    {
      hide InWindow, Fixed, FloorMinute, Recording, Shown;
      if last < y {
        SameFloorWithin(last, y);
        NoTurnBetween(cfg.schedule, last, y);
        NoneBeyond(cfg, s, last, y);
        RecordedOpen(cfg, s, last);
      }
    }
  }

  lemma RecordedOpen(cfg: Config, s: RunState, last: Time)
    requires Recording(cfg, s, last)
    ensures s.winOpen == InWindow(cfg.schedule, last)
  {
  }

  /** What a turn of the window records. */
  lemma TurnedRecording(cfg: Config, s: RunState, last: Time, t: Time)
    requires Fixed(cfg.schedule) && Indexed(s) && Recording(cfg, s, last) && Faithful(cfg, s.windows, last)
    requires last < t <= FloorMinute(last) + MINUTE && cfg.start <= last
    ensures var w := WindowTurned(cfg, s, InWindow(cfg.schedule, last), t);
            Recording(cfg, w, t) && Faithful(cfg, w.windows, t)
  {
    hide InWindow, Fixed, FloorMinute, Recording, Faithful, Shown, WindowOpenedAt, WindowClosedAt, Indexed;
    FaithfulUntil(cfg, s, last, t);
    JustBefore(cfg, last, t);
    NoneBeyond(cfg, s, last, t);
    RecordedOpen(cfg, s, last);
    var w := WindowTurned(cfg, s, InWindow(cfg.schedule, last), t);
    if InWindow(cfg.schedule, t) == InWindow(cfg.schedule, last) {
      RecordingLater(cfg, s, last, t);
      FaithfulNow(cfg, s.windows, t);
    } else if InWindow(cfg.schedule, t) {
      OpenedRecording(cfg, s, last, t);
      TurnIgnoresEvents(cfg, s, t, WindowOpened(t));
      SameWindows(cfg, WindowOpenedAt(cfg, s, t), w, t);
    } else {
      ClosedRecording(cfg, s, last, t);
      TurnIgnoresEvents(cfg, s, t, WindowClosed(t));
      SameWindows(cfg, WindowClosedAt(s, t, false), w, t);
    }
  }

  lemma TurnIgnoresEvents(cfg: Config, s: RunState, t: Time, e: Event)
    requires s.winOpen ==> s.windows != []
    ensures WindowOpenedAt(cfg, Emitted(s, e), t).windows == WindowOpenedAt(cfg, s, t).windows
    ensures WindowOpenedAt(cfg, Emitted(s, e), t).winOpen == WindowOpenedAt(cfg, s, t).winOpen
    ensures WindowClosedAt(Emitted(s, e), t, false).windows == WindowClosedAt(s, t, false).windows
    ensures WindowClosedAt(Emitted(s, e), t, false).winOpen == WindowClosedAt(s, t, false).winOpen
  {
  }

  lemma SameWindows(cfg: Config, a: RunState, b: RunState, t: Time)
    requires Recording(cfg, a, t) && b.windows == a.windows && b.winOpen == a.winOpen
    ensures Recording(cfg, b, t)
  {
  }

  lemma JustBefore(cfg: Config, last: Time, t: Time)
    requires Fixed(cfg.schedule) && last < t <= FloorMinute(last) + MINUTE
    ensures InWindow(cfg.schedule, t - 1) == InWindow(cfg.schedule, last)
  {
    hide InWindow, Fixed;
    SameFloorWithin(last, t - 1);
    NoTurnBetween(cfg.schedule, last, t - 1);
  }

  lemma FaithfulNow(cfg: Config, ws: seq<WindowInterval>, t: Time)
    requires Faithful(cfg, ws, t - 1) && (InWindow(cfg.schedule, t) <==> Shown(ws, t))
    ensures Faithful(cfg, ws, t)
  {
    hide InWindow, Shown;
  }

  lemma RecordingLater(cfg: Config, s: RunState, last: Time, t: Time)
    requires Recording(cfg, s, last) && last <= t && InWindow(cfg.schedule, t) == InWindow(cfg.schedule, last)
    ensures Recording(cfg, s, t)
  {
    hide InWindow, WellOpened, Apart;
  }

  lemma OpenedRecording(cfg: Config, s: RunState, last: Time, t: Time)
    requires Recording(cfg, s, last) && Faithful(cfg, s.windows, t - 1) && last < t
    requires !InWindow(cfg.schedule, last) && !InWindow(cfg.schedule, t - 1) && InWindow(cfg.schedule, t)
    ensures Recording(cfg, WindowOpenedAt(cfg, s, t), t) && Faithful(cfg, WindowOpenedAt(cfg, s, t).windows, t)
  {
    hide InWindow;
    var u := WindowOpenedAt(cfg, s, t);
    var w := u.windows[|s.windows|];
    assert u.windows == s.windows + [w];
    if s.windows != [] { AllClosed(cfg, s, last, s.windows[|s.windows| - 1]); }
    forall y | cfg.start <= y <= t
      ensures InWindow(cfg.schedule, y) <==> Shown(u.windows, y)
    {
      ShownAppended(s.windows, w, y);
      if y == t { assert Covers(w, y); }
    }
    OpenedApart(cfg, s, last, t);
  }

  lemma OpenedApart(cfg: Config, s: RunState, last: Time, t: Time)
    requires Recording(cfg, s, last) && !InWindow(cfg.schedule, last) && last < t
    ensures Apart(WindowOpenedAt(cfg, s, t).windows)
  {
    hide InWindow, WellOpened;
    var u := WindowOpenedAt(cfg, s, t);
    forall k | 0 <= k < |u.windows| - 1
      ensures EndsBefore(u.windows[k], u.windows[k + 1])
    {
      if k < |s.windows| - 1 {
        assert EndsBefore(s.windows[k], s.windows[k + 1]);
      } else {
        AllClosed(cfg, s, last, s.windows[k]);
      }
    }
  }

  /** Closing the open interval at t cuts it from t on. */
  lemma ShownClosed(ws: seq<WindowInterval>, t: Time, clipped: bool, y: Time)
    requires ws != [] && ws[|ws| - 1].end.None?
    ensures var qs := ws[|ws| - 1 := ws[|ws| - 1].(end := Some(t), endClipped := clipped)];
            Shown(qs, y) <==> Shown(ws[..|ws| - 1], y) || (ws[|ws| - 1].start <= y < t)
    ensures Shown(ws, y) <==> Shown(ws[..|ws| - 1], y) || ws[|ws| - 1].start <= y
  {
    var n := |ws| - 1;
    var w := ws[n].(end := Some(t), endClipped := clipped);
    ShownAppended(ws[..n], w, y);
    ShownAppended(ws[..n], ws[n], y);
    assert ws[n := w] == ws[..n] + [w] && ws == ws[..n] + [ws[n]];
  }

  lemma FrontClosed(cfg: Config, s: RunState, last: Time, y: Time)
    requires Recording(cfg, s, last) && s.winOpen
    ensures s.windows[|s.windows| - 1] in s.windows
    ensures Shown(s.windows[..|s.windows| - 1], y) ==> y < last
  {
    hide InWindow, WellOpened;
    var front := s.windows[..|s.windows| - 1];
    forall w <- front
      ensures Covers(w, y) ==> y < last
    {
      var k :| 0 <= k < |front| && front[k] == w;
      assert s.windows[k] in s.windows && EndsBefore(s.windows[k], s.windows[k + 1]);
    }
  }

  lemma ClosedRecording(cfg: Config, s: RunState, last: Time, t: Time)
    requires Recording(cfg, s, last) && Faithful(cfg, s.windows, t - 1) && last < t
    requires InWindow(cfg.schedule, last) && !InWindow(cfg.schedule, t)
    ensures s.winOpen && s.windows != []
    ensures Recording(cfg, WindowClosedAt(s, t, false), t) && Faithful(cfg, WindowClosedAt(s, t, false).windows, t)
  {
    hide InWindow;
    var u, n := WindowClosedAt(s, t, false), |s.windows| - 1;
    forall y | cfg.start <= y <= t
      ensures InWindow(cfg.schedule, y) <==> Shown(u.windows, y)
    {
      ShownClosed(s.windows, t, false, y);
      FrontClosed(cfg, s, last, y);
    }
    FrontClosed(cfg, s, last, t);
    ClosedApart(s.windows, u.windows[n]);
    forall w <- u.windows
      ensures WellOpened(cfg, w) && w.start <= t && (w.end.Some? ==> !w.endClipped && WellClosed(cfg, w, t))
    {
      if w != u.windows[n] { assert w in s.windows; }
    }
  }

  lemma ClosedApart(ws: seq<WindowInterval>, w: WindowInterval)
    requires ws != [] && Apart(ws) && w.start == ws[|ws| - 1].start
    ensures Apart(ws[|ws| - 1 := w])
  {
    var qs := ws[|ws| - 1 := w];
    forall k | 0 <= k < |qs| - 1
      ensures EndsBefore(qs[k], qs[k + 1])
    {
      assert EndsBefore(ws[k], ws[k + 1]);
    }
  }

  // ----- whole runs -----

  /** Nothing but a turn touches the windows. */
  lemma OnlyTurnsTouchWindows(cfg: Config, s: RunState, wasOpen: bool, t: Time)
    requires Indexed(s)
    ensures var u, w := Processed(cfg, s, wasOpen, t), WindowTurned(cfg, s, wasOpen, t);
            u.windows == w.windows && u.winOpen == w.winOpen
  {
    var w := WindowTurned(cfg, s, wasOpen, t);
    hide WindowTurned, InWindow, GenerationOf, Candidate, CensusOf;
    AdvancedWindows(cfg, w, t);
    var a := Advanced(cfg, w, t);
    hide Advanced;
    var c := Checked(a, |a.nodes|, t);
    if c.rot.None? { StartedWindows(cfg, c, t, InWindow(cfg.schedule, t)); }
  }

  lemma AdvancedWindows(cfg: Config, s: RunState, t: Time)
    requires Indexed(s)
    ensures Advanced(cfg, s, t).windows == s.windows && Advanced(cfg, s, t).winOpen == s.winOpen
  {
  }

  lemma StartedWindows(cfg: Config, s: RunState, t: Time, open: bool)
    requires Indexed(s) && s.rot.None?
    ensures Started(cfg, s, t, open).windows == s.windows && Started(cfg, s, t, open).winOpen == s.winOpen
  {
    hide GenerationOf, Candidate, CensusOf, Decide.StartGate, Decide.SurgelessFallback;
  }

  ghost predicate Kept(cfg: Config, s: RunState, last: Time) {
    Indexed(s) && Recording(cfg, s, last) && Faithful(cfg, s.windows, last) && cfg.start <= last
  }

  lemma ProcessedKept(cfg: Config, s: RunState, last: Time, t: Time)
    requires Fixed(cfg.schedule) && Kept(cfg, s, last) && last < t <= FloorMinute(last) + MINUTE
    ensures Kept(cfg, Processed(cfg, s, InWindow(cfg.schedule, last), t), t)
  {
    hide InWindow, Fixed, FloorMinute, Recording, Faithful, Processed, WindowTurned;
    TurnedRecording(cfg, s, last, t);
    OnlyTurnsTouchWindows(cfg, s, InWindow(cfg.schedule, last), t);
    SameWindows(cfg, WindowTurned(cfg, s, InWindow(cfg.schedule, last), t), Processed(cfg, s, InWindow(cfg.schedule, last), t), t);
  }

  /** The first instant repeats the opening of the horizon. */
  lemma FirstKept(cfg: Config, s: RunState)
    requires Kept(cfg, s, cfg.start)
    ensures Kept(cfg, Processed(cfg, s, InWindow(cfg.schedule, cfg.start), cfg.start), cfg.start)
  {
    hide Recording, Faithful, InWindow, Processed;
    var now := cfg.start;
    OnlyTurnsTouchWindows(cfg, s, InWindow(cfg.schedule, now), now);
    assert WindowTurned(cfg, s, InWindow(cfg.schedule, now), now) == s;
    SameWindows(cfg, s, Processed(cfg, s, InWindow(cfg.schedule, now), now), now);
  }

  /** `now` is the instant after `last`, or the first one. */
  predicate Due(cfg: Config, last: Time, now: Time, steps: nat) {
    if steps == 0 then last == now == cfg.start else last < now <= FloorMinute(last) + MINUTE
  }

  lemma {:induction false} KeptRun(cfg: Config, s: RunState, now: Time, last: Time, steps: nat)
    requires Fixed(cfg.schedule) && Kept(cfg, s, last) && Due(cfg, last, now, steps) && last <= cfg.end
    ensures var e := RunFrom(cfg, s, InWindow(cfg.schedule, last), now, last, steps);
            && Kept(cfg, e.s, e.last) && e.last <= Through(cfg, e)
            && (!e.exhausted ==> Through(cfg, e) < FloorMinute(e.last) + MINUTE)
    decreases MAX_STEPS - steps
  {
    hide Recording, Faithful, InWindow, Fixed, FloorMinute, Processed, NextInstant, Diagnosed;
    if cfg.end < now {
    } else if steps >= MAX_STEPS {
      SameWindows(cfg, s, Diagnosed(s, StepBudgetExhausted(last)), last);
    } else {
      var t := Processed(cfg, s, InWindow(cfg.schedule, last), now);
      if steps == 0 { FirstKept(cfg, s); } else { ProcessedKept(cfg, s, last, now); }
      ClockAdvances(t, now);
      KeptRun(cfg, t, NextInstant(t, now), now, steps + 1);
    }
  }

  lemma OpenedKept(cfg: Config, diagnostics: seq<Diagnostic>)
    ensures Kept(cfg, Opened(cfg, InitialState(cfg, diagnostics)), cfg.start)
  {
    hide InWindow, Diagnosed;
    var s := Opened(cfg, InitialState(cfg, diagnostics));
    forall y | cfg.start <= y <= cfg.start
      ensures InWindow(cfg.schedule, y) <==> Shown(s.windows, y)
    {
      if s.winOpen { assert Covers(s.windows[0], y) && s.windows[0] in s.windows; }
    }
  }

  /** The sweep closes an interval still open, as clipped. */
  lemma SweptWindows(cfg: Config, s: RunState, last: Time, through: Time)
    requires Fixed(cfg.schedule) && Kept(cfg, s, last) && last <= through
    requires through == last || through < FloorMinute(last) + MINUTE
    ensures var ws := Swept(s, through).windows;
            && Apart(ws)
            && (forall w <- ws :: WellOpened(cfg, w) && WellClosed(cfg, w, through))
            && (forall t :: cfg.start <= t < through ==> (InWindow(cfg.schedule, t) <==> Shown(ws, t)))
  {
    var u := Swept(s, through);
    assert u.windows == WindowClosedAt(s, through, true).windows;
    FaithfulTo(cfg, s, last, through);
    hide InWindow, Fixed, FloorMinute, Swept, Indexed;
    var n := |s.windows| - 1;
    if s.winOpen {
      ClosedApart(s.windows, u.windows[n]);
      FrontClosed(cfg, s, last, last);
      forall w <- u.windows
        ensures WellOpened(cfg, w) && WellClosed(cfg, w, through)
      {
        if w != u.windows[n] {
          assert w in s.windows;
          AllClosedFront(cfg, s, last, w, u.windows[n]);
        }
      }
      forall t | cfg.start <= t < through
        ensures InWindow(cfg.schedule, t) <==> Shown(u.windows, t)
      {
        ShownClosed(s.windows, through, true, t);
      }
    } else {
      forall w <- u.windows
        ensures WellOpened(cfg, w) && WellClosed(cfg, w, through)
      {
        AllClosed(cfg, s, last, w);
      }
    }
  }

  lemma AllClosedFront(cfg: Config, s: RunState, last: Time, w: WindowInterval, v: WindowInterval)
    requires Recording(cfg, s, last) && s.winOpen && w in s.windows
    requires w in s.windows[|s.windows| - 1 := v] && w != v
    ensures w.end.Some?
  {
    hide InWindow, WellOpened;
    var qs := s.windows[|s.windows| - 1 := v];
    var k :| 0 <= k < |qs| && qs[k] == w;
    assert EndsBefore(s.windows[k], s.windows[k + 1]);
  }

  lemma FaithfulTo(cfg: Config, s: RunState, last: Time, through: Time)
    requires Fixed(cfg.schedule) && Kept(cfg, s, last) && last <= through
    requires through == last || through < FloorMinute(last) + MINUTE
    ensures forall t :: cfg.start <= t < through ==> (InWindow(cfg.schedule, t) <==> Shown(s.windows, t))
  {
    hide InWindow, Fixed, Recording, Shown;
    if last < through { FaithfulUntil(cfg, s, last, through); }
  }

  /** The windows of a timeline are sorted and disjoint, their unclipped ends are real
  turns of the schedule, and inside the horizon they show exactly when it is open. */
  lemma WindowsAreTheSchedule(cfg: Config, diagnostics: seq<Diagnostic>)
    requires Fixed(cfg.schedule) && cfg.start <= cfg.end
    ensures var ws, through := Ran(cfg, InitialState(cfg, diagnostics)).windows, SimulatedThrough(cfg, diagnostics);
            && Apart(ws)
            && (forall w <- ws :: WellOpened(cfg, w) && WellClosed(cfg, w, through))
            && (forall t :: cfg.start <= t < through ==> (InWindow(cfg.schedule, t) <==> Shown(ws, t)))
  {
    hide InWindow, Fixed, Recording, Faithful, Shown, WellOpened, WellClosed, Apart, Opened, RunFrom, Swept, FloorMinute,
         InitialNodes, InitialGenerations;
    var s := Opened(cfg, InitialState(cfg, diagnostics));
    OpenedKept(cfg, diagnostics);
    KeptRun(cfg, s, cfg.start, cfg.start, 0);
    var e := RunFrom(cfg, s, InWindow(cfg.schedule, cfg.start), cfg.start, cfg.start, 0);
    SweptWindows(cfg, e.s, e.last, Through(cfg, e));
  }
}
