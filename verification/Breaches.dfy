/** Which generations the simulator reports as having reached their expiry
(internal/sim/loop.go, breachCheck). */
module Breaches {
  import opened Clock
  import opened Options
  import opened Calendar
  import opened Selection
  import opened Sim
  import opened Relay
  import Decide
  import Derivation

  predicate IsBreach(e: Event, slot: nat, gen: nat) {
    e.Breached? && e.slot == slot && e.gen == gen
  }

  predicate HasBreach(events: seq<Event>, slot: nat, gen: nat) {
    exists e <- events :: IsBreach(e, slot, gen)
  }

  /** The rotation did not have the node out by its deadline: it ended after it, or only
  began once it had passed. */
  predicate Late(deadline: Time, r: Rotation) {
    r.done.Some? && (deadline < r.done.value || deadline <= r.start)
  }

  /** The instants deadlines are checked at while a rotation that is now done was still in
  flight: its start, and before its completion every whole minute and the instant its
  surge was ready. */
  predicate CheckedAt(cfg: Config, r: Rotation, t: Time)
    requires r.done.Some?
  {
    t == r.start || (r.start < t < r.done.value && (t % MINUTE == 0 || (!r.surgeless && t == r.start + cfg.env.provisioning)))
  }

  /** The last of them. */
  function LastCheck(cfg: Config, r: Rotation): Time
    requires r.done.Some?
  {
    var ready, minute := r.start + cfg.env.provisioning, FloorMinute(r.done.value - 1);
    var t := if !r.surgeless && r.start < ready < r.done.value then ready else r.start;
    if r.start < r.done.value && t < minute then minute else t
  }

  lemma LastCheckIsLast(cfg: Config, r: Rotation)
    requires r.done.Some?
    ensures CheckedAt(cfg, r, LastCheck(cfg, r))
    ensures forall t :: CheckedAt(cfg, r, t) ==> t <= LastCheck(cfg, r)
  {
    forall t | r.start < t < r.done.value && t % MINUTE == 0
      ensures t <= LastCheck(cfg, r)
    {
      GridOrder(FloorMinute(r.done.value - 1), t);
    }
  }

  /** The rotation is done and this is the generation it retired. */
  predicate Retires(r: Rotation, g: Generation) {
    r.slot == g.slot && r.fromGen == g.gen && r.done.Some?
  }

  // ----- the ledger of breaches -----

  /** Reported for the node in each slot exactly when flagged, and for none to come. */
  predicate Flagged(s: RunState, last: Time) {
    && (forall i: nat :: i < |s.nodes| ==> FlaggedSlot(s, i, last))
    && (forall e <- s.events :: e.Breached? ==> e.slot < |s.nodes| && e.gen <= s.nodes[e.slot].gen)
  }

  predicate FlaggedSlot(s: RunState, i: nat, last: Time)
    requires i < |s.nodes|
  {
    && (HasBreach(s.events, i, s.nodes[i].gen) <==> s.nodes[i].breached)
    && (s.nodes[i].breached ==> s.nodes[i].Deadline() <= last)
  }

  /** The node in rotation has been checked at `last`, one of the instants of its flight. */
  predicate UpToDate(cfg: Config, s: RunState, last: Time)
    requires Indexed(s)
  {
    s.rot.Some? ==>
      var rot := s.rot.value;
      && (s.nodes[rot.slot].Deadline() <= last ==> s.nodes[rot.slot].breached)
      && (last < rot.doneAt || (rot.start == last && rot.doneAt == last))
      && rot.start <= last && (!rot.surgeless ==> rot.readyAt == rot.start + cfg.env.provisioning)
      && (last == rot.start || last % MINUTE == 0 || (!rot.surgeless && last == rot.readyAt))
  }

  /** What each generation and rotation on record knows of its slot. */
  predicate OnRecord(cfg: Config, s: RunState) {
    && (forall j: nat :: j < |s.generations| ==> GenerationOnRecord(cfg, s, j))
    && (forall k: nat :: k < |s.rotations| ==> RotationOnRecord(s, k))
  }

  predicate GenerationOnRecord(cfg: Config, s: RunState, j: nat)
    requires j < |s.generations|
  {
    var g := s.generations[j];
    && g.slot < |s.nodes|
    && (if g.gen > s.nodes[g.slot].gen then
          && s.rot.Some? && s.rot.value.slot == g.slot && s.rot.value.genIdx == Some(j) && g.gen == s.nodes[g.slot].gen + 1
          && g.deadline == s.rot.value.start + cfg.template.expireAfter && g.provisional
        else
          !g.provisional && (g.gen == s.nodes[g.slot].gen ==> g.deadline == s.nodes[g.slot].Deadline()))
  }

  predicate RotationOnRecord(s: RunState, k: nat)
    requires k < |s.rotations|
  {
    var r := s.rotations[k];
    r.slot < |s.nodes| && if r.done.Some? then r.fromGen < s.nodes[r.slot].gen else r.fromGen == s.nodes[r.slot].gen
  }

  /** A generation retired by a rotation was reported exactly when the last check made
  before the completion found it past its deadline. */
  predicate Judged(cfg: Config, s: RunState) {
    forall r <- s.rotations, g <- s.generations :: Retires(r, g) ==> JudgedPair(cfg, s, r, g)
  }

  predicate JudgedPair(cfg: Config, s: RunState, r: Rotation, g: Generation)
    requires r.done.Some?
  {
    HasBreach(s.events, g.slot, g.gen) <==> g.deadline <= LastCheck(cfg, r)
  }

  lemma BreachAppended(events: seq<Event>, e: Event, slot: nat, gen: nat)
    ensures HasBreach(events + [e], slot, gen) <==> HasBreach(events, slot, gen) || IsBreach(e, slot, gen)
  {
    var longer := events + [e];
    if HasBreach(events, slot, gen) {
      var d :| d in events && IsBreach(d, slot, gen);
      assert d in longer;
    }
    if IsBreach(e, slot, gen) { assert e in longer; }
  }

  /** Events of other kinds report no breach. */
  lemma {:induction false} SameBreaches(a: seq<Event>, b: seq<Event>, slot: nat, gen: nat)
    requires a <= b && forall i :: |a| <= i < |b| ==> !b[i].Breached?
    ensures HasBreach(b, slot, gen) <==> HasBreach(a, slot, gen)
    decreases |b|
  {
    if |a| < |b| {
      SameBreaches(a, b[..|b| - 1], slot, gen);
      BreachAppended(b[..|b| - 1], b[|b| - 1], slot, gen);
      assert b == b[..|b| - 1] + [b[|b| - 1]];
    } else {
      assert a == b;
    }
  }

  /** The events of `b` extend those of `a` by none that is a breach. */
  predicate Quietly(a: RunState, b: RunState) {
    a.events <= b.events && forall i :: |a.events| <= i < |b.events| ==> !b.events[i].Breached?
  }

  predicate SameSlots(a: RunState, b: RunState) {
    |b.nodes| == |a.nodes| && forall i :: 0 <= i < |a.nodes| ==>
      b.nodes[i].gen == a.nodes[i].gen && b.nodes[i].Deadline() == a.nodes[i].Deadline() && b.nodes[i].breached == a.nodes[i].breached
  }

  lemma FlaggedQuietly(a: RunState, b: RunState, last: Time)
    requires Flagged(a, last) && Quietly(a, b) && SameSlots(a, b)
    ensures Flagged(b, last)
  {
    forall i: nat | i < |b.nodes|
      ensures FlaggedSlot(b, i, last)
    {
      assert FlaggedSlot(a, i, last);
      SameBreaches(a.events, b.events, i, a.nodes[i].gen);
    }
    forall e <- b.events | e.Breached?
      ensures e.slot < |b.nodes| && e.gen <= b.nodes[e.slot].gen
    {
      var k :| 0 <= k < |b.events| && b.events[k] == e;
      assert k < |a.events| && a.events[k] == e;
      assert e in a.events;
    }
  }

  /** The records of `b` are those of `a` in all that a judgement rests on. */
  predicate SameRecords(a: RunState, b: RunState) {
    && |b.rotations| == |a.rotations| && |b.generations| == |a.generations|
    && (forall k :: 0 <= k < |a.rotations| ==> b.rotations[k].(ready := None, toGen := None) == a.rotations[k].(ready := None, toGen := None))
    && (forall j :: 0 <= j < |a.generations| ==> b.generations[j].(readyAt := None) == a.generations[j].(readyAt := None))
  }

  lemma JudgedQuietly(cfg: Config, a: RunState, b: RunState)
    requires Judged(cfg, a) && Quietly(a, b) && SameRecords(a, b)
    ensures Judged(cfg, b)
  {
    forall r <- b.rotations, g <- b.generations | Retires(r, g)
      ensures JudgedPair(cfg, b, r, g)
    {
      var k :| 0 <= k < |b.rotations| && b.rotations[k] == r;
      var j :| 0 <= j < |b.generations| && b.generations[j] == g;
      assert a.rotations[k] in a.rotations && a.generations[j] in a.generations;
      assert JudgedPair(cfg, a, a.rotations[k], a.generations[j]);
      SameBreaches(a.events, b.events, g.slot, g.gen);
    }
  }

  lemma OnRecordQuietly(cfg: Config, a: RunState, b: RunState)
    requires OnRecord(cfg, a) && SameSlots(a, b) && SameRecords(a, b) && b.rot == a.rot
    ensures OnRecord(cfg, b)
  {
    forall j: nat | j < |b.generations|
      ensures GenerationOnRecord(cfg, b, j)
    {
      assert GenerationOnRecord(cfg, a, j);
    }
    forall k: nat | k < |b.rotations|
      ensures RotationOnRecord(b, k)
    {
      assert RotationOnRecord(a, k);
    }
  }

  /** The whole account, kept up to `last`. */
  predicate Accounted(cfg: Config, s: RunState, last: Time) {
    && Indexed(s) && Flagged(s, last) && UpToDate(cfg, s, last) && OnRecord(cfg, s) && Judged(cfg, s)
  }

  lemma AccountedQuietly(cfg: Config, a: RunState, b: RunState, last: Time)
    requires Accounted(cfg, a, last) && Indexed(b) && b.rot == a.rot
    requires Quietly(a, b) && SameSlots(a, b) && SameRecords(a, b)
    ensures Accounted(cfg, b, last)
  {
    hide Flagged, Judged, OnRecord, Quietly, SameRecords;
    FlaggedQuietly(a, b, last);
    JudgedQuietly(cfg, a, b);
    OnRecordQuietly(cfg, a, b);
  }

  lemma TurnedAccounted(cfg: Config, s: RunState, last: Time, wasOpen: bool, t: Time)
    requires Accounted(cfg, s, last)
    ensures Accounted(cfg, WindowTurned(cfg, s, wasOpen, t), last)
  {
    var w := WindowTurned(cfg, s, wasOpen, t);
    assert Quietly(s, w);
    hide InWindow, WindowTurned, Flagged, Judged, OnRecord;
    AccountedQuietly(cfg, s, w, last);
  }

  lemma ReadiedAccounted(cfg: Config, s: RunState, last: Time, t: Time)
    requires Accounted(cfg, s, last)
    ensures Accounted(cfg, SurgeReadied(s, t), last)
  {
    var u := SurgeReadied(s, t);
    if u != s {
      assert Quietly(s, u) && SameSlots(s, u) && SameRecords(s, u);
      hide SurgeReadied, Flagged, Judged, OnRecord, SameRecords, Quietly;
      AccountedQuietly(cfg, s, u, last);
    }
  }

  // ----- completion -----

  /** `t` is the instant processed after `last`. */
  predicate Next(s: RunState, last: Time, t: Time) {
    if s.rot.Some? then t == NextInstant(s, last) else last < t
  }

  /** A rotation is judged when it completes. */
  lemma VerdictOnCompletion(cfg: Config, s: RunState, last: Time, t: Time, r: Rotation)
    requires Accounted(cfg, s, last) && Next(s, last, t) && s.rot.Some? && s.rot.value.doneAt <= t
    requires var rot := s.rot.value; r.start == rot.start && r.surgeless == rot.surgeless && r.done == Some(rot.doneAt)
    ensures var n := s.nodes[s.rot.value.slot]; n.breached <==> n.Deadline() <= LastCheck(cfg, r)
  {
    var rot := s.rot.value;
    assert FlaggedSlot(s, rot.slot, last);
    hide Flagged, Judged, OnRecord, SimNode.Deadline, CheckedAt;
    LastOfFlight(cfg, s, last, t, r);
  }

  /** The instant before a completion is the last the rotation was checked at. */
  lemma LastOfFlight(cfg: Config, s: RunState, last: Time, t: Time, r: Rotation)
    requires Indexed(s) && UpToDate(cfg, s, last) && Next(s, last, t) && s.rot.Some? && s.rot.value.doneAt <= t
    requires var rot := s.rot.value; r.start == rot.start && r.surgeless == rot.surgeless && r.done == Some(rot.doneAt)
    ensures last == LastCheck(cfg, r)
  {
    hide SimNode.Deadline;
    var rot := s.rot.value;
    if last < rot.doneAt {
      assert CheckedAt(cfg, r, last);
      LastCheckIsLast(cfg, r);
      var c := LastCheck(cfg, r);
      hide LastCheck;
      if last < c && c % MINUTE == 0 { GridOrder(FloorMinute(last), c); }
    }
  }

  lemma GridOrder(a: Time, b: Time)
    requires a % MINUTE == 0 && b % MINUTE == 0
    ensures a < b ==> a + MINUTE <= b
  {
  }

  lemma CompletedFlagged(cfg: Config, s: RunState, last: Time, t: Time)
    requires Indexed(s) && Flagged(s, last) && s.rot.Some? && s.rot.value.doneAt <= t
    ensures Flagged(RotationCompleted(cfg, s, t), last)
  {
    var u, slot := RotationCompleted(cfg, s, t), s.rot.value.slot;
    assert Quietly(s, u);
    forall i: nat | i < |u.nodes|
      ensures FlaggedSlot(u, i, last)
    {
      assert FlaggedSlot(s, i, last);
      SameBreaches(s.events, u.events, i, u.nodes[i].gen);
    }
    forall e <- u.events | e.Breached?
      ensures e.slot < |u.nodes| && e.gen <= u.nodes[e.slot].gen
    {
      assert e in s.events;
    }
  }

  predicate StartedBy(s: RunState, last: Time) {
    s.rot.Some? ==> s.rot.value.start <= last
  }

  lemma CompletedOnRecord(cfg: Config, s: RunState, last: Time, t: Time)
    requires Rotated(cfg, s, t) && StartedBy(s, last) && OnRecord(cfg, s) && s.rot.Some? && s.rot.value.doneAt <= t
    ensures OnRecord(cfg, RotationCompleted(cfg, s, t))
  {
    hide InWindow, Durations, EligibilityBoundary, SimNode.Name, SimNode.DrainCap;
    var u, slot := RotationCompleted(cfg, s, t), s.rot.value.slot;
    forall j: nat | j < |u.generations|
      ensures GenerationOnRecord(cfg, u, j)
    {
      if j < |s.generations| { assert GenerationOnRecord(cfg, s, j); }
    }
    forall k: nat | k < |u.rotations|
      ensures RotationOnRecord(u, k)
    {
      assert RotationOnRecord(s, k);
      if k < |s.rotations| - 1 { assert Before(cfg, s.rotations[k], s.rotations[k + 1]); }
    }
  }

  /** What completion leaves of the other records, and of the generation retired. */
  lemma CompletedRecords(cfg: Config, s: RunState, last: Time, t: Time, k: nat, j: nat)
    requires Rotated(cfg, s, t) && StartedBy(s, last) && OnRecord(cfg, s) && s.rot.Some? && s.rot.value.doneAt <= t
    requires var u := RotationCompleted(cfg, s, t);
             && k < |u.rotations| && j < |u.generations|
             && u.rotations[k].slot == u.generations[j].slot && u.rotations[k].fromGen == u.generations[j].gen
    ensures k < |s.rotations| && j < |s.generations|
    ensures var u, n, rot := RotationCompleted(cfg, s, t), |s.rotations| - 1, s.rot.value;
            var g := u.generations[j];
            && Quietly(s, u) && g.slot == s.generations[j].slot && g.gen == s.generations[j].gen && g.deadline == s.generations[j].deadline
            && (if k < n then u.rotations[k] == s.rotations[k]
                else
                  && u.rotations[k].done == Some(rot.doneAt) && u.rotations[k].start == rot.start <= last
                  && g.slot == rot.slot && g.gen == s.nodes[rot.slot].gen && g.deadline == s.nodes[rot.slot].Deadline())
  {
    var n := |s.rotations| - 1;
    assert s.rotations[n] in s.rotations;
    assert RotationOnRecord(s, k);
    hide InWindow, Serial, Durations, GenerationOf, Replacement;
    if j < |s.generations| { assert GenerationOnRecord(cfg, s, j); }
  }

  lemma CompletedJudged(cfg: Config, s: RunState, last: Time, t: Time)
    requires Rotated(cfg, s, t) && StartedBy(s, last) && Accounted(cfg, s, last) && Next(s, last, t)
    requires s.rot.Some? && s.rot.value.doneAt <= t
    ensures Judged(cfg, RotationCompleted(cfg, s, t))
  {
    var u := RotationCompleted(cfg, s, t);
    forall r <- u.rotations, g <- u.generations | Retires(r, g)
      ensures JudgedPair(cfg, u, r, g)
    {
      hide RotationCompleted, Rotated, Accounted, Next, JudgedPair, StartedBy;
      var k :| 0 <= k < |u.rotations| && u.rotations[k] == r;
      var j :| 0 <= j < |u.generations| && u.generations[j] == g;
      CompletedPair(cfg, s, last, t, k, j);
    }
  }

  lemma CompletedPair(cfg: Config, s: RunState, last: Time, t: Time, k: nat, j: nat)
    requires Rotated(cfg, s, t) && StartedBy(s, last) && Accounted(cfg, s, last) && Next(s, last, t)
    requires s.rot.Some? && s.rot.value.doneAt <= t
    requires var u := RotationCompleted(cfg, s, t);
             && k < |u.rotations| && j < |u.generations|
             && u.rotations[k].slot == u.generations[j].slot && u.rotations[k].fromGen == u.generations[j].gen
             && u.rotations[k].done.Some?
    ensures var u := RotationCompleted(cfg, s, t); JudgedPair(cfg, u, u.rotations[k], u.generations[j])
  {
    var u, rot, n := RotationCompleted(cfg, s, t), s.rot.value, |s.rotations| - 1;
    var r, g := u.rotations[k], u.generations[j];
    CompletedRecords(cfg, s, last, t, k, j);
    hide RotationCompleted, Rotated, OnRecord, UpToDate, LastCheck, Next, Quietly;
    SameBreachesQuietly(s, u, g.slot, g.gen);
    if k < n {
      assert s.rotations[k] in s.rotations && s.generations[j] in s.generations;
      assert JudgedPair(cfg, s, s.rotations[k], s.generations[j]);
    } else {
      VerdictOnCompletion(cfg, s, last, t, r);
      assert FlaggedSlot(s, rot.slot, last);
    }
  }

  lemma SameBreachesQuietly(a: RunState, b: RunState, slot: nat, gen: nat)
    requires Quietly(a, b)
    ensures HasBreach(b.events, slot, gen) <==> HasBreach(a.events, slot, gen)
  {
    SameBreaches(a.events, b.events, slot, gen);
  }

  lemma CompletedAccounted(cfg: Config, s: RunState, last: Time, t: Time)
    requires Rotated(cfg, s, t) && StartedBy(s, last) && Accounted(cfg, s, last) && Next(s, last, t)
    ensures Accounted(cfg, RotationCompleted(cfg, s, t), last)
    ensures RotationCompleted(cfg, s, t).rot.Some? ==> t < RotationCompleted(cfg, s, t).rot.value.doneAt
  {
    if s.rot.Some? && s.rot.value.doneAt <= t {
      var u, slot := RotationCompleted(cfg, s, t), s.rot.value.slot;
      CompletedFlagged(cfg, s, last, t);
      CompletedOnRecord(cfg, s, last, t);
      CompletedJudged(cfg, s, last, t);
    }
  }

  // ----- the check and the start -----

  /** What a check of the first k nodes adds. */
  predicate NewlyDue(s: RunState, k: nat, t: Time, slot: nat, gen: nat)
    requires k <= |s.nodes|
  {
    slot < k && gen == s.nodes[slot].gen && !s.nodes[slot].breached && s.nodes[slot].Deadline() <= t
  }

  lemma {:induction false} CheckedBreaches(s: RunState, k: nat, t: Time, slot: nat, gen: nat)
    requires k <= |s.nodes|
    ensures HasBreach(Checked(s, k, t).events, slot, gen) <==> HasBreach(s.events, slot, gen) || NewlyDue(s, k, t, slot, gen)
  {
    if k > 0 {
      CheckedBreaches(s, k - 1, t, slot, gen);
      CheckedNodes(s, k - 1, t);
      hide SimNode.Deadline, HasBreach, CheckedOne;
      OneBreach(Checked(s, k - 1, t), k - 1, t, slot, gen);
    }
  }

  lemma OneBreach(s: RunState, i: nat, t: Time, slot: nat, gen: nat)
    requires i < |s.nodes|
    ensures HasBreach(CheckedOne(s, i, t).events, slot, gen) <==>
              HasBreach(s.events, slot, gen) || (slot == i && gen == s.nodes[i].gen && !s.nodes[i].breached && s.nodes[i].Deadline() <= t)
  {
    hide HasBreach, SimNode.Deadline, SimNode.Name;
    var n := s.nodes[i];
    BreachAppended(s.events, Breached(n.Deadline(), n.Name(), i, n.gen), slot, gen);
  }

  lemma {:induction false} CheckedCurrent(s: RunState, k: nat, t: Time)
    requires k <= |s.nodes| && forall e <- s.events :: e.Breached? ==> e.slot < |s.nodes| && e.gen <= s.nodes[e.slot].gen
    ensures forall e <- Checked(s, k, t).events :: e.Breached? ==> e.slot < |s.nodes| && e.gen <= s.nodes[e.slot].gen
  {
    if k > 0 {
      CheckedCurrent(s, k - 1, t);
      CheckedNodes(s, k - 1, t);
    }
  }

  lemma CheckedFlagged(s: RunState, last: Time, t: Time)
    requires Flagged(s, last) && last <= t
    ensures Flagged(Checked(s, |s.nodes|, t), t)
  {
    var c := Checked(s, |s.nodes|, t);
    CheckedNodes(s, |s.nodes|, t);
    CheckedCurrent(s, |s.nodes|, t);
    forall i: nat | i < |c.nodes|
      ensures FlaggedSlot(c, i, t)
    {
      assert FlaggedSlot(s, i, last);
      CheckedBreaches(s, |s.nodes|, t, i, c.nodes[i].gen);
    }
  }

  lemma CheckedJudged(cfg: Config, s: RunState, t: Time)
    requires OnRecord(cfg, s) && Judged(cfg, s)
    ensures Judged(cfg, Checked(s, |s.nodes|, t))
  {
    var c := Checked(s, |s.nodes|, t);
    forall r <- c.rotations, g <- c.generations | Retires(r, g)
      ensures JudgedPair(cfg, c, r, g)
    {
      assert JudgedPair(cfg, s, r, g);
      var k :| 0 <= k < |s.rotations| && s.rotations[k] == r;
      assert RotationOnRecord(s, k);
      CheckedBreaches(s, |s.nodes|, t, g.slot, g.gen);
    }
  }

  lemma CheckedOnRecord(cfg: Config, s: RunState, t: Time)
    requires OnRecord(cfg, s)
    ensures OnRecord(cfg, Checked(s, |s.nodes|, t))
  {
    var c := Checked(s, |s.nodes|, t);
    CheckedNodes(s, |s.nodes|, t);
    forall j: nat | j < |c.generations| ensures GenerationOnRecord(cfg, c, j) { assert GenerationOnRecord(cfg, s, j); }
    forall k: nat | k < |c.rotations| ensures RotationOnRecord(c, k) { assert RotationOnRecord(s, k); }
  }

  /** After the check at t, every node past its deadline is flagged. */
  predicate AllFlagged(s: RunState, t: Time) {
    forall n <- s.nodes :: n.Deadline() <= t ==> n.breached
  }

  lemma CheckedAccounted(cfg: Config, s: RunState, last: Time, t: Time)
    requires Accounted(cfg, s, last) && last < t && Next(s, last, t) && (s.rot.Some? ==> t < s.rot.value.doneAt)
    ensures Accounted(cfg, Checked(s, |s.nodes|, t), t) && AllFlagged(Checked(s, |s.nodes|, t), t)
  {
    CheckedFlagged(s, last, t);
    CheckedJudged(cfg, s, t);
    CheckedOnRecord(cfg, s, t);
    CheckedNodes(s, |s.nodes|, t);
    hide Flagged, Judged, OnRecord;
  }

  lemma BegunFlagged(cfg: Config, s: RunState, slot: nat, surgeless: bool, t: Time)
    requires Indexed(s) && slot < |s.nodes| && Flagged(s, t)
    ensures Flagged(RotationBegun(cfg, s, slot, surgeless, t), t)
  {
    hide Flagged, GenerationOf, DrainDiagnosed;
    var u := RotationBegun(cfg, s, slot, surgeless, t);
    assert Quietly(s, u) && SameSlots(s, u);
    FlaggedQuietly(s, u, t);
  }

  lemma BegunOnRecord(cfg: Config, s: RunState, slot: nat, surgeless: bool, t: Time)
    requires Indexed(s) && slot < |s.nodes| && s.rot.None? && OnRecord(cfg, s) && (forall r <- s.rotations :: r.done.Some?)
    ensures OnRecord(cfg, RotationBegun(cfg, s, slot, surgeless, t))
  {
    hide DrainDiagnosed, EligibilityBoundary, SimNode.DrainCap, SimNode.Name;
    var u := RotationBegun(cfg, s, slot, surgeless, t);
    forall j: nat | j < |u.generations|
      ensures GenerationOnRecord(cfg, u, j)
    {
      if j < |s.generations| { assert GenerationOnRecord(cfg, s, j); }
    }
    forall k: nat | k < |u.rotations|
      ensures RotationOnRecord(u, k)
    {
      if k < |s.rotations| { assert RotationOnRecord(s, k) && s.rotations[k] in s.rotations; }
    }
  }

  lemma BegunJudged(cfg: Config, s: RunState, slot: nat, surgeless: bool, t: Time)
    requires Indexed(s) && slot < |s.nodes| && s.rot.None? && OnRecord(cfg, s) && Judged(cfg, s)
    ensures Judged(cfg, RotationBegun(cfg, s, slot, surgeless, t))
  {
    hide DrainDiagnosed, EligibilityBoundary, SimNode.DrainCap, SimNode.Name, Late;
    var u := RotationBegun(cfg, s, slot, surgeless, t);
    assert Quietly(s, u);
    forall r <- u.rotations, g <- u.generations | Retires(r, g)
      ensures JudgedPair(cfg, u, r, g)
    {
      var k :| 0 <= k < |u.rotations| && u.rotations[k] == r;
      var j :| 0 <= j < |u.generations| && u.generations[j] == g;
      assert k < |s.rotations| && RotationOnRecord(s, k);
      assert j < |s.generations|;
      assert s.rotations[k] in s.rotations && s.generations[j] in s.generations;
      assert JudgedPair(cfg, s, r, g);
      SameBreachesQuietly(s, u, g.slot, g.gen);
    }
  }

  lemma BegunUpToDate(cfg: Config, s: RunState, slot: nat, surgeless: bool, t: Time)
    requires Indexed(s) && Durations(cfg, s.nodes) && AllFlagged(s, t) && slot < |s.nodes|
    ensures UpToDate(cfg, RotationBegun(cfg, s, slot, surgeless, t), t)
  {
    hide GenerationOf, DrainDiagnosed;
    assert s.nodes[slot] in s.nodes;
    assert 0 <= DrainFor(cfg, s.nodes[slot]);
  }

  lemma BegunAccounted(cfg: Config, s: RunState, slot: nat, surgeless: bool, t: Time)
    requires Rotated(cfg, s, t) && Accounted(cfg, s, t) && AllFlagged(s, t) && s.rot.None? && slot < |s.nodes|
    ensures Accounted(cfg, RotationBegun(cfg, s, slot, surgeless, t), t)
  {
    AllDone(cfg, s, t);
    hide Flagged, OnRecord, Judged, UpToDate, RotationBegun, InWindow, Serial, AllFlagged, Durations;
    BegunFlagged(cfg, s, slot, surgeless, t);
    BegunOnRecord(cfg, s, slot, surgeless, t);
    BegunJudged(cfg, s, slot, surgeless, t);
    BegunUpToDate(cfg, s, slot, surgeless, t);
  }

  lemma AllDone(cfg: Config, s: RunState, t: Time)
    requires Rotated(cfg, s, t) && s.rot.None?
    ensures forall r <- s.rotations :: r.done.Some?
  {
    forall r <- s.rotations
      ensures r.done.Some?
    {
      var k :| 0 <= k < |s.rotations| && s.rotations[k] == r;
      if k < |s.rotations| - 1 { assert Before(cfg, s.rotations[k], s.rotations[k + 1]); }
    }
  }

  lemma IdleAccounted(cfg: Config, s: RunState, u: RunState, t: Time)
    requires Accounted(cfg, s, t) && u == s.(events := u.events, blocked := u.blocked, census := u.census) && Quietly(s, u)
    ensures Accounted(cfg, u, t) && (AllFlagged(s, t) ==> AllFlagged(u, t))
  {
    hide Flagged, Judged, OnRecord, Quietly;
    AccountedQuietly(cfg, s, u, t);
  }

  lemma FlushedQuietly(s: RunState, t: Time)
    ensures Quietly(s, BlockedFlushed(s, t)) && Quietly(s, CensusFlushed(s, t))
  {
  }

  lemma RecordedQuietly(s: RunState, t: Time, gate: Decide.Gate, c: Census)
    ensures Quietly(s, BlockedRecorded(s, t, gate)) && Quietly(s, CensusRecorded(s, t, c))
  {
    hide BlockedFlushed, CensusFlushed;
    FlushedQuietly(s, t);
  }

  lemma QuietlyThen(a: RunState, b: RunState, c: RunState)
    requires Quietly(a, b) && Quietly(b, c)
    ensures Quietly(a, c)
  {
  }

  lemma IdleIsQuiet(s: RunState, t: Time, gate: Decide.Gate, c: Census)
    ensures Quietly(s, CensusFlushed(BlockedFlushed(s, t), t))
    ensures Quietly(s, BlockedRecorded(CensusFlushed(s, t), t, gate))
    ensures Quietly(s, CensusRecorded(BlockedFlushed(s, t), t, c))
  {
    hide Quietly, BlockedFlushed, CensusFlushed, BlockedRecorded, CensusRecorded;
    var b, f := BlockedFlushed(s, t), CensusFlushed(s, t);
    FlushedQuietly(s, t);
    FlushedQuietly(b, t);
    RecordedQuietly(b, t, gate, c);
    RecordedQuietly(f, t, gate, c);
    QuietlyThen(s, b, CensusFlushed(b, t));
    QuietlyThen(s, f, BlockedRecorded(f, t, gate));
    QuietlyThen(s, b, CensusRecorded(b, t, c));
  }

  lemma StartedAccounted(cfg: Config, s: RunState, t: Time)
    requires Rotated(cfg, s, t) && Accounted(cfg, s, t) && AllFlagged(s, t) && s.rot.None?
    ensures Accounted(cfg, Started(cfg, s, t, InWindow(cfg.schedule, t)), t)
  {
    hide InWindow, Accounted, Quietly, AllFlagged, Candidate, Decide.StartGate, Decide.SurgelessFallback, CensusOf, RotationBegun,
         Serial, Durations, InOrder;
    var open := InWindow(cfg.schedule, t);
    var gates, c := GateInputs(cfg, s, t, open), Candidate(cfg, s, t);
    IdleIsQuiet(s, t, Decide.StartGate(gates), CensusOf(Views(s.nodes), Sim.SelectionInputs(cfg, t)));
    var u := CensusFlushed(BlockedFlushed(s, t), t);
    IdleAccounted(cfg, s, u, t);
    if !Derivation.HasFatal(cfg.res.derived.findings) && Decide.StartGate(gates) == Decide.GateNone && c.Some? {
      SameRotations(cfg, s, u, t);
      BegunAccounted(cfg, u, c.value.slot, Decide.SurgelessFallback(c.value.pick, gates), t);
    } else if Derivation.HasFatal(cfg.res.derived.findings) {
      assert Started(cfg, s, t, open) == s;
    } else {
      IdleAccounted(cfg, s, Started(cfg, s, t, open), t);
    }
  }

  lemma RotatedStartedBy(cfg: Config, s: RunState, last: Time)
    requires Rotated(cfg, s, last)
    ensures StartedBy(s, last) && Indexed(s)
  {
    hide InWindow, Serial, Durations;
    if s.rot.Some? { assert s.rotations[|s.rotations| - 1] in s.rotations; }
  }

  /** The window and the rotation in flight, up to a completion. */
  lemma AdvancedAccounted(cfg: Config, s: RunState, last: Time, wasOpen: bool, t: Time)
    requires Rotated(cfg, s, last) && Accounted(cfg, s, last) && Next(s, last, t)
    ensures var a := Advanced(cfg, WindowTurned(cfg, s, wasOpen, t), t);
            Rotated(cfg, a, t) && Accounted(cfg, a, last) && Next(a, last, t) && (a.rot.Some? ==> t < a.rot.value.doneAt)
  {
    RotatedStartedBy(cfg, s, last);
    var w := WindowTurned(cfg, s, wasOpen, t);
    var m := SurgeReadied(w, t);
    assert m.rot == w.rot == s.rot;
    NextAdvanced(cfg, m, last, t);
    hide Accounted, Rotated, WindowTurned, SurgeReadied, RotationCompleted, InWindow, NextInstant;
    TurnedAccounted(cfg, s, last, wasOpen, t);
    SameRotations(cfg, s, w, last);
    RotatedLater(cfg, w, last, t);
    ReadiedRotated(cfg, w, t);
    ReadiedAccounted(cfg, w, last, t);
    CompletedAccounted(cfg, m, last, t);
    CompletedRotated(cfg, m, t);
  }

  lemma NextAdvanced(cfg: Config, s: RunState, last: Time, t: Time)
    requires Indexed(s) && Next(s, last, t)
    ensures last < t && Next(RotationCompleted(cfg, s, t), last, t)
  {
    hide GenerationOf, Replacement;
    ClockAdvances(s, last);
  }

  /** One processed instant keeps the account. */
  lemma ProcessedAccounted(cfg: Config, s: RunState, last: Time, wasOpen: bool, t: Time)
    requires Rotated(cfg, s, last) && Accounted(cfg, s, last) && Next(s, last, t)
    ensures Accounted(cfg, Processed(cfg, s, wasOpen, t), t)
  {
    RotatedStartedBy(cfg, s, last);
    ClockAdvances(s, last);
    hide Accounted, Rotated, AllFlagged, WindowTurned, Advanced, Checked, Started, InWindow, NextInstant;
    AdvancedAccounted(cfg, s, last, wasOpen, t);
    var a := Advanced(cfg, WindowTurned(cfg, s, wasOpen, t), t);
    CheckedAccounted(cfg, a, last, t);
    CheckedRotated(cfg, a, t);
    var c := Checked(a, |a.nodes|, t);
    if c.rot.None? { StartedAccounted(cfg, c, t); }
  }

  // ----- whole runs -----

  lemma {:induction false} AccountedRun(cfg: Config, s: RunState, wasOpen: bool, now: Time, last: Time, shown: Time, steps: nat)
    requires Rotated(cfg, s, last) && Accounted(cfg, s, last) && Next(s, last, now)
    requires last <= cfg.end && (steps == 0 ==> now <= cfg.end)
    requires steps > 0 ==> shown == last
    ensures var e := RunFrom(cfg, s, wasOpen, now, shown, steps);
            && Rotated(cfg, e.s, e.last) && Accounted(cfg, e.s, e.last)
            && e.last <= Through(cfg, e)
    decreases MAX_STEPS - steps
  {
    hide Accounted, Rotated, Processed, InWindow, NextInstant, Next, Diagnosed, Indexed;
    RotatedStartedBy(cfg, s, last);
    if cfg.end < now {
    } else if steps >= MAX_STEPS {
      NotedAccounted(cfg, s, last, StepBudgetExhausted(last));
    } else {
      var t := Processed(cfg, s, wasOpen, now);
      ProcessedRotatedNow(cfg, s, last, wasOpen, now);
      ProcessedAccounted(cfg, s, last, wasOpen, now);
      InstantsFollow(t, now);
      AccountedRun(cfg, t, InWindow(cfg.schedule, now), NextInstant(t, now), now, now, steps + 1);
    }
  }

  lemma ProcessedRotatedNow(cfg: Config, s: RunState, last: Time, wasOpen: bool, t: Time)
    requires Rotated(cfg, s, last) && Next(s, last, t)
    ensures Rotated(cfg, Processed(cfg, s, wasOpen, t), t)
  {
    hide Rotated, Processed;
    ProcessedRotated(cfg, s, last, wasOpen, t);
  }

  lemma NotedAccounted(cfg: Config, s: RunState, last: Time, d: Diagnostic)
    requires Rotated(cfg, s, last) && Accounted(cfg, s, last)
    ensures Rotated(cfg, Diagnosed(s, d), last) && Accounted(cfg, Diagnosed(s, d), last)
  {
    hide Flagged, Judged, OnRecord, InWindow, Diagnosed, Serial, Durations;
    AccountedQuietly(cfg, s, Diagnosed(s, d), last);
  }

  lemma InstantsFollow(s: RunState, now: Time)
    ensures Next(s, now, NextInstant(s, now))
  {
    ClockAdvances(s, now);
  }

  // ----- the verdict on the whole timeline -----

  /** The generation was not out in time: no rotation of it, or a late one. */
  predicate NotRotatedInTime(rotations: seq<Rotation>, g: Generation) {
    forall r <- rotations :: Retires(r, g) ==> Late(g.deadline, r)
  }

  /** Every number below the count of a slot is taken by one of its records. */
  lemma {:induction false} NumbersTaken(slots: seq<nat>, numbers: seq<nat>, slot: nat, v: nat) returns (k: nat)
    requires Consecutive(slots, numbers) && v < Occurs(slots, slot)
    ensures k < |slots| && slots[k] == slot && numbers[k] == v
    decreases |slots|
  {
    var n := |slots| - 1;
    var front, nums := slots[..n], numbers[..n];
    if slots[n] == slot && numbers[n] == v {
      k := n;
    } else {
      assert Consecutive(front, nums) by {
        forall j | 0 <= j < n
          ensures nums[j] == Occurs(front[..j], front[j])
        {
          assert front[..j] == slots[..j];
        }
      }
      k := NumbersTaken(front, nums, slot, v);
    }
  }

  /** The sweep adds the last deadlines, and nothing else that is a breach. */
  lemma SweptBreaches(cfg: Config, s: RunState, last: Time, through: Time)
    requires Rotated(cfg, s, last) && Accounted(cfg, s, last) && last <= through
    ensures var c, u := Checked(s, |s.nodes|, through), Swept(s, through);
            && u.rotations == c.rotations == s.rotations && u.generations == c.generations == s.generations
            && |c.nodes| == |s.nodes| && (forall i :: 0 <= i < |s.nodes| ==> c.nodes[i].gen == s.nodes[i].gen)
            && Flagged(c, through) && OnRecord(cfg, c) && Judged(cfg, c) && AllFlagged(c, through) && Quietly(c, u)
  {
    CheckedFlagged(s, last, through);
    CheckedJudged(cfg, s, through);
    CheckedOnRecord(cfg, s, through);
    CheckedNodes(s, |s.nodes|, through);
    hide Flagged, Judged, OnRecord, InWindow, Serial, Durations;
  }

  /** A generation no longer in its slot was retired by a rotation on record. */
  lemma PastIsRetired(c: RunState, g: Generation)
    requires forall k: nat :: k < |c.rotations| ==> RotationOnRecord(c, k)
    requires Consecutive(RotationSlots(c.rotations), RotationFroms(c.rotations))
    requires g.slot < |c.nodes| && g.gen < c.nodes[g.slot].gen && RotatedAtLeast(c.rotations, g.slot, c.nodes[g.slot].gen)
    ensures exists r <- c.rotations :: Retires(r, g)
  {
    hide Consecutive, Occurs;
    var k := NumbersTaken(RotationSlots(c.rotations), RotationFroms(c.rotations), g.slot, g.gen);
    assert RotationOnRecord(c, k) && c.rotations[k] in c.rotations && Retires(c.rotations[k], g);
  }

  /** A generation nothing on record has retired is the one in its slot. */
  lemma NeverRetired(cfg: Config, c: RunState, through: Time, j: nat)
    requires Flagged(c, through) && OnRecord(cfg, c) && AllFlagged(c, through)
    requires j < |c.generations| && !c.generations[j].provisional
    requires Consecutive(RotationSlots(c.rotations), RotationFroms(c.rotations))
    requires forall i: nat :: i < |c.nodes| ==> RotatedAtLeast(c.rotations, i, c.nodes[i].gen)
    requires forall r <- c.rotations :: !Retires(r, c.generations[j])
    ensures var g := c.generations[j]; HasBreach(c.events, g.slot, g.gen) <==> g.deadline <= through
  {
    var g := c.generations[j];
    assert GenerationOnRecord(cfg, c, j);
    var n := c.nodes[g.slot];
    assert FlaggedSlot(c, g.slot, through) && RotatedAtLeast(c.rotations, g.slot, n.gen);
    hide InWindow, Consecutive, Occurs, Derivation.HasFatal, Flagged;
    if g.gen < n.gen {
      PastIsRetired(c, g);
      assert false;
    }
    assert n in c.nodes;
  }

  /** What the simulator reports, generation by generation. One that a rotation retired is
  reported exactly when its deadline was not after the last check before the completion;
  one still in its slot, exactly when its deadline was reached. */
  lemma BreachesReported(cfg: Config, diagnostics: seq<Diagnostic>)
    requires Durations(cfg, InitialNodes(cfg.template)) && cfg.start <= cfg.end
    ensures var t, through := Ran(cfg, InitialState(cfg, diagnostics)), SimulatedThrough(cfg, diagnostics);
            && (forall g <- t.generations, r <- t.rotations :: Retires(r, g) ==>
                  (HasBreach(t.events, g.slot, g.gen) <==> g.deadline <= LastCheck(cfg, r)))
            && (forall g <- t.generations :: !g.provisional && (forall r <- t.rotations :: !Retires(r, g)) ==>
                  (HasBreach(t.events, g.slot, g.gen) <==> g.deadline <= through))
  {
    hide RunFrom, Swept, LastCheck, Flagged, OnRecord, Judged, AllFlagged, Quietly, Consecutive, HasBreach, Opened, InitialNodes;
    var c := RunAccounted(cfg, diagnostics);
    var t, through := Ran(cfg, InitialState(cfg, diagnostics)), SimulatedThrough(cfg, diagnostics);
    hide Ran, SimulatedThrough, InitialState;
    forall g <- t.generations, r <- t.rotations | Retires(r, g)
      ensures HasBreach(t.events, g.slot, g.gen) <==> g.deadline <= LastCheck(cfg, r)
    {
      JudgedHere(cfg, c, r, g);
      SameBreachesQuietly(c, t, g.slot, g.gen);
    }
    forall g <- t.generations | !g.provisional && forall r <- t.rotations :: !Retires(r, g)
      ensures HasBreach(t.events, g.slot, g.gen) <==> g.deadline <= through
    {
      var j :| 0 <= j < |t.generations| && t.generations[j] == g;
      NeverRetired(cfg, c, through, j);
      SameBreachesQuietly(c, t, g.slot, g.gen);
    }
  }

  /** The account at the end of the run: that of the final check, `c`. */
  lemma RunAccounted(cfg: Config, diagnostics: seq<Diagnostic>) returns (c: RunState)
    requires Durations(cfg, InitialNodes(cfg.template)) && cfg.start <= cfg.end
    ensures var t, through := Ran(cfg, InitialState(cfg, diagnostics)), SimulatedThrough(cfg, diagnostics);
            && t.rotations == c.rotations && t.generations == c.generations && Quietly(c, t)
            && Flagged(c, through) && OnRecord(cfg, c) && Judged(cfg, c) && AllFlagged(c, through)
            && Consecutive(RotationSlots(c.rotations), RotationFroms(c.rotations))
            && (forall i: nat :: i < |c.nodes| ==> RotatedAtLeast(c.rotations, i, c.nodes[i].gen))
  {
    var s := Opened(cfg, InitialState(cfg, diagnostics));
    OpenedSane(cfg, diagnostics);
    OpenedAccounted(cfg, diagnostics);
    hide Rotated, Observed, Accounted, InWindow, Opened, InitialNodes, InitialGenerations, Balanced, RunFrom, Swept,
         Flagged, OnRecord, Judged, AllFlagged, Quietly, Consecutive, Checked;
    SaneRun(cfg, s, InWindow(cfg.schedule, cfg.start), cfg.start, cfg.start, 0);
    AccountedRun(cfg, s, InWindow(cfg.schedule, cfg.start), cfg.start, cfg.start - MINUTE, cfg.start, 0);
    var e := RunFrom(cfg, s, InWindow(cfg.schedule, cfg.start), cfg.start, cfg.start, 0);
    var through := Through(cfg, e);
    SweptBreaches(cfg, e.s, e.last, through);
    RelayedCounts(e.s);
    c := Checked(e.s, |e.s.nodes|, through);
  }

  lemma JudgedHere(cfg: Config, c: RunState, r: Rotation, g: Generation)
    requires Judged(cfg, c) && r in c.rotations && g in c.generations && Retires(r, g)
    ensures HasBreach(c.events, g.slot, g.gen) <==> g.deadline <= LastCheck(cfg, r)
  {
    assert JudgedPair(cfg, c, r, g);
  }

  /** A check in time means a late rotation, and only a deadline strictly between the last
  check and the completion makes one late unseen; a deadline on a whole minute, on the
  start, or on the instant the surge was ready is never there. */
  lemma LateUnseenExactlyWhen(cfg: Config, r: Rotation, deadline: Time)
    requires r.done.Some? && r.start <= r.done.value
    ensures deadline <= LastCheck(cfg, r) ==> Late(deadline, r)
    ensures Late(deadline, r) && !(deadline <= LastCheck(cfg, r)) <==> LastCheck(cfg, r) < deadline < r.done.value
    ensures LastCheck(cfg, r) < deadline < r.done.value <==>
              && deadline < r.done.value && r.start < deadline
              && (forall t :: deadline <= t < r.done.value ==> t % MINUTE != 0)
              && (r.surgeless || !(deadline <= r.start + cfg.env.provisioning < r.done.value))
  {
    LastCheckIsLast(cfg, r);
    var c := LastCheck(cfg, r);
    if r.start < deadline < r.done.value && c < deadline {
      forall t | deadline <= t < r.done.value
        ensures t % MINUTE != 0
      {
        assert !CheckedAt(cfg, r, t);
      }
      assert !CheckedAt(cfg, r, r.start + cfg.env.provisioning) || r.start + cfg.env.provisioning < deadline;
    }
    hide LastCheck;
    assert r.start <= c by { assert CheckedAt(cfg, r, r.start); }
  }

  /** So a breach on the timeline is always real: the deadline was reached, and no rotation
  had the node out by then. And a real one is missed exactly when its deadline, past the
  start of the rotation, has no whole minute and no surge made ready between it and the
  completion. */
  lemma BreachMissedExactlyWhen(cfg: Config, diagnostics: seq<Diagnostic>)
    requires Durations(cfg, InitialNodes(cfg.template)) && cfg.start <= cfg.end
    ensures var t, through := Ran(cfg, InitialState(cfg, diagnostics)), SimulatedThrough(cfg, diagnostics);
            && (forall g <- t.generations :: !g.provisional && HasBreach(t.events, g.slot, g.gen) ==>
                  g.deadline <= through && NotRotatedInTime(t.rotations, g))
            && (forall g <- t.generations, r <- t.rotations :: Retires(r, g) ==>
                  (Late(g.deadline, r) && !HasBreach(t.events, g.slot, g.gen) <==>
                     && r.start < g.deadline < r.done.value
                     && (forall x :: g.deadline <= x < r.done.value ==> x % MINUTE != 0)
                     && (r.surgeless || !(g.deadline <= r.start + cfg.env.provisioning < r.done.value))))
  {
    BreachesReported(cfg, diagnostics);
    TimelineStructure(cfg, diagnostics);
    hide Ran, InitialState, HasBreach, InWindow, LastCheck, Late, Observed, Serial, Durations;
    var t, through := Ran(cfg, InitialState(cfg, diagnostics)), SimulatedThrough(cfg, diagnostics);
    hide SimulatedThrough;
    forall g <- t.generations, r <- t.rotations | Retires(r, g)
      ensures HasBreach(t.events, g.slot, g.gen) ==> g.deadline <= through && Late(g.deadline, r)
      ensures Late(g.deadline, r) && !HasBreach(t.events, g.slot, g.gen) <==>
                && r.start < g.deadline < r.done.value
                && (forall x :: g.deadline <= x < r.done.value ==> x % MINUTE != 0)
                && (r.surgeless || !(g.deadline <= r.start + cfg.env.provisioning < r.done.value))
    {
      assert InOrder(cfg, r, through);
      LateUnseenExactlyWhen(cfg, r, g.deadline);
      LastCheckInTime(cfg, r);
    }
  }

  lemma LastCheckInTime(cfg: Config, r: Rotation)
    requires r.done.Some? && r.start <= r.done.value
    ensures LastCheck(cfg, r) <= r.done.value
  {
    LastCheckIsLast(cfg, r);
    assert CheckedAt(cfg, r, LastCheck(cfg, r));
  }

  lemma RelayedCounts(s: RunState)
    requires Relayed(s)
    ensures Consecutive(RotationSlots(s.rotations), RotationFroms(s.rotations))
    ensures forall i: nat :: i < |s.nodes| ==> RotatedAtLeast(s.rotations, i, s.nodes[i].gen)
  {
    var l := LedgerOf(s);
    hide Consecutive, Occurs;
    forall i: nat | i < |s.nodes|
      ensures RotatedAtLeast(s.rotations, i, s.nodes[i].gen)
    {
      assert BalancedSlot(l, i);
    }
  }

  predicate RotatedAtLeast(rotations: seq<Rotation>, slot: nat, gen: nat) {
    gen <= Occurs(RotationSlots(rotations), slot)
  }

  lemma OpenedAccounted(cfg: Config, diagnostics: seq<Diagnostic>)
    requires Durations(cfg, InitialNodes(cfg.template))
    ensures var s := Opened(cfg, InitialState(cfg, diagnostics));
            && Rotated(cfg, s, cfg.start - MINUTE) && Accounted(cfg, s, cfg.start - MINUTE)
            && Next(s, cfg.start - MINUTE, cfg.start)
  {
    hide InWindow, Diagnosed, Durations;
    var s, last := Opened(cfg, InitialState(cfg, diagnostics)), cfg.start - MINUTE;
    forall i: nat | i < |s.nodes|
      ensures FlaggedSlot(s, i, last)
    {
      assert forall e <- s.events :: !e.Breached?;
    }
    forall j: nat | j < |s.generations|
      ensures GenerationOnRecord(cfg, s, j)
    {
    }
  }
}
