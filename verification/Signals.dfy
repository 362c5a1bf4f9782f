/** The life of a claim and the signals the controller emits, over whole runs in either
environment. */
module Signals {
  import opened Options
  import opened Notes
  import opened Selection
  import opened Protocol
  import opened Invariants
  import opened Runs
  import Decide

  // ----- the life of a claim -----

  /** The annotations of a claim at an instant; None before the claim exists. */
  function NotesAt(start: State, run: Run, k: nat, c: string): Option<ClaimNotes>
    requires k <= |run|
  {
    var s := Before(start, run, k);
    if c in s.cells && s.cells[c].log != [] then Some(NotesOf(s, c)) else None
  }

  predicate Writes(run: Run, k: nat, c: string)
    requires k < |run|
  {
    run[k].event.ClaimWrite? && run[k].event.name == c
  }

  /** The phases each write is made from. */
  predicate MadeFrom(a: ClaimAct, p: Phase) {
    match a
    case AssertPending(_) => p in {Fresh, Pending}
    case NoteSurgeClaim(_) => p == Pending
    case Drain(surgeless) => if surgeless then p != Phase.Expired else p == Pending
    case Fail(_) => p == Pending
    case Expire(failed) => if failed then p == Failed else p in {Fresh, Pending}
    case Reenter(_) => p == Failed
  }

  /** A claim's annotations are the controller's alone. */
  lemma ClaimMoves(current: bool, start: State, run: Run, k: nat, c: string)
    requires ValidRun(current, start, run) && k < |run|
    ensures if Writes(run, k, c) then
              && NotesAt(start, run, k, c).Some?
              && MadeFrom(run[k].event.claimAct, NotesAt(start, run, k, c).value.phase)
              && NotesAt(start, run, k + 1, c) == Some(ApplyClaim(run[k].event.claimAct, NotesAt(start, run, k, c).value))
            else if NotesAt(start, run, k, c).Some? then
              NotesAt(start, run, k + 1, c) == NotesAt(start, run, k, c)
            else
              NotesAt(start, run, k + 1, c).Some? ==> NotesAt(start, run, k + 1, c) == Some(NO_CLAIM_NOTES)
  {
    StepOf(current, start, run, k);
    ClaimStep(current, Before(start, run, k), run[k].event, run[k].state, c);
  }

  lemma ClaimStep(current: bool, s: State, e: Event, t: State, c: string)
    requires Ok(s) && Ok(t) && Next(current, s, e, t)
    ensures e.ClaimWrite? && e.name == c ==>
              Live(s, c) && c in t.cells && MadeFrom(e.claimAct, NotesOf(s, c).phase) && NotesOf(t, c) == ApplyClaim(e.claimAct, NotesOf(s, c))
    ensures !(e.ClaimWrite? && e.name == c) && c in s.cells ==> c in t.cells && NotesOf(t, c) == NotesOf(s, c)
    ensures c !in s.cells && c in t.cells ==> NotesOf(t, c) == NO_CLAIM_NOTES
  {
    hide PoolActAllowed, Clean, NamesSteady, NodesSteady, PodsSteady, NodeVersions, RunningOn;
    if e.Others? { OthersAreSteady(s, t); }
    assert c in s.cells ==> CellOk(s.cells[c], c, s.now, s.usedNodes);
    assert c in t.cells ==> CellOk(t.cells[c], c, t.now, t.usedNodes);
  }

  /** fresh to pending, draining or expired; pending to draining, failed or expired;
  failed to pending, draining or expired; nothing from draining or expired. */
  predicate Lifecycle(p: Phase, q: Phase) {
    match p
    case Fresh => q in {Pending, Draining, Phase.Expired}
    case Pending => q in {Draining, Failed, Phase.Expired}
    case Failed => q in {Pending, Draining, Phase.Expired}
    case Draining => false
    case Expired => false
  }

  lemma ClaimLifecycle(current: bool, start: State, run: Run, k: nat, c: string)
    requires ValidRun(current, start, run) && k < |run| && NotesAt(start, run, k, c).Some?
    ensures NotesAt(start, run, k + 1, c).Some?
    ensures var p, q := NotesAt(start, run, k, c).value.phase, NotesAt(start, run, k + 1, c).value.phase;
            p == q || (Writes(run, k, c) && Lifecycle(p, q))
  {
    ClaimMoves(current, start, run, k, c);
  }

  /** Draining lasts as long as the claim does, and expired is absorbing, so each is
  entered at most once. */
  lemma {:induction false} TerminalPhases(current: bool, start: State, run: Run, i: nat, k: nat, c: string)
    requires ValidRun(current, start, run) && i <= k <= |run|
    requires NotesAt(start, run, i, c).Some? && NotesAt(start, run, i, c).value.phase in {Draining, Phase.Expired}
    ensures NotesAt(start, run, k, c).Some?
    ensures NotesAt(start, run, k, c).value.phase == NotesAt(start, run, i, c).value.phase
    decreases k
  {
    if i < k {
      TerminalPhases(current, start, run, i, k - 1, c);
      ClaimLifecycle(current, start, run, k - 1, c);
    }
  }

  predicate Fails(run: Run, k: nat, c: string)
    requires k < |run|
  {
    Writes(run, k, c) && run[k].event.claimAct.Fail?
  }

  predicate Reenters(run: Run, k: nat, c: string)
    requires k < |run|
  {
    Writes(run, k, c) && run[k].event.claimAct.Reenter?
  }

  /** The start instant of an attempt never moves: two different ones have a recorded
  failure between them. */
  lemma StartedAtIsFixed(current: bool, start: State, run: Run, i: nat, k: nat, c: string)
    requires ValidRun(current, start, run) && i <= k <= |run|
    requires NotesAt(start, run, i, c).Some? && NotesAt(start, run, i, c).value.startedAt.Some?
    requires NotesAt(start, run, k, c).Some? && NotesAt(start, run, k, c).value.startedAt.Some?
    requires NotesAt(start, run, i, c).value.startedAt != NotesAt(start, run, k, c).value.startedAt
    ensures exists j :: i <= j < k && Fails(run, j, c)
  {
    if forall j :: i <= j < k ==> !Fails(run, j, c) {
      StartedAtKept(current, start, run, i, k, c);
    }
  }

  lemma {:induction false} StartedAtKept(current: bool, start: State, run: Run, i: nat, k: nat, c: string)
    requires ValidRun(current, start, run) && i <= k <= |run|
    requires NotesAt(start, run, i, c).Some? && NotesAt(start, run, i, c).value.startedAt.Some?
    requires forall j :: i <= j < k ==> !Fails(run, j, c)
    ensures NotesAt(start, run, k, c).Some?
    ensures var n := NotesAt(start, run, k, c).value;
            n.startedAt == NotesAt(start, run, i, c).value.startedAt || (n.startedAt.None? && n.phase == Phase.Expired)
    decreases k
  {
    if i < k {
      StartedAtKept(current, start, run, i, k - 1, c);
      ClaimMoves(current, start, run, k - 1, c);
      assert !Fails(run, k - 1, c);
    }
  }

  /** Two failures of a claim have a re-entry between them. */
  lemma FailuresAlternateWithReentries(current: bool, start: State, run: Run, i: nat, k: nat, c: string)
    requires ValidRun(current, start, run) && i < k < |run| && Fails(run, i, c) && Fails(run, k, c)
    ensures exists j :: i < j < k && Reenters(run, j, c)
  {
    ClaimMoves(current, start, run, i, c);
    ClaimMoves(current, start, run, k, c);
    if forall j :: i < j < k ==> !Reenters(run, j, c) {
      NoWayBackToPending(current, start, run, i + 1, k, c);
    }
  }

  lemma {:induction false} NoWayBackToPending(current: bool, start: State, run: Run, i: nat, k: nat, c: string)
    requires ValidRun(current, start, run) && i <= k <= |run|
    requires NotesAt(start, run, i, c).Some? && NotesAt(start, run, i, c).value.phase !in {Fresh, Pending}
    requires forall j :: i <= j < k ==> !Reenters(run, j, c)
    ensures NotesAt(start, run, k, c).Some? && NotesAt(start, run, k, c).value.phase !in {Fresh, Pending}
    decreases k
  {
    if i < k {
      NoWayBackToPending(current, start, run, i, k - 1, c);
      ClaimMoves(current, start, run, k - 1, c);
      assert !Reenters(run, k - 1, c);
    }
  }

  function FailCount(run: Run, k: nat, c: string): nat
    requires k <= |run|
  {
    if k == 0 then 0 else FailCount(run, k - 1, c) + if Fails(run, k - 1, c) then 1 else 0
  }

  /** The retry count is the number of failures recorded. */
  lemma {:induction false} RetryCountsFailures(current: bool, start: State, run: Run, k: nat, c: string)
    requires ValidRun(current, start, run) && k <= |run| && NotesAt(start, run, k, c).Some?
    ensures var before := NotesAt(start, run, 0, c);
            NotesAt(start, run, k, c).value.retry == (if before.Some? then before.value.retry else 0) + FailCount(run, k, c)
  {
    if k > 0 {
      ClaimMoves(current, start, run, k - 1, c);
      if NotesAt(start, run, k - 1, c).Some? {
        RetryCountsFailures(current, start, run, k - 1, c);
      } else {
        UnbornNeverFails(current, start, run, k - 1, c);
        BornOnce(current, start, run, 0, k - 1, c);
      }
    }
  }

  lemma {:induction false} BornOnce(current: bool, start: State, run: Run, i: nat, k: nat, c: string)
    requires ValidRun(current, start, run) && i <= k <= |run| && NotesAt(start, run, k, c).None?
    ensures NotesAt(start, run, i, c).None?
    decreases k - i
  {
    if i < k {
      BornOnce(current, start, run, i + 1, k, c);
      ClaimMoves(current, start, run, i, c);
    }
  }

  lemma {:induction false} UnbornNeverFails(current: bool, start: State, run: Run, k: nat, c: string)
    requires ValidRun(current, start, run) && k <= |run| && NotesAt(start, run, k, c).None?
    ensures FailCount(run, k, c) == 0
  {
    if k > 0 {
      ClaimMoves(current, start, run, k - 1, c);
      UnbornNeverFails(current, start, run, k - 1, c);
    }
  }

  /** A claim is written off as expired only once it is really being deleted. */
  lemma ExpiredWasDeleting(current: bool, start: State, run: Run, k: nat, c: string)
    requires ValidRun(current, start, run) && k < |run|
    requires Writes(run, k, c) && run[k].event.claimAct.Expire?
    ensures var s := Before(start, run, k); Ok(s) && Live(s, c) && Obj(s, c).view.deleting
  {
    StepOf(current, start, run, k);
    var s := Before(start, run, k);
    var cell := s.cells[c];
    assert CellOk(cell, c, s.now, s.usedNodes);
    assert cell.seen < |cell.log| - 1 ==> Grows(cell.log[cell.seen], Last(cell.log));
  }

  // ----- signals and writes -----

  predicate IsWrite(e: Event) { e.PoolWrite? || e.ClaimWrite? }

  /** The signal the k-th event calls for. */
  function OwesAt(start: State, run: Run, k: nat): Option<Signal>
    requires k < |run|
  {
    var s := Before(start, run, k);
    if s.pools == [] then None else Owes(s, run[k].event)
  }

  /** The k-th event is the write with this number, and calls for this signal. */
  predicate Announces(start: State, run: Run, k: nat, x: Emitted)
    requires k < |run|
  {
    IsWrite(run[k].event) && run[k].state.history.writes == x.write && OwesAt(start, run, k) == Some(x.signal)
  }

  lemma SignalMoves(current: bool, start: State, run: Run, k: nat)
    requires ValidRun(current, start, run) && k < |run|
    ensures var h, g := Before(start, run, k).history, run[k].state.history;
            if IsWrite(run[k].event) then g.writes == h.writes + 1 && g.owed == OwesAt(start, run, k) && g.signals == h.signals
            else if run[k].event.Emit? then
              && g.writes == h.writes && g.owed == None && h.owed == Some(run[k].event.signal)
              && g.signals == h.signals + [Emitted(run[k].event.signal, h.writes)]
            else if run[k].event.Stop? then g.writes == h.writes && g.owed == None && g.signals == h.signals
            else g.writes == h.writes && g.owed == h.owed && g.signals == h.signals
    ensures !IsWrite(run[k].event) ==> OwesAt(start, run, k) == None
    ensures IsWrite(run[k].event) ==> Before(start, run, k).history.owed.None?
  {
    StepOf(current, start, run, k);
    SignalStep(current, Before(start, run, k), run[k].event, run[k].state);
  }

  lemma SignalStep(current: bool, s: State, e: Event, t: State)
    requires Ok(s) && Next(current, s, e, t)
    ensures var h, g := s.history, t.history;
            if IsWrite(e) then g.writes == h.writes + 1 && g.owed == Owes(s, e) && g.signals == h.signals
            else if e.Emit? then
              g.writes == h.writes && g.owed == None && h.owed == Some(e.signal) && g.signals == h.signals + [Emitted(e.signal, h.writes)]
            else if e.Stop? then g.writes == h.writes && g.owed == None && g.signals == h.signals
            else g.writes == h.writes && g.owed == h.owed && g.signals == h.signals
    ensures IsWrite(e) ==> s.history.owed.None?
  {
  }

  /** Signals are announced in the order of the writes, at most one each. */
  predicate Ordered(h: History) {
    && (forall i, j :: 0 <= i < j < |h.signals| ==> h.signals[i].write < h.signals[j].write)
    && (forall x <- h.signals :: if h.owed.Some? then x.write < h.writes else x.write <= h.writes)
  }

  lemma {:induction false} SignalsInOrder(current: bool, start: State, run: Run, k: nat)
    requires ValidRun(current, start, run) && k <= |run|
    ensures Ordered(Before(start, run, k).history)
  {
    if k > 0 {
      SignalsInOrder(current, start, run, k - 1);
      SignalMoves(current, start, run, k - 1);
    }
  }

  /** The write a signal still owed, or one already emitted, stands for. */
  lemma {:induction false} OwedByAWrite(current: bool, start: State, run: Run, k: nat) returns (j: nat)
    requires ValidRun(current, start, run) && k <= |run| && Before(start, run, k).history.owed.Some?
    ensures j < k && Announces(start, run, j, Emitted(Before(start, run, k).history.owed.value, Before(start, run, k).history.writes))
    decreases k
  {
    assert k > 0;
    SignalMoves(current, start, run, k - 1);
    if IsWrite(run[k - 1].event) {
      j := k - 1;
    } else {
      j := OwedByAWrite(current, start, run, k - 1);
    }
  }

  lemma {:induction false} EmittedForAWrite(current: bool, start: State, run: Run, k: nat, x: Emitted) returns (j: nat)
    requires ValidRun(current, start, run) && k <= |run| && x in Before(start, run, k).history.signals
    ensures j < k && Announces(start, run, j, x)
    decreases k
  {
    assert k > 0;
    SignalMoves(current, start, run, k - 1);
    if x in Before(start, run, k - 1).history.signals {
      j := EmittedForAWrite(current, start, run, k - 1, x);
    } else {
      j := OwedByAWrite(current, start, run, k - 1);
    }
  }

  /** Write numbers identify writes. */
  lemma {:induction false} WritesAreNumbered(current: bool, start: State, run: Run, i: nat, k: nat)
    requires ValidRun(current, start, run) && i <= k < |run|
    ensures run[i].state.history.writes <= run[k].state.history.writes
    ensures i < k && IsWrite(run[k].event) ==> run[i].state.history.writes < run[k].state.history.writes
    decreases k
  {
    if i < k {
      WritesAreNumbered(current, start, run, i, k - 1);
      SignalMoves(current, start, run, k);
    }
  }

  /** Signals map one-to-one into the log of successful writes: each stands for exactly
  one write, which calls for it, and no write is announced twice. */
  lemma SignalsMapOneToOne(current: bool, start: State, run: Run, k: nat)
    requires ValidRun(current, start, run) && k <= |run|
    ensures var xs := Before(start, run, k).history.signals;
            && (forall i, j :: 0 <= i < j < |xs| ==> xs[i].write != xs[j].write)
            && (forall x <- xs :: exists j :: 0 <= j < k && Announces(start, run, j, x))
            && (forall x <- xs, i, j :: 0 <= i < k && 0 <= j < k && Announces(start, run, i, x) && Announces(start, run, j, x) ==> i == j)
  {
    var xs := Before(start, run, k).history.signals;
    SignalsInOrder(current, start, run, k);
    forall x <- xs
      ensures exists j :: 0 <= j < k && Announces(start, run, j, x)
    {
      var j := EmittedForAWrite(current, start, run, k, x);
    }
    forall x <- xs, i, j | 0 <= i < k && 0 <= j < k && Announces(start, run, i, x) && Announces(start, run, j, x)
      ensures i == j
    {
      if i < j { WritesAreNumbered(current, start, run, i, j); }
      if j < i { WritesAreNumbered(current, start, run, j, i); }
    }
  }

  function One(b: bool): nat { if b then 1 else 0 }

  function Emissions(xs: seq<Emitted>, f: Signal -> bool): nat {
    if xs == [] then 0 else Emissions(xs[..|xs| - 1], f) + One(f(xs[|xs| - 1].signal))
  }

  /** Writes calling for such a signal. */
  function Called(start: State, run: Run, k: nat, f: Signal -> bool): nat
    requires k <= |run|
  {
    if k == 0 then 0
    else Called(start, run, k - 1, f) + One(OwesAt(start, run, k - 1).Some? && f(OwesAt(start, run, k - 1).value))
  }

  /** Stops of the process that dropped such a signal. */
  function Lost(start: State, run: Run, k: nat, f: Signal -> bool): nat
    requires k <= |run|
  {
    if k == 0 then 0
    else
      var owed := Before(start, run, k - 1).history.owed;
      Lost(start, run, k - 1, f) + One(run[k - 1].event.Stop? && owed.Some? && f(owed.value))
  }

  /** Conservation of signals: what the writes call for is what was emitted, what is
  still owed, and what stops of the process dropped. */
  lemma {:induction false} SignalsConserved(current: bool, start: State, run: Run, k: nat, f: Signal -> bool)
    requires ValidRun(current, start, run) && k <= |run|
    ensures var h := Before(start, run, k).history;
            Called(start, run, k, f) == Emissions(h.signals, f) + One(h.owed.Some? && f(h.owed.value)) + Lost(start, run, k, f)
  {
    if k > 0 {
      SignalsConserved(current, start, run, k - 1, f);
      SignalMoves(current, start, run, k - 1);
      if run[k - 1].event.Emit? {
        var xs := run[k - 1].state.history.signals;
        assert xs[..|xs| - 1] == Before(start, run, k - 1).history.signals;
      }
    }
  }

  /** The k-th event released the anchor while the mirror said draining. */
  predicate CompletesAt(start: State, run: Run, k: nat)
    requires k < |run|
  {
    && run[k].event.PoolWrite? && run[k].event.poolAct.Release? && run[k].event.poolAct.how.Completed?
    && Before(start, run, k).pools != [] && Pool(Before(start, run, k)).draining
  }

  function Completions(start: State, run: Run, k: nat): nat
    requires k <= |run|
  {
    if k == 0 then 0 else Completions(start, run, k - 1) + One(CompletesAt(start, run, k - 1))
  }

  lemma {:induction false} SuccessesAreCompletions(start: State, run: Run, k: nat)
    requires k <= |run|
    ensures Called(start, run, k, (x: Signal) => x.Success?) == Completions(start, run, k)
  {
    if k > 0 { SuccessesAreCompletions(start, run, k - 1); }
  }

  lemma {:induction false} NoStopNoLoss(start: State, run: Run, k: nat, f: Signal -> bool)
    requires k <= |run| && forall j :: 0 <= j < k ==> !run[j].event.Stop?
    ensures Lost(start, run, k, f) == 0
  {
    if k > 0 { NoStopNoLoss(start, run, k - 1, f); }
  }

  /** Successes counted never exceed rotations completed, and equal them when nothing is
  owed and the process never stopped. */
  lemma SuccessCount(current: bool, start: State, run: Run, k: nat)
    requires ValidRun(current, start, run) && k <= |run|
    ensures var f := (x: Signal) => x.Success?;
            var h := Before(start, run, k).history;
            && Emissions(h.signals, f) <= Completions(start, run, k)
            && (h.owed.None? && (forall j :: 0 <= j < k ==> !run[j].event.Stop?) ==> Emissions(h.signals, f) == Completions(start, run, k))
  {
    SuccessesAreCompletions(start, run, k);
    SignalsConserved(current, start, run, k, (x: Signal) => x.Success?);
    if forall j :: 0 <= j < k ==> !run[j].event.Stop? {
      NoStopNoLoss(start, run, k, (x: Signal) => x.Success?);
    }
  }

  /** A rotation completes only for the claim the pool was anchored on, once that claim
  is gone. */
  lemma CompletionIsReal(current: bool, start: State, run: Run, k: nat)
    requires ValidRun(current, start, run) && k < |run| && CompletesAt(start, run, k)
    ensures var s, c := Before(start, run, k), run[k].event.poolAct.how.claim;
            Pool(s).active == Some(c) && c in s.cells && s.cells[c].gone
  {
    StepOf(current, start, run, k);
  }

  // ----- the lost-window report -----

  predicate Stamps(run: Run, k: nat)
    requires k < |run|
  {
    run[k].event.PoolWrite? && run[k].event.poolAct.StampWindow?
  }

  predicate ReportsLoss(run: Run, k: nat)
    requires k < |run|
  {
    run[k].event.PoolWrite? && run[k].event.poolAct.ClearWindow? && run[k].event.poolAct.missed
  }

  function StampCount(run: Run, k: nat): nat
    requires k <= |run|
  {
    if k == 0 then 0 else StampCount(run, k - 1) + One(Stamps(run, k - 1))
  }

  function LossCount(run: Run, k: nat): nat
    requires k <= |run|
  {
    if k == 0 then 0 else LossCount(run, k - 1) + One(ReportsLoss(run, k - 1))
  }

  function OnRecord(start: State, run: Run, k: nat): bool
    requires k <= |run|
  {
    var s := Before(start, run, k);
    s.pools != [] && Pool(s).openedAt.OpenedAt?
  }

  lemma PoolMoves(current: bool, start: State, run: Run, k: nat)
    requires ValidRun(current, start, run) && k < |run|
    ensures Before(start, run, k).pools != [] && run[k].state.pools != []
    ensures var p, q := Pool(Before(start, run, k)), Pool(run[k].state);
            if run[k].event.PoolWrite? then
              && Ok(Before(start, run, k)) && PoolActAllowed(current, Before(start, run, k), run[k].event.poolAct)
              && q == ApplyPool(run[k].event.poolAct, p)
            else SamePool(p, q)
  {
    StepOf(current, start, run, k);
    PoolStep(current, Before(start, run, k), run[k].event, run[k].state);
  }

  lemma StampMoves(current: bool, start: State, run: Run, k: nat)
    requires ValidRun(current, start, run) && k < |run|
    ensures Stamps(run, k) ==> !OnRecord(start, run, k) && OnRecord(start, run, k + 1)
    ensures ReportsLoss(run, k) ==> OnRecord(start, run, k) && !OnRecord(start, run, k + 1)
    ensures OnRecord(start, run, k + 1) ==> OnRecord(start, run, k) || Stamps(run, k)
  {
    PoolMoves(current, start, run, k);
  }

  /** Every loss reported consumes a stamp of its own. */
  lemma {:induction false} LossesNeedStamps(current: bool, start: State, run: Run, k: nat)
    requires ValidRun(current, start, run) && k <= |run|
    ensures LossCount(run, k) + One(OnRecord(start, run, k)) <= StampCount(run, k) + One(OnRecord(start, run, 0))
  {
    if k > 0 {
      LossesNeedStamps(current, start, run, k - 1);
      StampMoves(current, start, run, k - 1);
    }
  }

  lemma {:induction false} MissedCallsAreLosses(start: State, run: Run, k: nat)
    requires k <= |run|
    requires forall j :: 0 <= j < k ==> Before(start, run, j).pools != []
    ensures Called(start, run, k, (x: Signal) => x.Missed?) == LossCount(run, k)
  {
    if k > 0 { MissedCallsAreLosses(start, run, k - 1); }
  }

  /** Lost windows announced never exceed openings recorded. */
  lemma MissedCount(current: bool, start: State, run: Run, k: nat)
    requires ValidRun(current, start, run) && k <= |run|
    ensures Emissions(Before(start, run, k).history.signals, (x: Signal) => x.Missed?) <= StampCount(run, k) + One(OnRecord(start, run, 0))
  {
    forall j | 0 <= j < k
      ensures Before(start, run, j).pools != []
    {
      StepOf(current, start, run, j);
    }
    MissedCallsAreLosses(start, run, k);
    SignalsConserved(current, start, run, k, (x: Signal) => x.Missed?);
    LossesNeedStamps(current, start, run, k);
  }

  /** A reported loss is justified by the durable annotations at the instant of the
  clearing write. */
  lemma LossJustified(current: bool, start: State, run: Run, k: nat)
    requires ValidRun(current, start, run) && k < |run| && ReportsLoss(run, k)
    ensures Before(start, run, k).pools != []
    ensures var p, a := Pool(Before(start, run, k)), run[k].event.poolAct;
            && p.openedAt.OpenedAt? && p.openedAt == a.stamp
            && p.active.None?
            && !Decide.Frozen(p, a.at)
            && Decide.Outstanding(a.census) > 0
            && (p.lastRotationAt.None? || p.lastRotationAt.value < p.openedAt.at)
  {
    PoolMoves(current, start, run, k);
  }

  /** The stamp on record, if any, is no later than the last completion. */
  predicate Settled(p: PoolNotes) {
    p.openedAt.OpenedAt? ==> p.lastRotationAt.Some? && p.openedAt.at <= p.lastRotationAt.value
  }

  lemma SettledMoves(current: bool, start: State, run: Run, k: nat)
    requires ValidRun(current, start, run) && k < |run| && !Stamps(run, k)
    ensures Before(start, run, k).pools != [] && run[k].state.pools != []
    ensures CompletesAt(start, run, k) || Settled(Pool(Before(start, run, k))) ==> Settled(Pool(run[k].state))
  {
    PoolMoves(current, start, run, k);
  }

  lemma {:induction false} SettledUntilStamped(current: bool, start: State, run: Run, i: nat, k: nat)
    requires ValidRun(current, start, run) && i < k <= |run| && CompletesAt(start, run, i)
    requires forall j :: i < j < k ==> !Stamps(run, j)
    ensures Before(start, run, k).pools != [] && Settled(Pool(Before(start, run, k)))
    decreases k
  {
    if i < k - 1 {
      SettledUntilStamped(current, start, run, i, k - 1);
      assert !Stamps(run, k - 1);
    }
    SettledMoves(current, start, run, k - 1);
  }

  /** An occurrence during whose stamp a rotation completed is never reported lost. */
  lemma CompletedIsNeverMissed(current: bool, start: State, run: Run, i: nat, k: nat)
    requires ValidRun(current, start, run) && i < k < |run| && CompletesAt(start, run, i) && ReportsLoss(run, k)
    ensures exists j :: i < j < k && Stamps(run, j)
  {
    if forall j :: i < j < k ==> !Stamps(run, j) {
      SettledUntilStamped(current, start, run, i, k);
      LossJustified(current, start, run, k);
    }
  }

  // ----- pauses between starts -----

  /** Every start passed every gate on exactly the annotations its anchor was written to,
  and the claim was eligible on the listing it was chosen from. */
  lemma StartsAreGated(current: bool, start: State, run: Run, k: nat)
    requires ValidRun(current, start, run) && k < |run| && IsAnchor(run[k].event)
    ensures Before(start, run, k).pools != []
    ensures var p, a := Pool(Before(start, run, k)), run[k].event.poolAct;
            var g := a.why.gate;
            && g.inWindow && g.now <= Before(start, run, k).now
            && !Decide.Frozen(p, g.now)
            && (p.lastRotationAt.Some? ==> p.lastRotationAt.value + g.cooldown <= g.now)
            && (p.lastFailureAt.Some? ==> p.lastFailureAt.value + g.failurePause <= g.now)
            && a.why.view.name == a.claim && Eligible(a.why.view, a.why.selection)
  {
    PoolMoves(current, start, run, k);
  }

  lemma {:induction false} RotationStampKept(current: bool, start: State, run: Run, i: nat, k: nat)
    requires ValidRun(current, start, run) && i < k <= |run| && CompletesAt(start, run, i)
    requires forall j :: i < j < k ==> !CompletesAt(start, run, j)
    ensures Before(start, run, k).pools != []
    ensures Pool(Before(start, run, k)).lastRotationAt == Some(run[i].event.poolAct.at)
    decreases k
  {
    PoolMoves(current, start, run, k - 1);
    if i < k - 1 {
      RotationStampKept(current, start, run, i, k - 1);
      assert !CompletesAt(start, run, k - 1);
    }
  }

  /** The next start after a completed rotation waits for the cooldown, in whichever
  process it is made. */
  lemma CooldownKept(current: bool, start: State, run: Run, i: nat, k: nat)
    requires ValidRun(current, start, run) && i < k < |run| && CompletesAt(start, run, i) && IsAnchor(run[k].event)
    requires forall j :: i < j < k ==> !CompletesAt(start, run, j)
    ensures run[i].event.poolAct.at + run[k].event.poolAct.why.gate.cooldown <= run[k].event.poolAct.why.gate.now
  {
    RotationStampKept(current, start, run, i, k);
    StartsAreGated(current, start, run, k);
  }

  predicate RollsBack(run: Run, k: nat)
    requires k < |run|
  {
    run[k].event.PoolWrite? && run[k].event.poolAct.Release? && run[k].event.poolAct.how.RolledBack?
  }

  lemma {:induction false} FailureStampKept(current: bool, start: State, run: Run, i: nat, k: nat)
    requires ValidRun(current, start, run) && i < k <= |run| && RollsBack(run, i)
    requires forall j :: i < j < k ==> !RollsBack(run, j)
    ensures Before(start, run, k).pools != []
    ensures Pool(Before(start, run, k)).lastFailureAt.Some?
    ensures run[i].event.poolAct.at <= Pool(Before(start, run, k)).lastFailureAt.value
    decreases k
  {
    PoolMoves(current, start, run, k - 1);
    if i < k - 1 {
      FailureStampKept(current, start, run, i, k - 1);
      assert !RollsBack(run, k - 1);
    }
  }

  /** After a rollback the next start waits for the failure pause; the repair of a torn
  write in between never voids it. */
  lemma FailurePauseKept(current: bool, start: State, run: Run, i: nat, k: nat)
    requires ValidRun(current, start, run) && i < k < |run| && RollsBack(run, i) && IsAnchor(run[k].event)
    requires forall j :: i < j < k ==> !RollsBack(run, j)
    ensures run[i].event.poolAct.at + run[k].event.poolAct.why.gate.failurePause <= run[k].event.poolAct.why.gate.now
  {
    FailureStampKept(current, start, run, i, k);
    StartsAreGated(current, start, run, k);
  }

  /** The k-th event marks the pool for a surge-less drain. */
  predicate MarksSurgeless(run: Run, k: nat)
    requires k < |run|
  {
    run[k].event.PoolWrite? && run[k].event.poolAct.MarkDraining? && run[k].event.poolAct.mode.Surgeless?
  }

  function FallbackAt(start: State, run: Run, k: nat): bool
    requires k <= |run|
  {
    Before(start, run, k).pools != [] && Pool(Before(start, run, k)).fallback
  }

  lemma FallbackMoves(start: State, run: Run, k: nat)
    requires ValidRun(true, start, run) && k < |run|
    ensures MarksSurgeless(run, k) ==>
              var a := run[k].event.poolAct;
              && Decide.SurgelessFallback(a.mode.view, a.mode.gate) && a.mode.view.name == a.claim
              && ActiveAt(start, run, k) == Some(a.claim)
    ensures FallbackAt(start, run, k + 1) ==>
              MarksSurgeless(run, k) || (FallbackAt(start, run, k) && !IsAnchor(run[k].event) && !IsRelease(run[k].event))
  {
    PoolMoves(true, start, run, k);
    AnchorMoves(true, start, run, k);
    FieldsLiveWithTheAnchor(start, run, k);
  }

  /** A rotation-mode of forceful-fallback goes back to a decision, in this anchoring,
  that the claim's own deadline left no room for a surge. */
  lemma {:induction false} FallbackWasDecided(start: State, run: Run, k: nat) returns (j: nat)
    requires ValidRun(true, start, run) && k <= |run| && !FallbackAt(start, run, 0)
    requires FallbackAt(start, run, k)
    ensures j < k && MarksSurgeless(run, j)
    ensures var a := run[j].event.poolAct; Decide.SurgelessFallback(a.mode.view, a.mode.gate) && a.mode.view.name == a.claim
    ensures ActiveAt(start, run, k) == Some(run[j].event.poolAct.claim)
    ensures forall i :: j <= i < k ==> !IsAnchor(run[i].event) && !IsRelease(run[i].event)
    decreases k
  {
    assert k > 0;
    FallbackMoves(start, run, k - 1);
    AnchorMoves(true, start, run, k - 1);
    if MarksSurgeless(run, k - 1) {
      j := k - 1;
    } else {
      j := FallbackWasDecided(start, run, k - 1);
    }
  }
}
