/** The pure decisions of the reconcile loop: may a rotation start, must it go
surge-less, and what became of the window (internal/decide). */
module Decide {
  import opened Clock
  import opened Options
  import opened Notes
  import opened Selection

  datatype Gate = GateNone | OutOfWindow | GateFrozen | CooldownAfterSuccess | AfterFailure

  datatype Inputs = Inputs(
    now: Time,
    inWindow: bool,
    notes: PoolNotes,
    cooldown: int,
    failurePause: int,
    fallbackEnabled: bool,
    readyTimeout: int,
    drainBound: int)

  predicate Frozen(notes: PoolNotes, now: Time) {
    notes.freeze.Some? && now < notes.freeze.value
  }

  /** Less than `span` has passed since the stamp; never so when there is none. */
  predicate Within(stamp: Option<Time>, now: Time, span: int) {
    stamp.Some? && now - stamp.value < span
  }

  /** The first gate that blocks a fresh start, or none. */
  function StartGate(i: Inputs): Gate {
    if !i.inWindow then OutOfWindow
    else if Frozen(i.notes, i.now) then GateFrozen
    else if Within(i.notes.lastRotationAt, i.now, i.cooldown) then CooldownAfterSuccess
    else if Within(i.notes.lastFailureAt, i.now, i.failurePause) then AfterFailure
    else GateNone
  }

  /** A graceful surge started now cannot finish before the claim's own deadline, and
  the opt-in fallback is enabled. */
  predicate SurgelessFallback(c: Claim, i: Inputs) {
    && i.fallbackEnabled
    && c.expireAfter.Some?
    && c.createdAt + c.expireAfter.value - i.now < i.readyTimeout + i.drainBound
  }

  // ----- the window edge -----

  datatype WindowAction = WindowNothing | WindowStamp | WindowDefer | WindowSettled | WindowMissed

  function Outstanding(c: Census): nat {
    c.eligible + c.inBackoffTriggered
  }

  function WindowEdge(notes: PoolNotes, now: Time, inWindow: bool, census: Census): WindowAction {
    if inWindow then
      if notes.openedAt.OpenedAt? then WindowNothing else WindowStamp
    else if notes.openedAt.Unset? then WindowNothing
    else if notes.openedAt.Unreadable? then WindowSettled
    else if notes.active.Some? then WindowDefer
    else if Frozen(notes, now) then WindowSettled
    else if Outstanding(census) == 0 then WindowSettled
    else if notes.lastRotationAt.Some? && notes.openedAt.at <= notes.lastRotationAt.value then WindowSettled
    else WindowMissed
  }

  /** A window is lost exactly when it closed with its opening on record, nothing in
  flight, no freeze, some claim due by age and not opted out, and no rotation completed
  since the opening. The claims due are counted as if no backoff held any of them. */
  lemma MissedExactlyWhen(notes: PoolNotes, claims: seq<Claim>, i: Selection.Inputs, inWindow: bool)
    ensures WindowEdge(notes, i.now, inWindow, CensusOf(claims, i)) == WindowMissed <==>
              && !inWindow
              && notes.openedAt.OpenedAt?
              && notes.active.None?
              && !Frozen(notes, i.now)
              && (notes.lastRotationAt.None? || notes.lastRotationAt.value < notes.openedAt.at)
              && (exists c <- claims :: EligibleButBackoff(c, i))
  {
    OutstandingIgnoresBackoff(claims, i);
    SomeOutstanding(claims, i);
  }

  lemma {:induction false} SomeOutstanding(claims: seq<Claim>, i: Selection.Inputs)
    ensures CountButBackoff(claims, i) > 0 <==> exists c <- claims :: EligibleButBackoff(c, i)
  {
    if claims != [] {
      var n := |claims| - 1;
      SomeOutstanding(claims[..n], i);
      assert claims == claims[..n] + [claims[n]];
    }
  }
}
