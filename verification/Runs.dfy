/** Safety over whole runs of the protocol: nothing outlives its anchor, make before
break, the serial gate, the life of a claim, and what the emitted signals stand for. */
module Runs {
  import opened Options
  import opened Notes
  import opened Nodeops
  import opened Protocol
  import opened Invariants

  /** An event and the state it led to. */
  datatype Step = Step(event: Event, state: State)

  type Run = seq<Step>

  const NO_HISTORY := History(0, None, [], NothingSeen, None)

  /** The state the k-th event happens in; the last state for k == |run|. */
  function Before(start: State, run: Run, k: nat): State
    requires k <= |run|
  {
    if k == 0 then start else run[k - 1].state
  }

  function End(start: State, run: Run): State {
    Before(start, run, |run|)
  }

  /** A cluster the controller has just started to watch. */
  predicate Start(current: bool, s: State) {
    Ok(s) && s.history == NO_HISTORY && (current ==> Inv(s))
  }

  predicate StepAt(current: bool, start: State, run: Run, k: nat)
    requires k < |run|
  {
    var s := Before(start, run, k);
    Ok(s) && Next(current, s, run[k].event, run[k].state)
  }

  predicate ValidRun(current: bool, start: State, run: Run) {
    && Start(current, start)
    && forall k {:trigger StepAt(current, start, run, k)} :: 0 <= k < |run| ==> StepAt(current, start, run, k)
  }

  // ----- every state of a run -----

  lemma {:induction false} StateOk(current: bool, start: State, run: Run, k: nat)
    requires ValidRun(current, start, run) && k <= |run|
    ensures Ok(Before(start, run, k)) && (current ==> Inv(Before(start, run, k)))
  {
    if k > 0 {
      StateOk(current, start, run, k - 1);
      assert StepAt(current, start, run, k - 1);
      NextKeepsOk(current, Before(start, run, k - 1), run[k - 1].event, run[k - 1].state);
      if current { NextKeepsInv(Before(start, run, k - 1), run[k - 1].event, run[k - 1].state); }
    }
  }

  /** Every step of a valid run is a step of the protocol between well-formed states. */
  lemma StepOf(current: bool, start: State, run: Run, k: nat)
    requires ValidRun(current, start, run) && k < |run|
    ensures Ok(Before(start, run, k)) && Ok(run[k].state)
    ensures Next(current, Before(start, run, k), run[k].event, run[k].state)
  {
    StateOk(current, start, run, k + 1);
    assert StepAt(current, start, run, k);
  }

  /** A process may stop after any event: every prefix of a run is a run. */
  lemma PrefixValid(current: bool, start: State, run: Run, k: nat)
    requires ValidRun(current, start, run) && k <= |run|
    ensures ValidRun(current, start, run[..k]) && End(start, run[..k]) == Before(start, run, k)
  {
    forall j | 0 <= j < k
      ensures StepAt(current, start, run[..k], j)
    {
      assert StepAt(current, start, run, j);
    }
  }

  /** Appending a step. */
  lemma Extend(current: bool, start: State, run: Run, step: Step)
    requires ValidRun(current, start, run) && Ok(End(start, run)) && Next(current, End(start, run), step.event, step.state)
    ensures ValidRun(current, start, run + [step]) && End(start, run + [step]) == step.state
  {
    var longer := run + [step];
    forall k | 0 <= k < |longer|
      ensures StepAt(current, start, longer, k)
    {
      if k < |run| { assert StepAt(current, start, run, k); }
    }
  }

  // ----- crash environment: nothing outlives its anchor -----

  /** After every write: a claim the pool is not anchored on has no placeholder left but
  a terminating one and no node marked for it, and no node carries an owned protection
  or a controller cordon without being marked for the anchored claim. */
  lemma NothingOutlivesItsAnchor(start: State, run: Run, k: nat)
    requires ValidRun(true, start, run) && k <= |run|
    ensures var s := Before(start, run, k);
            && Ok(s)
            && (forall c <- s.pods :: Pool(s).active != Some(c) ==> s.pods[c].terminating)
            && (forall n <- s.nodes ::
                  var m := s.nodes[n].state;
                  && (m.Has(SurgeFor) ==> Pool(s).active == Some(m.Get(SurgeFor)))
                  && (m.Has(DoNotDisruptOwned) || m.Has(Cordoned) ==> m.Has(SurgeFor)))
  {
    StateOk(true, start, run, k);
    var s := Before(start, run, k);
    assert MarkersAnchored(s) && PodsAnchored(s);
    forall n <- s.nodes
      ensures NodeAnchored(s.nodes[n].state, Pool(s).active)
    {
    }
  }

  // ----- crash environment: make before break -----

  /** A new anchoring or a new attempt begins. */
  predicate Begins(e: Event) {
    (e.PoolWrite? && e.poolAct.Anchor?) || (e.ClaimWrite? && e.claimAct.Reenter?)
  }

  /** No new attempt begins in [i, k). */
  predicate SameAttempt(run: Run, i: nat, k: nat) {
    forall j :: i <= j < k && j < |run| ==> !Begins(run[j].event)
  }

  /** Which events touch the observations of the surge. */
  predicate Observes(h: History, e: Event, after: History) {
    if Begins(e) then after.seeing == NothingSeen && after.held == None
    else if e.Saw? then after.seeing == e.seeing && after.held == h.held
    else if e.Held? then after.seeing == h.seeing && after.held == Some(e.host) && h.seeing == SawReady(e.host)
    else after.seeing == h.seeing && after.held == h.held
  }

  lemma HistoryStep(current: bool, s: State, e: Event, t: State)
    requires Ok(s) && Next(current, s, e, t)
    ensures Observes(s.history, e, t.history)
    ensures e.Saw? && e.seeing.SawReady? ==> s.history.seeing == SawRunning(e.seeing.host)
  {
  }

  lemma HistoryMoves(current: bool, start: State, run: Run, k: nat)
    requires ValidRun(current, start, run) && k < |run|
    ensures Observes(Before(start, run, k).history, run[k].event, Before(start, run, k + 1).history)
    ensures run[k].event.Saw? && run[k].event.seeing.SawReady? ==>
              Before(start, run, k).history.seeing == SawRunning(run[k].event.seeing.host)
  {
    StepOf(current, start, run, k);
    HistoryStep(current, Before(start, run, k), run[k].event, run[k].state);
  }

  /** What has been observed by now was observed in this attempt. */
  lemma {:induction false} SeenBefore(start: State, run: Run, k: nat, x: Seeing) returns (i: nat)
    requires ValidRun(true, start, run) && k <= |run|
    requires x != NothingSeen && Before(start, run, k).history.seeing == x
    ensures i < k && SameAttempt(run, i, k) && run[i].event == Saw(x)
    decreases k
  {
    assert k > 0;
    HistoryMoves(true, start, run, k - 1);
    if run[k - 1].event == Saw(x) {
      i := k - 1;
    } else {
      i := SeenBefore(start, run, k - 1, x);
    }
  }

  lemma {:induction false} HeldBefore(start: State, run: Run, k: nat, host: string) returns (m: nat)
    requires ValidRun(true, start, run) && k <= |run|
    requires Before(start, run, k).history.held == Some(host)
    ensures m < k && SameAttempt(run, m, k) && run[m].event == Held(host)
    decreases k
  {
    assert k > 0;
    HistoryMoves(true, start, run, k - 1);
    if run[k - 1].event == Held(host) {
      m := k - 1;
    } else {
      m := HeldBefore(start, run, k - 1, host);
    }
  }

  /** A host held now was seen running, then ready, then held, all in this attempt. */
  lemma HeldWasSeen(start: State, run: Run, k: nat, host: string) returns (i: nat, j: nat, m: nat)
    requires ValidRun(true, start, run) && k <= |run|
    requires Before(start, run, k).history.held == Some(host)
    ensures i < j < m < k && SameAttempt(run, i, k)
    ensures run[i].event == Saw(SawRunning(host)) && run[j].event == Saw(SawReady(host)) && run[m].event == Held(host)
  {
    m := HeldBefore(start, run, k, host);
    HistoryMoves(true, start, run, m);
    j := SeenBefore(start, run, m, SawReady(host));
    HistoryMoves(true, start, run, j);
    i := SeenBefore(start, run, j, SawRunning(host));
  }

  /** The pool changes by the controller's pool writes and by freezes alone. */
  lemma PoolStep(current: bool, s: State, e: Event, t: State)
    requires Ok(s) && Ok(t) && Next(current, s, e, t)
    ensures if e.PoolWrite? then PoolActAllowed(current, s, e.poolAct) && Pool(t) == ApplyPool(e.poolAct, Pool(s))
            else SamePool(Pool(s), Pool(t))
  {
    if e.Others? { PoolByOthers(s, t); }
  }

  function ActiveAt(start: State, run: Run, k: nat): Option<string>
    requires k <= |run|
  {
    var s := Before(start, run, k);
    if s.pools == [] then None else Pool(s).active
  }

  predicate IsAnchor(e: Event) { e.PoolWrite? && e.poolAct.Anchor? }

  predicate IsRelease(e: Event) { e.PoolWrite? && e.poolAct.Release? }

  lemma ActiveAfter(a: PoolAct, p: PoolNotes)
    ensures ApplyPool(a, p).active == (if a.Anchor? then Some(a.claim) else if a.Release? then None else p.active)
  {
  }

  lemma AnchorStep(current: bool, s: State, e: Event, t: State)
    requires Ok(s) && Ok(t) && Next(current, s, e, t)
    ensures Pool(t).active == (if IsAnchor(e) then Some(e.poolAct.claim) else if IsRelease(e) then None else Pool(s).active)
    ensures IsAnchor(e) ==> Pool(s).active.None?
  {
    PoolStep(current, s, e, t);
    if e.PoolWrite? { ActiveAfter(e.poolAct, Pool(s)); }
  }

  /** The anchor moves only by anchoring, from none, and by release. */
  lemma AnchorMoves(current: bool, start: State, run: Run, k: nat)
    requires ValidRun(current, start, run) && k < |run|
    ensures ActiveAt(start, run, k + 1) ==
              (if IsAnchor(run[k].event) then Some(run[k].event.poolAct.claim)
               else if IsRelease(run[k].event) then None
               else ActiveAt(start, run, k))
    ensures IsAnchor(run[k].event) ==> ActiveAt(start, run, k).None?
  {
    StepOf(current, start, run, k);
    AnchorStep(current, Before(start, run, k), run[k].event, run[k].state);
  }

  /** Between two instants with no new anchoring the anchor can only have been released. */
  lemma {:induction false} AnchorSince(current: bool, start: State, run: Run, i: nat, k: nat)
    requires ValidRun(current, start, run) && i <= k <= |run| && SameAttempt(run, i, k)
    ensures ActiveAt(start, run, k).Some? ==> ActiveAt(start, run, i) == ActiveAt(start, run, k)
    decreases k
  {
    if i < k {
      AnchorSince(current, start, run, i, k - 1);
      AnchorMoves(current, start, run, k - 1);
    }
  }

  /** The surge of the current attempt was complete: seen running on another node, that
  node then seen ready and in the pool, and then frozen for the claim. */
  predicate SurgeHeld(start: State, run: Run, k: nat, c: string, host: string, i: nat, j: nat, m: nat) {
    && i < j < m < k <= |run| && SameAttempt(run, i, k)
    && Ok(Before(start, run, i))
    && RunningOn(Before(start, run, i), c, host)
    && ReadyHost(Before(start, run, j), host)
    && FrozenFor(Before(start, run, m), host, c)
  }

  /** Make before break: when the controller deletes the claim it is rotating, pool and
  claim are durably draining, and the rotation is the surge-less fallback or its surge
  was held in the current attempt: seen running, then its host ready, and then the host
  frozen for this rotation or since gone for good. */
  lemma MakeBeforeBreak(start: State, run: Run, k: nat, c: string)
    requires ValidRun(true, start, run) && k < |run| && run[k].event == ClaimDelete(c)
    requires ActiveAt(start, run, k) == Some(c)
    ensures var s := Before(start, run, k);
            && Ok(s) && Pool(s).draining && Live(s, c) && NotesOf(s, c).phase == Draining
            && (Pool(s).fallback || exists host, i, j, m :: SurgeHeld(start, run, k, c, host, i, j, m))
  {
    StepOf(true, start, run, k);
    var s := Before(start, run, k);
    if !Pool(s).fallback {
      var host := s.history.held.value;
      var i, j, m := HeldWasSeen(start, run, k, host);
      SeenFor(start, run, k, c, host, i, j, m);
      assert SurgeHeld(start, run, k, c, host, i, j, m);
    }
  }

  lemma SeenFor(start: State, run: Run, k: nat, c: string, host: string, i: nat, j: nat, m: nat)
    requires ValidRun(true, start, run) && i < j < m < k <= |run| && SameAttempt(run, i, k)
    requires ActiveAt(start, run, k) == Some(c)
    requires run[i].event == Saw(SawRunning(host)) && run[j].event == Saw(SawReady(host)) && run[m].event == Held(host)
    ensures SurgeHeld(start, run, k, c, host, i, j, m)
  {
    StepOf(true, start, run, i);
    StepOf(true, start, run, j);
    StepOf(true, start, run, m);
    AnchorSince(true, start, run, i, k);
    AnchorSince(true, start, run, m, k);
  }

  // ----- the serial gate -----

  /** In either environment: a set anchor is never overwritten, so between two anchor
  writes there is a release. */
  lemma SerialGate(current: bool, start: State, run: Run, i: nat, k: nat)
    requires ValidRun(current, start, run) && i < k < |run|
    requires IsAnchor(run[i].event) && IsAnchor(run[k].event)
    ensures exists j :: i < j < k && IsRelease(run[j].event)
  {
    AnchorMoves(current, start, run, i);
    AnchorMoves(current, start, run, k);
    var j := ReleasedBetween(current, start, run, i + 1, k);
  }

  lemma {:induction false} ReleasedBetween(current: bool, start: State, run: Run, i: nat, k: nat) returns (j: nat)
    requires ValidRun(current, start, run) && i <= k <= |run|
    requires ActiveAt(start, run, i).Some? && ActiveAt(start, run, k).None?
    ensures i <= j < k && IsRelease(run[j].event)
    decreases k - i
  {
    AnchorMoves(current, start, run, i);
    if IsRelease(run[i].event) {
      j := i;
    } else {
      j := ReleasedBetween(current, start, run, i + 1, k);
    }
  }

  /** In the crash environment the fields of a rotation exist only while it is anchored. */
  lemma FieldsLiveWithTheAnchor(start: State, run: Run, k: nat)
    requires ValidRun(true, start, run) && k <= |run|
    ensures var s := Before(start, run, k);
            && s.pools != []
            && (Pool(s).active.None? ==>
                  && !Pool(s).draining && Pool(s).drainingAt.None? && Pool(s).surgeWait.None?
                  && Pool(s).surgePath.None? && !Pool(s).fallback)
  {
    StateOk(true, start, run, k);
  }
}
