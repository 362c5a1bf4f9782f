/** The rotation protocol as a transition system: the durable objects, what the rest of
the cluster may do to them, and every write the controller may make
(internal/controller/rotation_controller.go).

One pool is modelled, with its claims, nodes and placeholder Pods. Two environments are
kept apart by the flag `current`. With it, every read returns the current object;
without it, a read may return any version the cache has not yet moved past. In both the
process may stop after any event, which drops the signal it still owes. */
module Protocol {
  import opened Clock
  import opened Options
  import opened Notes
  import opened Selection
  import opened Nodeops
  import Decide

  // ----- durable objects -----

  /** A NodeClaim: what selection reads of it, and the node it became. */
  datatype ClaimObj = ClaimObj(view: Claim, node: Option<string>)

  /** A claim's version log. `gone` once it has finalized away; `seen` is the oldest
  version the cache may still return, |log| standing for "observed gone". */
  datatype Cell = Cell(log: seq<ClaimObj>, gone: bool, seen: nat)

  datatype NodeObj = NodeObj(state: NodeState, version: nat, ready: bool, inPool: bool)

  /** A placeholder Pod, keyed by its claim. Deleting one leaves it terminating. */
  datatype Pod = Pod(node: Option<string>, running: bool, terminating: bool)

  // ----- signals and history -----

  datatype Signal = Success | Expired(claim: string) | Failure(claim: string) | Missed

  /** A signal emitted, and the number of the write it announces. */
  datatype Emitted = Emitted(signal: Signal, write: nat)

  /** How far the surge of the current attempt has been observed. */
  datatype Seeing = NothingSeen | SawRunning(host: string) | SawReady(host: string)

  /** Bookkeeping no controller code reads. `writes` counts the pool and claim writes;
  `owed` is the signal the last of them calls for, until it is emitted or the process
  stops. `held` is the host a ready surge was held on during the current attempt. */
  datatype History = History(
    writes: nat,
    owed: Option<Signal>,
    signals: seq<Emitted>,
    seeing: Seeing,
    held: Option<string>)

  datatype State = State(
    now: Time,
    pools: seq<PoolNotes>,
    cells: map<string, Cell>,
    nodes: map<string, NodeObj>,
    usedNodes: set<string>,
    pods: map<string, Pod>,
    history: History)

  function Last<T>(xs: seq<T>): T
    requires xs != []
  {
    xs[|xs| - 1]
  }

  function Pool(s: State): PoolNotes
    requires s.pools != []
  {
    Last(s.pools)
  }

  predicate Live(s: State, c: string) {
    c in s.cells && !s.cells[c].gone
  }

  /** The newest version of a claim, gone or not. */
  function Obj(s: State, c: string): ClaimObj
    requires c in s.cells && s.cells[c].log != []
  {
    Last(s.cells[c].log)
  }

  function NotesOf(s: State, c: string): ClaimNotes
    requires c in s.cells && s.cells[c].log != []
  {
    Obj(s, c).view.notes
  }

  /** Nothing the cache can still return of this claim predates its deletion. */
  predicate SeenDeleting(cell: Cell) {
    cell.seen >= |cell.log| || cell.log[cell.seen].view.deleting
  }

  // ----- well-formedness, in either environment -----

  /** What a later version of a claim keeps of an earlier one. */
  predicate Grows(a: ClaimObj, b: ClaimObj) {
    && b.view.createdAt == a.view.createdAt
    && (a.view.deleting ==> b.view.deleting)
    && (a.node.Some? ==> b.node == a.node)
  }

  predicate VersionOk(o: ClaimObj, c: string, now: Time, usedNodes: set<string>) {
    && o.view.name == c && c != ""
    && o.view.createdAt <= now
    && (o.view.notes.startedAt.Some? ==> o.view.createdAt <= o.view.notes.startedAt.value)
    && (o.node.Some? ==> o.node.value in usedNodes)
  }

  predicate CellOk(cell: Cell, c: string, now: Time, usedNodes: set<string>) {
    && cell.log != []
    && cell.seen <= |cell.log| - (if cell.gone then 0 else 1)
    && (forall i :: 0 <= i < |cell.log| ==> VersionOk(cell.log[i], c, now, usedNodes))
    && (forall i, j :: 0 <= i < j < |cell.log| ==> Grows(cell.log[i], cell.log[j]))
    && (Last(cell.log).view.notes.phase == Phase.Expired ==> SeenDeleting(cell))
  }

  predicate Stamped(p: PoolNotes, now: Time) {
    p.openedAt.OpenedAt? ==> p.openedAt.at <= now
  }

  predicate Names(p: PoolNotes, cells: map<string, Cell>) {
    p.active.Some? ==> p.active.value in cells
  }

  predicate Ok(s: State) {
    && s.pools != []
    && (forall p <- s.pools :: Stamped(p, s.now) && Names(p, s.cells))
    && (Pool(s).active.Some? ==> Pool(s).active.value in s.cells)
    && (forall c <- s.cells :: CellOk(s.cells[c], c, s.now, s.usedNodes))
    && s.nodes.Keys <= s.usedNodes
  }

  // ----- the rest of the cluster -----

  predicate SamePool(a: PoolNotes, b: PoolNotes) {
    b.(freeze := a.freeze) == a
  }

  /** Versions others add to a claim leave the controller's annotations alone. */
  predicate CellByOthers(a: Cell, b: Cell)
    requires a.log != []
  {
    && a.log <= b.log
    && (forall i :: |a.log| <= i < |b.log| ==> b.log[i].view.notes == Last(a.log).view.notes)
    && (a.gone ==> b.gone && b.log == a.log)
    && a.seen <= b.seen
  }

  predicate FreshCell(b: Cell) {
    forall o <- b.log :: o.view.notes == NO_CLAIM_NOTES
  }

  predicate SameMarkers(a: NodeState, b: NodeState) {
    && (a.Has(SurgeFor) == b.Has(SurgeFor)) && a.Get(SurgeFor) == b.Get(SurgeFor)
    && a.Has(DoNotDisruptOwned) == b.Has(DoNotDisruptOwned)
    && a.Has(Cordoned) == b.Has(Cordoned)
  }

  /** Nodes come unmarked, under names never used before, and go; their markers are the
  controller's to change. */
  predicate NodesSteady(s: State, t: State) {
    && s.usedNodes <= t.usedNodes
    && forall n <- t.nodes ::
         if n in s.nodes then SameMarkers(s.nodes[n].state, t.nodes[n].state)
         else n !in s.usedNodes && Unmarked(t.nodes[n].state)
  }

  predicate NodeVersions(s: State, t: State) {
    forall n <- t.nodes :: n in s.nodes ==>
      && s.nodes[n].version <= t.nodes[n].version
      && (s.nodes[n].version == t.nodes[n].version ==> t.nodes[n].state == s.nodes[n].state)
  }

  /** Placeholders are created by the controller alone, and termination is for good. */
  predicate PodsSteady(s: State, t: State) {
    forall c <- t.pods :: c in s.pods && (s.pods[c].terminating ==> t.pods[c].terminating)
  }

  /** Any steps of the rest of the cluster: Karpenter creates, deletes and finalizes
  claims and registers nodes, the scheduler binds and preempts placeholders, operators
  freeze the pool and cordon or protect nodes, caches catch up, time passes. */
  predicate ByOthers(s: State, t: State)
    requires Ok(s)
  {
    && Ok(t)
    && s.now <= t.now
    && s.pools <= t.pools
    && (forall i :: |s.pools| <= i < |t.pools| ==> SamePool(Pool(s), t.pools[i]))
    && t.history == s.history
    && s.cells.Keys <= t.cells.Keys
    && (forall c <- s.cells :: CellByOthers(s.cells[c], t.cells[c]))
    && (forall c <- t.cells :: c !in s.cells ==> FreshCell(t.cells[c]))
    && NodesSteady(s, t) && NodeVersions(s, t)
    && PodsSteady(s, t)
  }

  // ----- the controller's writes -----

  /** How an anchor is released: the claim is gone; a failed attempt was rolled back; a
  torn failure write is repaired; the claim expired; or the pool is no longer governed. */
  datatype Ending =
    | Completed(claim: string)
    | RolledBack
    | Repaired(failedAt: Option<Time>)
    | Aborted
    | Reaped(claim: string)

  /** What a start is decided on: the gates, the claim as listed, selection's inputs,
  and whether the headroom gate passed. */
  datatype Start = Start(
    gate: Decide.Inputs,
    view: Claim,
    selection: Inputs,
    staticPool: bool,
    fatalFindings: bool,
    fits: bool)

  /** A drain behind a surge, or the surge-less fallback and what it is decided on. */
  datatype DrainMode = BySurge(wait: int, path: Option<SurgePath>) | Surgeless(view: Claim, gate: Decide.Inputs)

  /** `at` is the instant the writer read its clock, never after the write. */
  datatype PoolAct =
    | StampWindow(at: Time)
    | ClearWindow(at: Time, census: Census, stamp: Stamp, missed: bool)
    | Anchor(claim: string, why: Start)
    | MarkDraining(at: Time, claim: string, mode: DrainMode)
    | MirrorDraining
    | Release(at: Time, how: Ending)

  datatype ClaimAct =
    | AssertPending(at: Time)
    | NoteSurgeClaim(name: string)
    | Drain(surgeless: bool)
    | Fail(at: Time)
    | Expire(failed: bool)
    | Reenter(why: Start)

  datatype Event =
    | Others
    | PoolWrite(poolAct: PoolAct)
    | ClaimWrite(name: string, claimAct: ClaimAct)
    | NodeWrite(node: string, op: Op)
    | PodCreate(pod: string)
    | PodDelete(pod: string)
    | ClaimDelete(name: string)
    | Saw(seeing: Seeing)
    | Held(host: string)
    | Emit(signal: Signal)
    | Stop

  /** Every annotation scoped to one in-flight rotation, removed. */
  function Cleared(p: PoolNotes): PoolNotes {
    p.(active := None, draining := false, drainingAt := None, surgeWait := None, surgePath := None, fallback := false)
  }

  /** The later of two timestamps; an absent side loses. */
  function Later(a: Option<Time>, b: Option<Time>): Option<Time> {
    if a.None? then b else if b.None? then a else if b.value > a.value then b else a
  }

  function ApplyPool(a: PoolAct, p: PoolNotes): PoolNotes {
    match a
    case StampWindow(at) => p.(openedAt := OpenedAt(at))
    case ClearWindow(_, _, _, _) => p.(openedAt := Unset)
    case Anchor(c, _) => p.(active := Some(c))
    case MarkDraining(at, _, mode) =>
      var q := p.(draining := true, fallback := p.fallback || mode.Surgeless?);
      if p.drainingAt.Some? then q
      else if mode.Surgeless? then q.(drainingAt := Some(at))
      else
        q.(drainingAt := Some(at), surgeWait := Some(mode.wait),
           surgePath := if mode.path.Some? then mode.path else q.surgePath)
    case MirrorDraining => p.(draining := true)
    case Release(at, how) =>
      match how
      case Completed(_) => if p.draining then Cleared(p).(lastRotationAt := Some(at)) else Cleared(p)
      case RolledBack => Cleared(p).(lastFailureAt := Some(at))
      case Repaired(failedAt) => Cleared(p).(lastFailureAt := Later(p.lastFailureAt, failedAt))
      case Aborted => Cleared(p)
      case Reaped(_) => Cleared(p)
  }

  function ApplyClaim(a: ClaimAct, n: ClaimNotes): ClaimNotes {
    match a
    case AssertPending(at) => n.(phase := Pending, startedAt := if n.startedAt.None? then Some(at) else n.startedAt)
    case NoteSurgeClaim(c) => n.(surgeClaim := Some(c))
    case Drain(_) => n.(phase := Draining)
    case Fail(at) => ClaimNotes(Failed, None, Some(at), n.retry + 1, None)
    case Expire(failed) => if failed then n.(phase := Phase.Expired) else n.(phase := Phase.Expired, startedAt := None, surgeClaim := None)
    case Reenter(_) => n.(phase := Pending)
  }

  /** The signal a write calls for. */
  function PoolOwes(a: PoolAct, p: PoolNotes): Option<Signal> {
    match a
    case ClearWindow(_, _, _, missed) => if missed then Some(Missed) else None
    case Release(_, how) =>
      if how.Completed? then Some(if p.draining then Success else Signal.Expired(how.claim)) else None
    case _ => None
  }

  function ClaimOwes(a: ClaimAct, c: string): Option<Signal> {
    match a
    case Fail(_) => Some(Failure(c))
    case Expire(_) => Some(Signal.Expired(c))
    case _ => None
  }

  function Owes(s: State, e: Event): Option<Signal>
    requires s.pools != []
  {
    match e
    case PoolWrite(a) => PoolOwes(a, Pool(s))
    case ClaimWrite(c, a) => ClaimOwes(a, c)
    case _ => None
  }

  function Written(h: History, owes: Option<Signal>): History {
    h.(writes := h.writes + 1, owed := owes)
  }

  /** A new anchoring and a new attempt start with nothing observed. */
  function Unseen(h: History): History {
    h.(seeing := NothingSeen, held := None)
  }

  function WithClaim(s: State, c: string, o: ClaimObj): State
    requires c in s.cells
  {
    s.(cells := s.cells[c := s.cells[c].(log := s.cells[c].log + [o])])
  }

  predicate Applies(s: State, e: Event) {
    && s.pools != []
    && (e.ClaimWrite? || e.ClaimDelete? ==> e.name in s.cells && s.cells[e.name].log != [])
    && (e.NodeWrite? ==> e.node in s.nodes)
    && (e.PodDelete? ==> e.pod in s.pods)
  }

  /** The state after an event of the controller. */
  function After(s: State, e: Event): State
    requires Applies(s, e)
  {
    var h := s.history;
    match e
    case Others => s
    case PoolWrite(a) =>
      var w := Written(h, PoolOwes(a, Pool(s)));
      s.(pools := s.pools + [ApplyPool(a, Pool(s))], history := if a.Anchor? then Unseen(w) else w)
    case ClaimWrite(c, a) =>
      var w := Written(h, ClaimOwes(a, c));
      var o := Obj(s, c);
      WithClaim(s, c, o.(view := o.view.(notes := ApplyClaim(a, o.view.notes))))
        .(history := if a.Reenter? then Unseen(w) else w)
    case NodeWrite(n, op) =>
      s.(nodes := s.nodes[n := s.nodes[n].(state := Apply(op, s.nodes[n].state), version := s.nodes[n].version + 1)])
    case PodCreate(c) => s.(pods := s.pods[c := Pod(None, false, false)])
    case PodDelete(c) => s.(pods := s.pods[c := s.pods[c].(terminating := true)])
    case ClaimDelete(c) =>
      var o := Obj(s, c);
      WithClaim(s, c, o.(view := o.view.(deleting := true)))
    case Saw(x) => s.(history := h.(seeing := x))
    case Held(host) => s.(history := h.(held := Some(host)))
    case Emit(x) => s.(history := h.(owed := None, signals := h.signals + [Emitted(x, h.writes)]))
    case Stop => s.(history := h.(owed := None))
  }

  /** No placeholder but terminating ones, and no marker of the controller on any node. */
  predicate Clean(s: State) {
    && (forall n <- s.nodes :: Unmarked(s.nodes[n].state))
    && (forall c <- s.pods :: s.pods[c].terminating)
  }

  /** The pool is anchored on this claim, which is not a rolled-back one. */
  predicate Working(s: State, c: string)
    requires Ok(s)
  {
    && Pool(s).active == Some(c)
    && (Live(s, c) ==> NotesOf(s, c).phase != Failed)
  }

  // ----- when each write is made -----

  /** No gate a fresh start has to pass is closed. */
  predicate Startable(why: Start, now: Time) {
    && why.gate.now <= now && why.selection.now == why.gate.now
    && Decide.StartGate(why.gate) == Decide.GateNone
    && !why.staticPool && !why.fatalFindings
  }

  predicate PoolActAllowed(current: bool, s: State, a: PoolAct)
    requires Ok(s)
  {
    var p := Pool(s);
    match a
    case StampWindow(at) => at <= s.now && !p.openedAt.OpenedAt?
    case ClearWindow(at, census, stamp, missed) =>
      && at <= s.now && p.openedAt == stamp
      && Decide.WindowEdge(p, at, false, census) == if missed then Decide.WindowMissed else Decide.WindowSettled
    case Anchor(c, why) =>
      && p.active.None? && c in s.cells
      && Startable(why, s.now) && why.gate.notes == p
      && why.view.name == c && Eligible(why.view, why.selection)
      && (Decide.SurgelessFallback(why.view, why.gate) || why.fits)
      && (current ==> Live(s, c) ==> NotesOf(s, c).phase in {Fresh, Failed})
    case MarkDraining(_, c, mode) =>
      && (mode.Surgeless? ==> mode.view.name == c && Decide.SurgelessFallback(mode.view, mode.gate))
      && (current ==> p.active == Some(c) && (mode.Surgeless? || s.history.held.Some?))
    case MirrorDraining => !current
    case Release(at, how) =>
      && at <= s.now && Stamped(p, at)
      && (how.Completed? || how.Reaped? ==> p.active == Some(how.claim))
      && (how.Completed? ==> !Live(s, how.claim))
      && (current ==> Clean(s))
  }

  predicate ClaimActAllowed(current: bool, s: State, c: string, a: ClaimAct)
    requires Ok(s) && Live(s, c)
  {
    var n := NotesOf(s, c);
    && (match a
        case AssertPending(at) => n.phase in {Fresh, Pending} && Obj(s, c).view.createdAt <= at
        case NoteSurgeClaim(_) => n.phase == Pending
        case Drain(surgeless) => if surgeless then n.phase != Phase.Expired else n.phase == Pending
        case Fail(_) => n.phase == Pending
        case Expire(failed) => SeenDeleting(s.cells[c]) && if failed then n.phase == Failed else n.phase in {Fresh, Pending}
        case Reenter(why) =>
          && n.phase == Failed
          && Startable(why, s.now) && FailedPastBackoff(why.view, why.selection) && why.fits
          && (current ==> SamePool(why.gate.notes, Pool(s)) && why.view.notes == n))
    && (current ==>
          && Pool(s).active == Some(c)
          && (a.Drain? ==> Pool(s).draining && if a.surgeless then Pool(s).fallback else s.history.held.Some?)
          && (a.Fail? ==> Clean(s)))
  }

  /** The claim's placeholder is Running, not terminating, and not on the claim's own node. */
  predicate RunningOn(s: State, c: string, host: string)
    requires Ok(s)
  {
    && c in s.pods && c in s.cells
    && s.pods[c].running && !s.pods[c].terminating && s.pods[c].node == Some(host)
    && Obj(s, c).node.Some? && Obj(s, c).node != Some(host)
  }

  predicate ReadyHost(s: State, host: string) {
    host in s.nodes && s.nodes[host].ready && s.nodes[host].inPool
  }

  /** The host carries the claim's freeze, or has since disappeared for good. */
  predicate FrozenFor(s: State, host: string, c: string) {
    if host in s.nodes then s.nodes[host].state.Has(SurgeFor) && s.nodes[host].state.Get(SurgeFor) == c
    else host in s.usedNodes
  }

  predicate Allowed(current: bool, s: State, e: Event)
    requires Ok(s)
  {
    match e
    case Others => true
    case PoolWrite(a) => s.history.owed.None? && PoolActAllowed(current, s, a)
    case ClaimWrite(c, a) => s.history.owed.None? && Live(s, c) && ClaimActAllowed(current, s, c, a)
    case NodeWrite(n, op) =>
      && n in s.nodes
      && !op.DoUncordon?
      && (current && op.DoFreeze? ==> Working(s, op.claim))
      && (current && op.DoCordon? ==> s.nodes[n].state.Has(SurgeFor))
    case PodCreate(c) =>
      && c !in s.pods
      && (current ==> Working(s, c) && c in s.cells && Obj(s, c).node.Some?)
    case PodDelete(c) => c in s.pods
    case ClaimDelete(c) =>
      && Live(s, c)
      && (current && Pool(s).active == Some(c) ==>
            && Pool(s).draining
            && NotesOf(s, c).phase == Draining
            && (Pool(s).fallback || s.history.held.Some?))
    case Saw(x) =>
      && current && Pool(s).active.Some?
      && (match x
          case NothingSeen => false
          case SawRunning(host) => RunningOn(s, Pool(s).active.value, host)
          case SawReady(host) => s.history.seeing == SawRunning(host) && ReadyHost(s, host))
    case Held(host) =>
      && current && Pool(s).active.Some?
      && s.history.seeing == SawReady(host)
      && FrozenFor(s, host, Pool(s).active.value)
    case Emit(x) => s.history.owed == Some(x)
    case Stop => true
  }

  /** One step of a run. */
  predicate Next(current: bool, s: State, e: Event, t: State)
    requires Ok(s)
  {
    if e.Others? then ByOthers(s, t) else Allowed(current, s, e) && t == After(s, e)
  }
}
