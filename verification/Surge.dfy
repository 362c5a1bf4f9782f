/** How large the surge placeholder is: the drain, raised to a whole node in that mode,
capped at what Karpenter plans a fresh node of the candidate's type against
(internal/surge/clamp.go, internal/surge/wholenode.go, placeholderSizing in
internal/controller/rotation_controller.go). */
module Surge {
  import opened Options
  import opened Pods
  import opened Sorting
  import Names

  // ----- names in order -----

  predicate NameOrder(a: string, b: string) { !Names.Less(b, a) }

  lemma NameOrderIsTotal()
    ensures TotalOrder(NameOrder)
  {
    forall a, b
      ensures NameOrder(a, b) || NameOrder(b, a)
    {
      Names.LessIrreflexive(a);
      if Names.Less(a, b) && Names.Less(b, a) { Names.LessTransitive(a, b, a); }
    }
    forall a, b, c | NameOrder(a, b) && NameOrder(b, c)
      ensures NameOrder(a, c)
    {
      Names.LessTotal(a, b);
      Names.LessTotal(b, c);
      if Names.Less(c, a) {
        if a == b || b == c {
        } else {
          Names.LessTransitive(a, b, c);
          Names.LessTransitive(c, a, c);
          Names.LessIrreflexive(c);
        }
      }
    }
  }

  method SortedNames(names: set<string>) returns (sorted: seq<string>)
    ensures SortedBy(NameOrder, sorted) && forall n :: n in sorted <==> n in names
  {
    var listed: seq<string> := [];
    var left := names;
    while left != {}
      invariant left <= names && forall n :: n in listed <==> n in names - left
      decreases |left|
    {
      var n :| n in left;
      listed := listed + [n];
      left := left - {n};
    }
    NameOrderIsTotal();
    SortIsSorted(NameOrder, listed);
    sorted := Sort(NameOrder, listed);
  }

  // ----- the ceiling -----

  /** Allocatable minus the overhead observed; None where allocatable reports nothing. */
  function Limit(allocatable: Resources, daemonSet: Resources, n: string): Option<int> {
    if n in allocatable then Some(allocatable[n] - Amount(daemonSet, n)) else None
  }

  /** The per-resource gap between what the node reports and what Karpenter plans with. */
  function BandOf(node: Resources, claim: Resources): Resources {
    map n | n in node.Keys * claim.Keys :: if node[n] < claim[n] then 0 else node[n] - claim[n]
  }

  method Band(node: Resources, claim: Resources) returns (band: Resources)
    ensures band == BandOf(node, claim)
  {
    band := map[];
    var names := node.Keys;
    while names != {}
      invariant names <= node.Keys
      invariant band.Keys == (node.Keys - names) * claim.Keys
      invariant forall n <- band :: band[n] == BandOf(node, claim)[n]
      decreases |names|
    {
      var n :| n in names;
      names := names - {n};
      if n in claim {
        var gap := node[n] - claim[n];
        if gap < 0 { gap := 0; }
        band := band[n := gap];
      }
    }
  }

  /** The first resource, by name, whose shortfall exceeds its band. */
  method ExceedsBand(shortfall: Resources, band: Resources) returns (over: Option<string>)
    ensures over.None? ==> forall n <- shortfall :: shortfall[n] <= Amount(band, n)
    ensures over.Some? ==>
              && over.value in shortfall && Amount(band, over.value) < shortfall[over.value]
              && forall n <- shortfall :: Amount(band, n) < shortfall[n] ==> NameOrder(over.value, n)
  {
    var names := SortedNames(shortfall.Keys);
    for i := 0 to |names|
      invariant forall j :: 0 <= j < i ==> names[j] in shortfall && shortfall[names[j]] <= Amount(band, names[j])
    {
      if shortfall[names[i]] > Amount(band, names[i]) {
        FirstInOrder(names, i);
        return Some(names[i]);
      }
    }
    return None;
  }

  lemma FirstInOrder(names: seq<string>, i: nat)
    requires i < |names| && SortedBy(NameOrder, names)
    ensures forall n <- names[i..] :: NameOrder(names[i], n)
    ensures forall n <- names :: n in names[..i] || n in names[i..]
  {
    Names.LessIrreflexive(names[i]);
    assert names == names[..i] + names[i..];
  }

  // ----- the clamp -----

  /** `limit` and `shortfall` carry exactly the resources lowered; `refused` names the
  resource that forced the whole drain to be kept. */
  datatype ClampResult = ClampResult(
    requests: Resources,
    clamped: bool,
    limit: Resources,
    shortfall: Resources,
    refused: Option<string>)

  function Unclamped(requests: Resources): ClampResult { ClampResult(requests, false, map[], map[], None) }

  /** A positive demand under a ceiling that leaves none of it. */
  predicate Refusing(requests: Resources, allocatable: Resources, daemonSet: Resources, n: string) {
    n in requests && 0 < requests[n] && Limit(allocatable, daemonSet, n).Some? && Limit(allocatable, daemonSet, n).value <= 0
  }

  /** A demand above a positive ceiling. */
  predicate Over(requests: Resources, allocatable: Resources, daemonSet: Resources, n: string) {
    && n in requests && Limit(allocatable, daemonSet, n).Some?
    && 0 < Limit(allocatable, daemonSet, n).value < requests[n]
  }

  /** What the clamp makes of one resource. */
  function Capped(requests: Resources, allocatable: Resources, daemonSet: Resources, n: string): int
    requires n in requests
  {
    if Over(requests, allocatable, daemonSet, n) then Limit(allocatable, daemonSet, n).value else requests[n]
  }

  /** The clamp's outcome: unchanged without a ceiling; the whole drain, naming the first
  resource refused; or every resource lowered to its ceiling, with what was given up. */
  ghost predicate IsClamp(requests: Resources, allocatable: Resources, daemonSet: Resources, r: ClampResult) {
    if allocatable == map[] then r == Unclamped(requests)
    else if r.refused.Some? then
      && r == Unclamped(requests).(refused := r.refused)
      && Refusing(requests, allocatable, daemonSet, r.refused.value)
      && forall n <- requests :: Refusing(requests, allocatable, daemonSet, n) ==> NameOrder(r.refused.value, n)
    else
      && (forall n <- requests :: !Refusing(requests, allocatable, daemonSet, n))
      && r.requests.Keys == requests.Keys
      && (forall n <- requests :: r.requests[n] == Capped(requests, allocatable, daemonSet, n))
      && Lowered(requests, allocatable, daemonSet, r)
  }

  ghost predicate Lowered(requests: Resources, allocatable: Resources, daemonSet: Resources, r: ClampResult) {
    && (r.clamped <==> r.shortfall != map[])
    && r.limit.Keys == r.shortfall.Keys
    && (forall n :: n in r.shortfall <==> Over(requests, allocatable, daemonSet, n))
    && (forall n <- r.shortfall :: r.limit[n] == Limit(allocatable, daemonSet, n).value && r.shortfall[n] == requests[n] - r.limit[n])
  }

  /** The clamp after the names in `done`. */
  ghost predicate ClampedSoFar(requests: Resources, allocatable: Resources, daemonSet: Resources, done: set<string>, r: ClampResult) {
    && r.refused.None?
    && RequestsSoFar(requests, allocatable, daemonSet, done, r.requests)
    && (forall n <- done :: !Refusing(requests, allocatable, daemonSet, n))
    && (r.clamped <==> r.shortfall != map[])
    && ShortfallsSoFar(requests, allocatable, daemonSet, done, r.limit, r.shortfall)
  }

  ghost predicate RequestsSoFar(requests: Resources, allocatable: Resources, daemonSet: Resources, done: set<string>, now: Resources) {
    && now.Keys == requests.Keys
    && (forall n <- requests :: now[n] == if n in done then Capped(requests, allocatable, daemonSet, n) else requests[n])
  }

  ghost predicate ShortfallsSoFar(requests: Resources, allocatable: Resources, daemonSet: Resources, done: set<string>,
                                  limit: Resources, shortfall: Resources) {
    && limit.Keys == shortfall.Keys
    && (forall n :: n in shortfall <==> n in done && Over(requests, allocatable, daemonSet, n))
    && (forall n <- shortfall :: limit[n] == Limit(allocatable, daemonSet, n).value && shortfall[n] == requests[n] - limit[n])
  }

  /** The first i names. */
  function Taken(names: seq<string>, i: nat): set<string>
    requires i <= |names|
  {
    if i == 0 then {} else Taken(names, i - 1) + {names[i - 1]}
  }

  lemma {:induction false} TakenMembers(names: seq<string>, i: nat)
    requires i <= |names|
    ensures forall n :: n in Taken(names, i) <==> n in names[..i]
  {
    if i > 0 {
      TakenMembers(names, i - 1);
      assert names[..i] == names[..i - 1] + [names[i - 1]];
    }
  }

  method Clamp(requests: Resources, allocatable: Resources, daemonSet: Resources) returns (r: ClampResult)
    ensures IsClamp(requests, allocatable, daemonSet, r)
  {
    hide *;
    if |allocatable| == 0 {
      NoCeiling(requests, allocatable, daemonSet);
      return Unclamped(requests);
    }
    r := Unclamped(requests);
    var names := SortedNames(requests.Keys);
    ClampStart(requests, allocatable, daemonSet, names);
    for i := 0 to |names|
      invariant ClampedSoFar(requests, allocatable, daemonSet, Taken(names, i), r)
    {
      ClampedKeys(requests, allocatable, daemonSet, names, i, r);
      var n := names[i];
      var want, limit := requests[n], Limit(allocatable, daemonSet, n);
      if limit.Some? && limit.value <= 0 && 0 < want {
        RefusedFirst(requests, allocatable, daemonSet, names, i, r);
        return Unclamped(requests).(refused := Some(n));
      }
      if limit.Some? && 0 < limit.value && limit.value < want {
        StepOver(requests, allocatable, daemonSet, names, i, r);
        r := Lower(r, n, limit.value, want);
      } else {
        StepPast(requests, allocatable, daemonSet, names, i, r);
      }
    }
    ClampFinished(requests, allocatable, daemonSet, names, r);
  }

  /** The clamp's record of one resource lowered from `want` to its ceiling. */
  function Lower(r: ClampResult, n: string, limit: int, want: int): ClampResult {
    ClampResult(r.requests[n := limit], true, r.limit[n := limit], r.shortfall[n := want - limit], None)
  }

  lemma NoCeiling(requests: Resources, allocatable: Resources, daemonSet: Resources)
    requires |allocatable| == 0
    ensures IsClamp(requests, allocatable, daemonSet, Unclamped(requests))
  {
    assert allocatable == map[];
  }

  lemma ClampStart(requests: Resources, allocatable: Resources, daemonSet: Resources, names: seq<string>)
    ensures ClampedSoFar(requests, allocatable, daemonSet, Taken(names, 0), Unclamped(requests))
  {
  }

  lemma ClampedKeys(requests: Resources, allocatable: Resources, daemonSet: Resources, names: seq<string>, i: nat, r: ClampResult)
    requires i < |names| && (forall n :: n in names <==> n in requests)
    requires ClampedSoFar(requests, allocatable, daemonSet, Taken(names, i), r)
    ensures names[i] in requests
  {
    assert names[i] in names;
  }

  lemma ClampFinished(requests: Resources, allocatable: Resources, daemonSet: Resources, names: seq<string>, r: ClampResult)
    requires ClampedSoFar(requests, allocatable, daemonSet, Taken(names, |names|), r) && |allocatable| != 0
    requires forall n :: n in names <==> n in requests
    ensures IsClamp(requests, allocatable, daemonSet, r)
  {
    TakenMembers(names, |names|);
    assert names[..|names|] == names;
    assert forall n <- requests :: n in Taken(names, |names|);
  }

  lemma StepOver(requests: Resources, allocatable: Resources, daemonSet: Resources, names: seq<string>, i: nat, r: ClampResult)
    requires i < |names| && names[i] in requests && ClampedSoFar(requests, allocatable, daemonSet, Taken(names, i), r)
    requires Limit(allocatable, daemonSet, names[i]).Some? && 0 < Limit(allocatable, daemonSet, names[i]).value < requests[names[i]]
    ensures ClampedSoFar(requests, allocatable, daemonSet, Taken(names, i + 1),
                         Lower(r, names[i], Limit(allocatable, daemonSet, names[i]).value, requests[names[i]]))
  {
    LowerOne(requests, allocatable, daemonSet, Taken(names, i), r, names[i]);
  }

  lemma LowerOne(requests: Resources, allocatable: Resources, daemonSet: Resources, done: set<string>, r: ClampResult, n: string)
    requires ClampedSoFar(requests, allocatable, daemonSet, done, r) && Over(requests, allocatable, daemonSet, n)
    ensures ClampedSoFar(requests, allocatable, daemonSet, done + {n}, Lower(r, n, Limit(allocatable, daemonSet, n).value, requests[n]))
  {
    hide Limit, Capped, RequestsSoFar, ShortfallsSoFar;
    LowerRequest(requests, allocatable, daemonSet, done, r.requests, n);
    LowerShortfall(requests, allocatable, daemonSet, done, r.limit, r.shortfall, n);
    assert n in r.shortfall[n := requests[n] - Limit(allocatable, daemonSet, n).value];
  }

  lemma LowerRequest(requests: Resources, allocatable: Resources, daemonSet: Resources, done: set<string>, now: Resources, n: string)
    requires RequestsSoFar(requests, allocatable, daemonSet, done, now) && Over(requests, allocatable, daemonSet, n)
    ensures RequestsSoFar(requests, allocatable, daemonSet, done + {n}, now[n := Limit(allocatable, daemonSet, n).value])
  {
    hide Limit;
  }

  lemma LowerShortfall(requests: Resources, allocatable: Resources, daemonSet: Resources, done: set<string>,
                       limit: Resources, shortfall: Resources, n: string)
    requires ShortfallsSoFar(requests, allocatable, daemonSet, done, limit, shortfall) && Over(requests, allocatable, daemonSet, n)
    ensures var l := Limit(allocatable, daemonSet, n).value;
            ShortfallsSoFar(requests, allocatable, daemonSet, done + {n}, limit[n := l], shortfall[n := requests[n] - l])
  {
    hide Limit;
  }

  lemma StepPast(requests: Resources, allocatable: Resources, daemonSet: Resources, names: seq<string>, i: nat, r: ClampResult)
    requires i < |names| && names[i] in requests && ClampedSoFar(requests, allocatable, daemonSet, Taken(names, i), r)
    requires var limit := Limit(allocatable, daemonSet, names[i]);
             && !(limit.Some? && limit.value <= 0 && 0 < requests[names[i]])
             && !(limit.Some? && 0 < limit.value && limit.value < requests[names[i]])
    ensures ClampedSoFar(requests, allocatable, daemonSet, Taken(names, i + 1), r)
  {
    PastOne(requests, allocatable, daemonSet, Taken(names, i), r, names[i]);
  }

  /** A resource under its ceiling, or without one, changes nothing. */
  lemma PastOne(requests: Resources, allocatable: Resources, daemonSet: Resources, done: set<string>, r: ClampResult, n: string)
    requires ClampedSoFar(requests, allocatable, daemonSet, done, r) && n in requests
    requires !Over(requests, allocatable, daemonSet, n) && !Refusing(requests, allocatable, daemonSet, n)
    ensures ClampedSoFar(requests, allocatable, daemonSet, done + {n}, r)
  {
    hide Limit, RequestsSoFar, ShortfallsSoFar;
    PastRequest(requests, allocatable, daemonSet, done, r.requests, n);
    assert ShortfallsSoFar(requests, allocatable, daemonSet, done + {n}, r.limit, r.shortfall) by {
      PastShortfall(requests, allocatable, daemonSet, done, r.limit, r.shortfall, n);
    }
  }

  lemma PastRequest(requests: Resources, allocatable: Resources, daemonSet: Resources, done: set<string>, now: Resources, n: string)
    requires RequestsSoFar(requests, allocatable, daemonSet, done, now) && n in requests
    requires !Over(requests, allocatable, daemonSet, n) && !Refusing(requests, allocatable, daemonSet, n)
    ensures RequestsSoFar(requests, allocatable, daemonSet, done + {n}, now)
  {
  }

  lemma PastShortfall(requests: Resources, allocatable: Resources, daemonSet: Resources, done: set<string>,
                      limit: Resources, shortfall: Resources, n: string)
    requires ShortfallsSoFar(requests, allocatable, daemonSet, done, limit, shortfall) && !Over(requests, allocatable, daemonSet, n)
    ensures ShortfallsSoFar(requests, allocatable, daemonSet, done + {n}, limit, shortfall)
  {
    hide Limit;
  }

  lemma RefusedFirst(requests: Resources, allocatable: Resources, daemonSet: Resources, names: seq<string>, i: nat, r: ClampResult)
    requires SortedBy(NameOrder, names) && i < |names|
    requires (forall n :: n in names <==> n in requests) && ClampedSoFar(requests, allocatable, daemonSet, Taken(names, i), r)
    requires |allocatable| != 0 && names[i] in requests && 0 < requests[names[i]]
    requires Limit(allocatable, daemonSet, names[i]).Some? && Limit(allocatable, daemonSet, names[i]).value <= 0
    ensures IsClamp(requests, allocatable, daemonSet, Unclamped(requests).(refused := Some(names[i])))
  {
    FirstInOrder(names, i);
    TakenMembers(names, i);
  }

  // ----- what the clamp keeps -----

  /** Nothing is lost: what is still requested and what was given up make the drain. */
  lemma NothingIsLost(requests: Resources, allocatable: Resources, daemonSet: Resources, r: ClampResult, n: string)
    requires IsClamp(requests, allocatable, daemonSet, r)
    ensures Amount(r.requests, n) + Amount(r.shortfall, n) == Amount(requests, n)
  {
  }

  /** No demand ends at zero: a resource the drain needs is still reserved for. */
  lemma NoDemandVanishes(requests: Resources, allocatable: Resources, daemonSet: Resources, r: ClampResult, n: string)
    requires IsClamp(requests, allocatable, daemonSet, r) && 0 < Amount(requests, n)
    ensures 0 < Amount(r.requests, n) <= Amount(requests, n)
  {
  }

  /** Clamping twice changes nothing more, and a refusal is refused again. */
  lemma ClampIdempotent(requests: Resources, allocatable: Resources, daemonSet: Resources, r: ClampResult, again: ClampResult)
    requires IsClamp(requests, allocatable, daemonSet, r) && IsClamp(r.requests, allocatable, daemonSet, again)
    ensures again.requests == r.requests && !again.clamped && again.shortfall == map[]
    ensures again.refused == r.refused
  {
    if allocatable != map[] && r.refused.None? {
      forall n
        ensures !Over(r.requests, allocatable, daemonSet, n) && !Refusing(r.requests, allocatable, daemonSet, n)
      {
        if n in requests { assert !Refusing(requests, allocatable, daemonSet, n); }
      }
    } else if r.refused.Some? {
      SameRefusal(requests, allocatable, daemonSet, r, again);
    }
  }

  lemma SameRefusal(requests: Resources, allocatable: Resources, daemonSet: Resources, a: ClampResult, b: ClampResult)
    requires IsClamp(requests, allocatable, daemonSet, a) && IsClamp(requests, allocatable, daemonSet, b) && a.refused.Some?
    ensures b.refused == a.refused
  {
    assert Refusing(requests, allocatable, daemonSet, a.refused.value);
    if b.refused.Some? {
      Names.LessTotal(a.refused.value, b.refused.value);
    }
  }

  /** What the clamp gives up stays within the band the two allocatables are apart,
  provided the scheduler admitted the Pods on the node against what the node reports. */
  lemma ShortfallWithinBand(pods: seq<Pod>, node: string, nodeAllocatable: Resources, claimAllocatable: Resources, r: ClampResult)
    requires NonNegative(pods)
    requires forall n :: Amount(Admitted(pods, node), n) <= Amount(nodeAllocatable, n)
    requires IsClamp(Drain(pods, node), claimAllocatable,
                     OverheadOn(pods, node), r)
    ensures forall n <- r.shortfall :: 0 < r.shortfall[n] <= Amount(BandOf(nodeAllocatable, claimAllocatable), n)
  {
    forall n <- r.shortfall
      ensures 0 < r.shortfall[n] <= Amount(BandOf(nodeAllocatable, claimAllocatable), n)
    {
      DrainPlusOverhead(pods, node, n);
      ShortfallOf(Drain(pods, node), claimAllocatable, OverheadOn(pods, node), r, n);
    }
  }

  lemma ShortfallOf(requests: Resources, allocatable: Resources, daemonSet: Resources, r: ClampResult, n: string)
    requires IsClamp(requests, allocatable, daemonSet, r) && n in r.shortfall
    ensures n in allocatable && 0 < allocatable[n] - Amount(daemonSet, n) < Amount(requests, n)
    ensures r.shortfall[n] == Amount(requests, n) + Amount(daemonSet, n) - allocatable[n]
  {
  }

  // ----- the whole-node reservation -----

  const CPU := "cpu"
  const MEMORY := "memory"

  predicate Mandatory(n: string) { n == CPU || n == MEMORY }

  /** What the whole-node mode requests of one resource; None for nothing. */
  function Raised(requests: Resources, allocatable: Resources, daemonSet: Resources, n: string): Option<int> {
    var want := if n in requests then Some(requests[n]) else None;
    var limit := Limit(allocatable, daemonSet, n);
    if limit.None? || !(Mandatory(n) || n in requests) then want
    else if 0 < limit.value then Some(if want.Some? && limit.value <= want.value then want.value else limit.value)
    else if Mandatory(n) && (want.None? || want.value <= 0) && 0 < allocatable[n] then Some(allocatable[n])
    else want
  }

  ghost predicate IsWholeNode(requests: Resources, allocatable: Resources, daemonSet: Resources, pods: nat, out: Resources) {
    if pods == 0 || allocatable == map[] then out == requests
    else forall n :: RaisedTo(requests, allocatable, daemonSet, n, out)
  }

  ghost predicate RaisedTo(requests: Resources, allocatable: Resources, daemonSet: Resources, n: string, out: Resources) {
    (if n in out then Some(out[n]) else None) == Raised(requests, allocatable, daemonSet, n)
  }

  /** One resource lifted to the ceiling; where the ceiling leaves nothing of a mandatory
  one, a demand for the clamp to refuse on. */
  function RaisedOne(out: Resources, n: string, allocatable: Resources, daemonSet: Resources, mandatory: bool): Resources {
    var limit := Limit(allocatable, daemonSet, n);
    if limit.None? then out
    else if limit.value <= 0 then
      if mandatory && Amount(out, n) <= 0 && 0 < allocatable[n] then out[n := allocatable[n]] else out
    else if n in out && limit.value <= out[n] then out
    else out[n := limit.value]
  }

  method Raise(out: Resources, n: string, allocatable: Resources, daemonSet: Resources, mandatory: bool) returns (r: Resources)
    ensures r == RaisedOne(out, n, allocatable, daemonSet, mandatory)
  {
    var limit := Limit(allocatable, daemonSet, n);
    if limit.None? { return out; }
    if limit.value <= 0 {
      if mandatory {
        if n in out && 0 < out[n] { return out; }
        if allocatable[n] <= 0 { return out; }
        return out[n := allocatable[n]];
      }
      return out;
    }
    if n in out && limit.value <= out[n] { return out; }
    return out[n := limit.value];
  }

  method WholeNode(requests: Resources, allocatable: Resources, daemonSet: Resources, pods: nat) returns (out: Resources)
    ensures IsWholeNode(requests, allocatable, daemonSet, pods, out)
  {
    if pods == 0 || |allocatable| == 0 { return requests; }
    hide RaisedOne, RaisedButFor, RaisedTo;
    out := Raise(requests, CPU, allocatable, daemonSet, true);
    out := Raise(out, MEMORY, allocatable, daemonSet, true);
    MandatoryRaised(requests, allocatable, daemonSet);
    var names := requests.Keys;
    while names != {}
      invariant names <= requests.Keys
      invariant forall n :: RaisedButFor(requests, allocatable, daemonSet, n, names, out)
      decreases |names|
    {
      var n :| n in names;
      RaiseStep(requests, allocatable, daemonSet, names, out, n);
      out := Raise(out, n, allocatable, daemonSet, false);
      names := names - {n};
    }
    AllRaised(requests, allocatable, daemonSet, out);
  }

  lemma MandatoryRaised(requests: Resources, allocatable: Resources, daemonSet: Resources)
    ensures var out := RaisedOne(RaisedOne(requests, CPU, allocatable, daemonSet, true), MEMORY, allocatable, daemonSet, true);
            forall n :: RaisedButFor(requests, allocatable, daemonSet, n, requests.Keys, out)
  {
    assert CPU[0] != MEMORY[0];
  }

  lemma RaiseStep(requests: Resources, allocatable: Resources, daemonSet: Resources, names: set<string>, out: Resources, n: string)
    requires n in names && names <= requests.Keys && forall m :: RaisedButFor(requests, allocatable, daemonSet, m, names, out)
    ensures forall m :: RaisedButFor(requests, allocatable, daemonSet, m, names - {n}, RaisedOne(out, n, allocatable, daemonSet, false))
  {
    forall m
      ensures RaisedButFor(requests, allocatable, daemonSet, m, names - {n}, RaisedOne(out, n, allocatable, daemonSet, false))
    {
      assert RaisedButFor(requests, allocatable, daemonSet, m, names, out);
    }
  }

  lemma AllRaised(requests: Resources, allocatable: Resources, daemonSet: Resources, out: Resources)
    requires forall n :: RaisedButFor(requests, allocatable, daemonSet, n, {}, out)
    ensures forall n :: RaisedTo(requests, allocatable, daemonSet, n, out)
  {
    hide RaisedTo;
    forall n
      ensures RaisedTo(requests, allocatable, daemonSet, n, out)
    {
      assert RaisedButFor(requests, allocatable, daemonSet, n, {}, out);
    }
  }

  /** Raised already, unless it is still to come. */
  ghost predicate RaisedButFor(requests: Resources, allocatable: Resources, daemonSet: Resources, n: string, left: set<string>, out: Resources) {
    if n in left && !Mandatory(n) then n in requests && n in out && out[n] == requests[n]
    else RaisedTo(requests, allocatable, daemonSet, n, out)
  }

  /** The two directions of the same ceiling agree: the clamp of a whole-node request
  either refuses, or yields exactly the ceiling on cpu, memory and every resource of the
  drain with a positive one, giving up what the clamp of the drain alone gives up. */
  lemma WholeNodeMeetsTheCeiling(
      drain: Resources, allocatable: Resources, daemonSet: Resources, pods: nat,
      whole: Resources, r: ClampResult, alone: ClampResult)
    requires pods > 0 && allocatable != map[]
    requires IsWholeNode(drain, allocatable, daemonSet, pods, whole)
    requires IsClamp(whole, allocatable, daemonSet, r) && IsClamp(drain, allocatable, daemonSet, alone)
    ensures r.refused.None? ==> alone.refused.None? && r.shortfall == alone.shortfall
    ensures r.refused.None? ==> forall n :: Reservable(drain, allocatable, daemonSet, n) ==>
              n in r.requests && r.requests[n] == Limit(allocatable, daemonSet, n).value
  {
    if r.refused.None? {
      forall n
        ensures Over(whole, allocatable, daemonSet, n) <==> Over(drain, allocatable, daemonSet, n)
        ensures n in whole && n in drain && Over(drain, allocatable, daemonSet, n) ==> whole[n] == drain[n]
        ensures Refusing(drain, allocatable, daemonSet, n) ==> Refusing(whole, allocatable, daemonSet, n)
        ensures Reservable(drain, allocatable, daemonSet, n) ==> n in whole && Limit(allocatable, daemonSet, n).value <= whole[n]
      {
        RaisedFacts(drain, allocatable, daemonSet, n, whole);
      }
      hide IsWholeNode, Limit;
      NotRefused(drain, allocatable, daemonSet, alone);
      SameShortfall(drain, whole, allocatable, daemonSet, r, alone);
      forall n | Reservable(drain, allocatable, daemonSet, n)
        ensures n in r.requests && r.requests[n] == Limit(allocatable, daemonSet, n).value
      {
        assert r.requests[n] == Capped(whole, allocatable, daemonSet, n);
      }
    }
  }

  lemma NotRefused(requests: Resources, allocatable: Resources, daemonSet: Resources, r: ClampResult)
    requires IsClamp(requests, allocatable, daemonSet, r) && forall n :: !Refusing(requests, allocatable, daemonSet, n)
    ensures r.refused.None?
  {
  }

  /** A resource the whole-node mode raises, with something to raise it to. */
  predicate Reservable(drain: Resources, allocatable: Resources, daemonSet: Resources, n: string) {
    (Mandatory(n) || n in drain) && Limit(allocatable, daemonSet, n).Some? && 0 < Limit(allocatable, daemonSet, n).value
  }

  lemma RaisedFacts(drain: Resources, allocatable: Resources, daemonSet: Resources, n: string, whole: Resources)
    requires RaisedTo(drain, allocatable, daemonSet, n, whole)
    ensures Over(whole, allocatable, daemonSet, n) <==> Over(drain, allocatable, daemonSet, n)
    ensures n in whole && n in drain && Over(drain, allocatable, daemonSet, n) ==> whole[n] == drain[n]
    ensures Refusing(drain, allocatable, daemonSet, n) ==> Refusing(whole, allocatable, daemonSet, n)
    ensures Reservable(drain, allocatable, daemonSet, n) ==> n in whole && Limit(allocatable, daemonSet, n).value <= whole[n]
  {
  }

  lemma SameShortfall(drain: Resources, whole: Resources, allocatable: Resources, daemonSet: Resources, r: ClampResult, alone: ClampResult)
    requires Lowered(whole, allocatable, daemonSet, r) && Lowered(drain, allocatable, daemonSet, alone)
    requires forall n :: Over(whole, allocatable, daemonSet, n) <==> Over(drain, allocatable, daemonSet, n)
    requires forall n :: n in whole && n in drain && Over(drain, allocatable, daemonSet, n) ==> whole[n] == drain[n]
    ensures r.shortfall == alone.shortfall
  {
    assert r.shortfall.Keys == alone.shortfall.Keys;
  }

  /** In the whole-node mode a workload is never reserved for with nothing: unless the
  node reports neither cpu nor memory, the request is positive somewhere. */
  lemma NeverAnEmptyReservation(drain: Resources, allocatable: Resources, daemonSet: Resources, pods: nat, whole: Resources, r: ClampResult, n: string)
    requires pods > 0 && Mandatory(n) && 0 < Amount(allocatable, n)
    requires IsWholeNode(drain, allocatable, daemonSet, pods, whole) && IsClamp(whole, allocatable, daemonSet, r)
    ensures 0 < Amount(r.requests, n)
  {
    assert RaisedTo(drain, allocatable, daemonSet, n, whole);
    NoDemandVanishes(whole, allocatable, daemonSet, r, n);
  }

  // ----- the placeholder -----

  /** The one sizing the gate pre-checks and the placeholder is built from. */
  method PlaceholderSizing(pods: seq<Pod>, node: string, allocatable: Resources, wholeNode: bool)
    returns (drain: Resources, r: ClampResult, ghost requests: Resources)
    ensures drain == Drain(pods, node)
    ensures if wholeNode then
              IsWholeNode(drain, allocatable, OverheadOn(pods, node), PodCensusOf(pods, node).counted, requests)
            else requests == drain
    ensures IsClamp(requests, allocatable, OverheadOn(pods, node), r)
  {
    drain := ReschedulableRequests(pods, node);
    var daemonSet := DaemonSetRequests(pods, node);
    var wanted := drain;
    if wholeNode {
      var census := CensusOnNode(pods, node);
      wanted := WholeNode(drain, allocatable, daemonSet, census.counted);
    }
    requests := wanted;
    r := Clamp(wanted, allocatable, daemonSet);
  }

  /** In either mode the placeholder's shortfall stays within the measured band. */
  lemma SizingWithinBand(pods: seq<Pod>, node: string, nodeAllocatable: Resources, claimAllocatable: Resources,
                         wholeNode: bool, requests: Resources, r: ClampResult, alone: ClampResult)
    requires NonNegative(pods)
    requires forall n :: Amount(Admitted(pods, node), n) <= Amount(nodeAllocatable, n)
    requires var drain, overhead := Drain(pods, node), OverheadOn(pods, node);
             && IsClamp(drain, claimAllocatable, overhead, alone) && IsClamp(requests, claimAllocatable, overhead, r)
             && if wholeNode then IsWholeNode(drain, claimAllocatable, overhead, PodCensusOf(pods, node).counted, requests)
                else requests == drain
    ensures forall n <- r.shortfall :: 0 < r.shortfall[n] <= Amount(BandOf(nodeAllocatable, claimAllocatable), n)
  {
    var drain, overhead := Drain(pods, node), OverheadOn(pods, node);
    var counted := PodCensusOf(pods, node).counted;
    if requests == drain {
      ShortfallWithinBand(pods, node, nodeAllocatable, claimAllocatable, r);
    } else {
      WholeNodeMeetsTheCeiling(drain, claimAllocatable, overhead, counted, requests, r, alone);
      ShortfallWithinBand(pods, node, nodeAllocatable, claimAllocatable, alone);
    }
  }
}
