/** Which Pods of a node have to re-land after its drain, and what they request
(internal/surge/requests.go, internal/surge/census.go). */
module Pods {
  import opened Options

  /** Amounts per resource; an absent resource counts as zero. */
  type Resources = map<string, int>

  function Amount(r: Resources, n: string): int {
    if n in r then r[n] else 0
  }

  datatype Owner = Owner(controller: bool, kind: string)

  datatype Operator = In | NotIn | Exists | DoesNotExist

  datatype Expression = Expression(key: string, operator: Operator, values: seq<string>)

  /** The effective request of a Pod is given. `terms` are the required node affinity's
  ORed selector terms, empty when there is none. */
  datatype Pod = Pod(
    node: string,
    owners: seq<Owner>,
    mirror: bool,
    completed: bool,
    hostSelector: Option<string>,
    terms: seq<seq<Expression>>,
    requests: Resources)

  const HOSTNAME := "kubernetes.io/hostname"

  predicate IsDaemonSet(p: Pod) {
    exists o <- p.owners :: o.controller && o.kind == "DaemonSet"
  }

  predicate IsInfraOrCompleted(p: Pod) {
    IsDaemonSet(p) || p.mirror || p.completed
  }

  // ----- node pinning -----

  /** The hosts an expression bounds the hostname to; None when it bounds nothing. */
  function BoundBy(e: Expression): Option<set<string>> {
    if e.key == HOSTNAME && e.operator == In && e.values != [] then Some(set v | v in e.values) else None
  }

  predicate Bounded(term: seq<Expression>) {
    exists e <- term :: BoundBy(e).Some?
  }

  /** The hosts the first k expressions of a term bound the hostname to. */
  function HostsOf(term: seq<Expression>, k: nat): set<string>
    requires k <= |term|
  {
    if k == 0 then {}
    else HostsOf(term, k - 1) + if BoundBy(term[k - 1]).Some? then BoundBy(term[k - 1]).value else {}
  }

  function HostsOfTerms(terms: seq<seq<Expression>>, k: nat): set<string>
    requires k <= |terms|
  {
    if k == 0 then {} else HostsOfTerms(terms, k - 1) + HostsOf(terms[k - 1], |terms[k - 1]|)
  }

  predicate PinnedByAffinity(terms: seq<seq<Expression>>, node: string) {
    && terms != []
    && (forall t <- terms :: Bounded(t))
    && HostsOfTerms(terms, |terms|) == {node}
  }

  predicate NodePinned(p: Pod, node: string) {
    if p.hostSelector.Some? then p.hostSelector.value == node else PinnedByAffinity(p.terms, node)
  }

  method IsNodePinned(p: Pod, node: string) returns (pinned: bool)
    ensures pinned == NodePinned(p, node)
  {
    if p.hostSelector.Some? { return p.hostSelector.value == node; }
    if |p.terms| == 0 { return false; }
    var hosts: set<string> := {};
    for i := 0 to |p.terms|
      invariant hosts == HostsOfTerms(p.terms, i)
      invariant forall t <- p.terms[..i] :: Bounded(t)
    {
      var term := p.terms[i];
      var bounded := false;
      for j := 0 to |term|
        invariant hosts == HostsOfTerms(p.terms, i) + HostsOf(term, j)
        invariant bounded <==> Bounded(term[..j])
      {
        var e := term[j];
        BoundedStep(term, j);
        if e.key == HOSTNAME {
          if e.operator == In && |e.values| > 0 {
            bounded := true;
            hosts := hosts + set v | v in e.values;
          }
        }
      }
      assert term[..|term|] == term;
      if !bounded {
        assert term in p.terms;
        return false;
      }
    }
    assert p.terms[..|p.terms|] == p.terms;
    OneElement(hosts, node);
    return |hosts| == 1 && node in hosts;
  }

  lemma BoundedStep(term: seq<Expression>, j: nat)
    requires j < |term|
    ensures Bounded(term[..j + 1]) <==> Bounded(term[..j]) || BoundBy(term[j]).Some?
  {
    assert term[..j + 1] == term[..j] + [term[j]];
  }

  lemma OneElement(hosts: set<string>, node: string)
    ensures |hosts| == 1 && node in hosts <==> hosts == {node}
  {
    if |hosts| == 1 && node in hosts {
      assert hosts - {node} == {} by { assert |hosts - {node}| == 0; }
    }
  }

  /** What the scheduler reads of an expression about the hostname. */
  predicate Admits(e: Expression, host: string) {
    e.key == HOSTNAME ==>
      match e.operator
      case In => host in e.values
      case NotIn => host !in e.values
      case Exists => true
      case DoesNotExist => false
  }

  /** As far as hostname constraints go, the Pod may run on this host. */
  predicate MayRunOn(p: Pod, host: string) {
    && (p.hostSelector.Some? ==> p.hostSelector.value == host)
    && (p.terms != [] ==> exists t <- p.terms :: forall e <- t :: Admits(e, host))
  }

  /** A Pod set aside as pinned really can run on no other host, so no reschedulable
  workload is left out of the sizing. */
  lemma PinnedRunsNowhereElse(p: Pod, node: string, host: string)
    requires NodePinned(p, node) && host != node
    ensures !MayRunOn(p, host)
  {
    if p.hostSelector.None? {
      forall t <- p.terms
        ensures exists e <- t :: !Admits(e, host)
      {
        var i :| 0 <= i < |p.terms| && p.terms[i] == t;
        assert Bounded(t);
        var e :| e in t && BoundBy(e).Some?;
        var j :| 0 <= j < |t| && t[j] == e;
        HostsIncluded(t, j, |t|);
        TermIncluded(p.terms, i, |p.terms|);
        OutsideTheBound(e, node, host);
      }
    }
  }

  lemma OutsideTheBound(e: Expression, node: string, host: string)
    requires BoundBy(e).Some? && BoundBy(e).value <= {node} && host != node
    ensures !Admits(e, host)
  {
    assert forall v <- e.values :: v in BoundBy(e).value;
  }

  lemma {:induction false} HostsIncluded(term: seq<Expression>, j: nat, k: nat)
    requires j < k <= |term| && BoundBy(term[j]).Some?
    ensures BoundBy(term[j]).value <= HostsOf(term, k)
    decreases k
  {
    if j < k - 1 { HostsIncluded(term, j, k - 1); }
  }

  lemma {:induction false} TermIncluded(terms: seq<seq<Expression>>, i: nat, k: nat)
    requires i < k <= |terms|
    ensures HostsOf(terms[i], |terms[i]|) <= HostsOfTerms(terms, k)
    decreases k
  {
    if i < k - 1 { TermIncluded(terms, i, k - 1); }
  }

  // ----- sums -----

  predicate Reschedulable(p: Pod, node: string) {
    p.node == node && !IsInfraOrCompleted(p) && !NodePinned(p, node)
  }

  /** A DaemonSet Pod still consuming: the overhead observed on the node. */
  predicate Overhead(p: Pod, node: string) {
    p.node == node && IsDaemonSet(p) && !p.completed
  }

  /** The Pods the scheduler has to have admitted: those on the node still consuming. */
  predicate Consuming(p: Pod, node: string) {
    p.node == node && !p.completed
  }

  function Added(dst: Resources, src: Resources): Resources {
    map n | n in dst.Keys + src.Keys :: Amount(dst, n) + Amount(src, n)
  }

  function Total(pods: seq<Pod>, counts: Pod -> bool): Resources {
    if pods == [] then map[]
    else
      var front, p := Total(pods[..|pods| - 1], counts), pods[|pods| - 1];
      if counts(p) then Added(front, p.requests) else front
  }

  /** The sum as far as the resources in `left` are still to be added. */
  function AddedBut(dst: Resources, src: Resources, left: set<string>): Resources {
    map n | n in dst.Keys + (src.Keys - left) :: Amount(dst, n) + if n in left then 0 else Amount(src, n)
  }

  lemma AddStep(dst: Resources, src: Resources, left: set<string>, n: string)
    requires n in left && left <= src.Keys
    ensures var sum := AddedBut(dst, src, left);
            AddedBut(dst, src, left - {n}) == sum[n := if n in sum then sum[n] + src[n] else src[n]]
  {
    var sum := AddedBut(dst, src, left);
    assert n in sum <==> n in dst;
  }

  lemma AddEnds(dst: Resources, src: Resources)
    ensures AddedBut(dst, src, src.Keys) == dst && AddedBut(dst, src, {}) == Added(dst, src)
  {
  }

  /** Accumulates src into dst, resource by resource. */
  method Add(dst: Resources, src: Resources) returns (sum: Resources)
    ensures sum == Added(dst, src)
  {
    hide AddedBut, Added;
    sum := dst;
    var names := src.Keys;
    AddEnds(dst, src);
    while names != {}
      invariant names <= src.Keys && sum == AddedBut(dst, src, names)
      decreases |names|
    {
      var n :| n in names;
      AddStep(dst, src, names, n);
      if n in sum {
        sum := sum[n := sum[n] + src[n]];
      } else {
        sum := sum[n := src[n]];
      }
      names := names - {n};
    }
  }

  /** What has to re-land, what fresh nodes carry anyway, and what the scheduler admitted. */
  function Drain(pods: seq<Pod>, node: string): Resources { Total(pods, p => Reschedulable(p, node)) }
  function OverheadOn(pods: seq<Pod>, node: string): Resources { Total(pods, p => Overhead(p, node)) }
  function Admitted(pods: seq<Pod>, node: string): Resources { Total(pods, p => Consuming(p, node)) }

  method ReschedulableRequests(pods: seq<Pod>, node: string) returns (total: Resources)
    ensures total == Drain(pods, node)
  {
    total := map[];
    for i := 0 to |pods|
      invariant total == Drain(pods[..i], node)
    {
      assert pods[..i + 1][..i] == pods[..i];
      var p := pods[i];
      if p.node == node && !IsInfraOrCompleted(p) {
        var pinned := IsNodePinned(p, node);
        if !pinned { total := Add(total, p.requests); }
      }
    }
    assert pods[..|pods|] == pods;
  }

  method DaemonSetRequests(pods: seq<Pod>, node: string) returns (total: Resources)
    ensures total == OverheadOn(pods, node)
  {
    total := map[];
    for i := 0 to |pods|
      invariant total == OverheadOn(pods[..i], node)
    {
      assert pods[..i + 1][..i] == pods[..i];
      var p := pods[i];
      if p.node == node && IsDaemonSet(p) && !p.completed {
        total := Add(total, p.requests);
      }
    }
    assert pods[..|pods|] == pods;
  }

  predicate NonNegative(pods: seq<Pod>) {
    forall p <- pods :: forall n <- p.requests :: 0 <= p.requests[n]
  }

  /** The drain and the overhead are disjoint parts of what the scheduler admitted. */
  lemma {:induction false} DrainPlusOverhead(pods: seq<Pod>, node: string, n: string)
    requires NonNegative(pods)
    ensures Amount(Drain(pods, node), n) + Amount(OverheadOn(pods, node), n) <= Amount(Admitted(pods, node), n)
    ensures 0 <= Amount(Drain(pods, node), n) && 0 <= Amount(OverheadOn(pods, node), n)
  {
    if pods != [] {
      var front, p := pods[..|pods| - 1], pods[|pods| - 1];
      assert forall q <- front :: q in pods;
      DrainPlusOverhead(front, node, n);
      assert p in pods && 0 <= Amount(p.requests, n);
    }
  }

  // ----- the census -----

  datatype PodCensus = PodCensus(counted: nat, daemonSet: nat, mirror: nat, completed: nat, nodePinned: nat)

  function ClassifyPod(c: PodCensus, p: Pod, node: string): PodCensus {
    if p.node != node then c
    else if IsDaemonSet(p) then c.(daemonSet := c.daemonSet + 1)
    else if p.mirror then c.(mirror := c.mirror + 1)
    else if p.completed then c.(completed := c.completed + 1)
    else if NodePinned(p, node) then c.(nodePinned := c.nodePinned + 1)
    else c.(counted := c.counted + 1)
  }

  function PodCensusOf(pods: seq<Pod>, node: string): PodCensus {
    if pods == [] then PodCensus(0, 0, 0, 0, 0)
    else ClassifyPod(PodCensusOf(pods[..|pods| - 1], node), pods[|pods| - 1], node)
  }

  method CensusOnNode(pods: seq<Pod>, node: string) returns (c: PodCensus)
    ensures c == PodCensusOf(pods, node)
  {
    c := PodCensus(0, 0, 0, 0, 0);
    for i := 0 to |pods|
      invariant c == PodCensusOf(pods[..i], node)
    {
      assert pods[..i + 1][..i] == pods[..i];
      c := ClassifyPod(c, pods[i], node);
    }
    assert pods[..|pods|] == pods;
  }

  function CountPods(pods: seq<Pod>, f: Pod -> bool): nat {
    if pods == [] then 0 else CountPods(pods[..|pods| - 1], f) + if f(pods[|pods| - 1]) then 1 else 0
  }

  /** The buckets partition the Pods of the node, and the counted one is exactly what
  sizes the placeholder: with none counted, nothing is requested. */
  lemma {:induction false} CensusMatchesSizing(pods: seq<Pod>, node: string)
    ensures var c := PodCensusOf(pods, node);
            && c.counted + c.daemonSet + c.mirror + c.completed + c.nodePinned == CountPods(pods, (p: Pod) => p.node == node)
            && c.counted == CountPods(pods, (p: Pod) => Reschedulable(p, node))
            && (c.counted == 0 ==> Drain(pods, node) == map[])
  {
    if pods != [] { CensusMatchesSizing(pods[..|pods| - 1], node); }
  }
}
