/**
 What every step of the API server keeps: the lists agree with the queries they cache, the counters of a
 deployment agree with its pods and with the deletions still under way, and etcd has enough to rebuild the lists.
 */
module ClusterInvariants {
  import opened Sequences
  import opened Core
  import opened Cluster

  // ---- the index ----

  ghost predicate Keyed(ix: Index) {
    && ix.deployments.Keys == ix.deploymentToPods.Keys
    && ix.services.Keys == ix.servicesToPods.Keys
    && (forall n | n in ix.pods :: ix.pods[n].name == n)
    && (forall d | d in ix.deployments :: ix.deployments[d].name == d && d != "")
    && (forall k | k in ix.services :: ix.services[k].name == k)
  }

  /** Deployment lists have no repetitions, are pairwise disjoint and contain only live pods. */
  ghost predicate Owned(ix: Index) {
    && (forall d | d in ix.deploymentToPods :: NoDup(ix.deploymentToPods[d]))
    && (forall d, n | Owns(ix, d, n) :: n in ix.pods)
    && (forall d, e, n | Owns(ix, d, n) && Owns(ix, e, n) :: d == e)
  }

  predicate Serves(ix: Index, service: string, name: string) {
    service in ix.servicesToPods && name in ix.servicesToPods[service]
  }

  /** Every pod in the list of a service is live, was ready and is matched by the selector; no list has repetitions. */
  ghost predicate Served(ix: Index) {
    && (forall k | k in ix.servicesToPods :: NoDup(ix.servicesToPods[k]))
    && (forall k, n | Serves(ix, k, n) ::
          n in ix.pods && Selects(ix, k, ix.pods[n].labels) && ix.pods[n].phase.Counted())
  }

  /** Every ready pod the selector matches is in the list of the service. */
  ghost predicate Complete(ix: Index, k: string) {
    forall n | n in ix.pods && ix.pods[n].phase.Ready? && Selects(ix, k, ix.pods[n].labels) :: Serves(ix, k, n)
  }

  /** What the deployment handlers rely on, whatever the service lists hold. */
  ghost predicate Rooted(ix: Index) {
    Keyed(ix) && Owned(ix)
  }

  ghost predicate Indexed(ix: Index) {
    Rooted(ix) && Served(ix)
  }

  // ---- messages ----

  /** Every notice under way has a legacy, and the expected deletions are those the controller asked for. */
  ghost predicate Posted(s: State) {
    && s.legacy.Keys == s.wire.Keys
    && s.wire.Keys !! s.ix.pods.Keys
    && (forall n :: n in s.expected <==> n in s.wire && s.wire[n].actor.Controller?)
    && (forall n | n in s.wire :: s.wire[n].pod.name == n)
  }

  // ---- counters ----

  /** Deletions of the deployment's pods that are not subtracted yet. */
  function InFlight(s: State, d: string): set<string> {
    set n | n in s.wire && n !in s.expected && n in s.legacy && s.legacy[n] == d
  }

  function Members(s: State, d: string): set<string>
    requires d in s.ix.deploymentToPods
  {
    (set n | n in s.ix.deploymentToPods[d]) + InFlight(s, d)
  }

  /** The pod object, or the snapshot of it that is under way. */
  function Body(s: State, n: string): Pod {
    if n in s.ix.pods then s.ix.pods[n]
    else if n in s.wire then s.wire[n].pod
    else Pod(n, map[], "", Pending, "")
  }

  function CountedMembers(s: State, d: string): set<string>
    requires d in s.ix.deploymentToPods
  {
    set n | n in Members(s, d) && Body(s, n).phase.Counted()
  }

  function UpdatedMembers(s: State, d: string, t: Template): set<string>
    requires d in s.ix.deploymentToPods
  {
    set n | n in Members(s, d) && Body(s, n).phase.Counted() && IsPodUpdated(t, Body(s, n))
  }

  function StatusOf(all: set<string>, updated: set<string>, counted: set<string>): Status {
    Status(Wrap(|all|), Wrap(|updated|), Wrap(|counted|))
  }

  /** The counters are those of the deployment's pods, including the deletions still to be subtracted. */
  ghost predicate Consistent(s: State, d: string)
    requires HasDeployment(s, d)
  {
    s.ix.deployments[d].status ==
      StatusOf(Members(s, d), UpdatedMembers(s, d, s.ix.deployments[d].spec.template), CountedMembers(s, d))
  }

  /** The deployment exists and its counters are right. */
  ghost predicate Exact(s: State, d: string) {
    HasDeployment(s, d) && Consistent(s, d)
  }

  // ---- etcd ----

  /** The names whose pods exist. */
  function Known(names: seq<string>, pods: map<string, Pod>): (r: seq<string>)
    ensures forall n | n in r :: n in names && n in pods
    ensures forall n | n in names && n in pods :: n in r
    ensures |r| <= |names|
  {
    if names == [] then []
    else if names[0] in pods then [names[0]] + Known(names[1..], pods)
    else Known(names[1..], pods)
  }

  /** What recovery makes of the stored list of a deployment is the list in memory; a list that was never
      stored is empty. */
  predicate Kept(s: State, d: string)
    requires d in s.ix.deploymentToPods
  {
    if d in s.store.deploymentPods then Known(s.store.deploymentPods[d], s.ix.pods) == s.ix.deploymentToPods[d]
    else s.ix.deploymentToPods[d] == []
  }

  ghost predicate Stored(s: State) {
    && s.store.pods == s.ix.pods
    && s.store.deployments.Keys == s.ix.deployments.Keys
    && s.store.deploymentPods.Keys <= s.ix.deployments.Keys
    && (forall d | d in s.store.deployments :: s.store.deployments[d].name == d)
    && (forall d | d in s.store.deploymentPods :: NoDup(s.store.deploymentPods[d]))
  }

  /** A name that has not been used as far as anyone can tell. */
  ghost predicate Unused(s: State, name: string) {
    name !in s.ix.pods && name !in s.wire && forall d | d in s.store.deploymentPods :: name !in s.store.deploymentPods[d]
  }

  /** Everything except the counters: they can go wrong, deployment by deployment, and nothing else depends on
      them. */
  ghost predicate Sound(s: State) {
    Indexed(s.ix) && Posted(s) && Stored(s)
  }

  ghost predicate AllKept(s: State) {
    forall d | d in s.ix.deploymentToPods :: Kept(s, d)
  }

  // ---- facts about lists ----

  lemma {:induction false} RemoveFirstMembers(xs: seq<string>, x: string)
    requires NoDup(xs)
    ensures NoDup(RemoveFirst(xs, x))
    ensures forall y :: y in RemoveFirst(xs, x) <==> y in xs && y != x
  {
    RemoveFirstIsWithout(xs, x);
    WithoutNoDup(xs, {x});
  }

  lemma {:induction false} KnownAll(names: seq<string>, pods: map<string, Pod>)
    requires forall n | n in names :: n in pods
    ensures Known(names, pods) == names
  {
    if names != [] {
      assert names[0] in names;
      assert forall n | n in names[1..] :: n in names;
      KnownAll(names[1..], pods);
    }
  }

  /** Only the pods of the list matter. */
  lemma {:induction false} KnownSame(names: seq<string>, pods: map<string, Pod>, others: map<string, Pod>)
    requires forall n | n in names :: n in pods <==> n in others
    ensures Known(names, pods) == Known(names, others)
  {
    if names != [] {
      assert names[0] in names;
      assert forall n | n in names[1..] :: n in names;
      KnownSame(names[1..], pods, others);
    }
  }

  lemma NoDupRest(xs: seq<string>)
    requires NoDup(xs) && xs != []
    ensures NoDup(xs[1..]) && xs[0] !in xs[1..]
  {
  }

  lemma RemoveFirstCons(y: string, xs: seq<string>, x: string)
    ensures RemoveFirst([y] + xs, x) == if y == x then xs else [y] + RemoveFirst(xs, x)
  {
    assert ([y] + xs)[1..] == xs;
  }

  lemma {:induction false} KnownLess(names: seq<string>, pods: map<string, Pod>, x: string)
    requires NoDup(names)
    ensures Known(names, pods - {x}) == RemoveFirst(Known(names, pods), x)
  {
    hide RemoveFirst;
    if names == [] {
      RemoveFirstMembers([], x);
    } else {
      var rest := names[1..];
      NoDupRest(names);
      KnownLess(rest, pods, x);
      if names[0] == x {
        KnownSame(rest, pods, pods - {x});
        RemoveFirstAbsent(Known(rest, pods), x);
      }
      RemoveFirstCons(names[0], Known(rest, pods), x);
    }
  }

  lemma RemoveFirstAbsent(xs: seq<string>, x: string)
    requires x !in xs
    ensures RemoveFirst(xs, x) == xs
  {
  }

  // ---- how the counters follow the sets ----

  /** Two versions of a pod the counters do not distinguish. */
  predicate Alike(a: Pod, b: Pod) {
    a.labels == b.labels && a.spec == b.spec && a.phase.Counted() == b.phase.Counted()
  }

  /** Nothing the counters of the deployment depend on has changed. */
  lemma CountersKept(s: State, r: State, d: string)
    requires HasDeployment(s, d) && HasDeployment(r, d) && Consistent(s, d)
    requires r.ix.deployments[d].status == s.ix.deployments[d].status
    requires r.ix.deployments[d].spec.template == s.ix.deployments[d].spec.template
    requires Members(r, d) == Members(s, d)
    requires forall n | n in Members(s, d) :: Alike(Body(r, n), Body(s, n))
    ensures Consistent(r, d)
  {
    hide Wrap, Members, Body;
    var t := s.ix.deployments[d].spec.template;
    assert UpdatedMembers(r, d, t) == UpdatedMembers(s, d, t);
    assert CountedMembers(r, d) == CountedMembers(s, d);
  }

  lemma Smaller(xs: set<string>, x: string)
    ensures Wrap(|xs - {x}|) == if x in xs then Dec(Wrap(|xs|)) else Wrap(|xs|)
  {
    if x in xs {
      WrapStep(|xs|);
    } else {
      assert xs - {x} == xs;
    }
  }

  lemma Bigger(xs: set<string>, x: string)
    requires x !in xs
    ensures Wrap(|xs + {x}|) == Inc(Wrap(|xs|))
  {
    WrapStep(|xs|);
  }

  lemma TallyLess(s: State, r: State, d: string, name: string, t: Template)
    requires HasDeployment(s, d) && HasDeployment(r, d)
    requires Members(r, d) == Members(s, d) - {name}
    requires forall n | n in Members(r, d) :: Body(r, n) == Body(s, n)
    ensures UpdatedMembers(r, d, t) == UpdatedMembers(s, d, t) - {name}
    ensures CountedMembers(r, d) == CountedMembers(s, d) - {name}
  {
    hide Members, Body, IsPodUpdated;
  }

  /** A member went and was subtracted. */
  lemma CountersLess(s: State, r: State, d: string, name: string)
    requires HasDeployment(s, d) && HasDeployment(r, d) && Consistent(s, d)
    requires name in Members(s, d) && Members(r, d) == Members(s, d) - {name}
    requires var dep := s.ix.deployments[d];
      && r.ix.deployments[d].spec.template == dep.spec.template
      && r.ix.deployments[d].status == AfterRemoval(dep.spec.template, dep.status, Body(s, name))
    requires forall n | n in Members(r, d) :: Body(r, n) == Body(s, n)
    ensures Consistent(r, d)
  {
    hide Wrap, Inc, Dec, IsPodUpdated, Members, Body;
    var t := s.ix.deployments[d].spec.template;
    TallyLess(s, r, d, name, t);
    Smaller(Members(s, d), name);
    Smaller(UpdatedMembers(s, d, t), name);
    Smaller(CountedMembers(s, d), name);
  }

  lemma TallySame(s: State, r: State, d: string, name: string, t: Template)
    requires HasDeployment(s, d) && HasDeployment(r, d)
    requires Members(r, d) == Members(s, d) + {name} && !Body(r, name).phase.Counted() && name !in Members(s, d)
    requires forall n | n in Members(s, d) :: Body(r, n) == Body(s, n)
    ensures UpdatedMembers(r, d, t) == UpdatedMembers(s, d, t)
    ensures CountedMembers(r, d) == CountedMembers(s, d)
  {
    hide Members, Body, IsPodUpdated;
  }

  /** A pending pod joined. */
  lemma CountersMore(s: State, r: State, d: string, name: string)
    requires HasDeployment(s, d) && HasDeployment(r, d) && Consistent(s, d)
    requires name !in Members(s, d) && Members(r, d) == Members(s, d) + {name} && !Body(r, name).phase.Counted()
    requires var dep := s.ix.deployments[d];
      && r.ix.deployments[d].spec.template == dep.spec.template
      && r.ix.deployments[d].status == dep.status.(replicas := Inc(dep.status.replicas))
    requires forall n | n in Members(s, d) :: Body(r, n) == Body(s, n)
    ensures Consistent(r, d)
  {
    hide Wrap, Inc, Dec, IsPodUpdated, Members, Body;
    TallySame(s, r, d, name, s.ix.deployments[d].spec.template);
    Bigger(Members(s, d), name);
  }

  lemma TallyReady(s: State, r: State, d: string, name: string, t: Template)
    requires HasDeployment(s, d) && HasDeployment(r, d)
    requires name in Members(s, d) && Members(r, d) == Members(s, d)
    requires !Body(s, name).phase.Counted() && Body(r, name).phase.Ready?
    requires forall n | n in Members(s, d) && n != name :: Body(r, n) == Body(s, n)
    ensures name !in CountedMembers(s, d) && CountedMembers(r, d) == CountedMembers(s, d) + {name}
    ensures name !in UpdatedMembers(s, d, t)
    ensures UpdatedMembers(r, d, t) ==
      if IsPodUpdated(t, Body(r, name)) then UpdatedMembers(s, d, t) + {name} else UpdatedMembers(s, d, t)
  {
    hide Members, Body, IsPodUpdated;
  }

  /** A member that did not count became ready. */
  lemma CountersReady(s: State, r: State, d: string, name: string)
    requires HasDeployment(s, d) && HasDeployment(r, d) && Consistent(s, d)
    requires name in Members(s, d) && Members(r, d) == Members(s, d)
    requires !Body(s, name).phase.Counted() && Body(r, name).phase.Ready?
    requires var dep := s.ix.deployments[d];
      && r.ix.deployments[d].spec.template == dep.spec.template
      && r.ix.deployments[d].status == AfterReady(dep.spec.template, dep.status, Body(r, name))
    requires forall n | n in Members(s, d) && n != name :: Body(r, n) == Body(s, n)
    ensures Consistent(r, d)
  {
    hide Wrap, Inc, Dec, IsPodUpdated, Members, Body, UpdatedMembers, CountedMembers;
    var t := s.ix.deployments[d].spec.template;
    TallyReady(s, r, d, name, t);
    Bigger(CountedMembers(s, d), name);
    if IsPodUpdated(t, Body(r, name)) {
      Bigger(UpdatedMembers(s, d, t), name);
    }
  }
}
