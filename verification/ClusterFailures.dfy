/**
 Runs of the API server, from its start, that end where something goes wrong: each is an instance of a condition that
 ClusterEvents.dfy, ClusterHandlers.dfy or RolloutRuns.dfy proves exact.
 */
module ClusterFailures {
  import opened Sequences
  import opened Core
  import opened Cluster
  import opened ClusterInvariants
  import opened ClusterSteps
  import opened ClusterHandlers
  import opened ClusterEvents
  import opened ClusterDeletion
  import opened ClusterRuns
  import opened RolloutRuns

  /** Everything succeeds, and the name drawn is p. */
  function Birth(p: string): Fate {
    Fate(_ => true, _ => p, _ => Created)
  }

  function NewPod(dep: Deployment, p: string): Pod {
    Pod(p, dep.spec.template.labels, dep.spec.template.spec, Pending, "")
  }

  /** The server with one deployment that has one pod. */
  function Alone(dep: Deployment, stored: Deployment, pod: Pod): State {
    State(Index(map[pod.name := pod], map[dep.name := dep], map[dep.name := [pod.name]], map[], map[], map[]),
          map[], {}, map[],
          Store(map[pod.name := pod], map[dep.name := stored], map[dep.name := [pod.name]]))
  }

  function WithCounters(dep: Deployment, replicas: uint32, updated: uint32, ready: uint32): Deployment {
    dep.(status := Status(replicas, updated, ready))
  }

  lemma Grown(s: State, dep: Deployment, p: string)
    requires var zero := WithCounters(dep, 0, 0, 0);
      s == State(Index(map[], map[dep.name := zero], map[dep.name := []], map[], map[], map[]), map[], {}, map[],
                 Store(map[], map[dep.name := zero], map[]))
    ensures Persist(Grow(s, dep.name, p, Created), dep.name) ==
      Alone(WithCounters(dep, 1, 0, 0), WithCounters(dep, 1, 0, 0), NewPod(dep, p))
  {
    var t, none: seq<string> := Grow(s, dep.name, p, Created), [];
    assert none + [p] == [p];
    assert t.ix.pods == map[p := NewPod(dep, p)];
    assert t.ix.deployments == map[dep.name := WithCounters(dep, 1, 0, 0)];
    assert t.ix.deploymentToPods == map[dep.name := [p]];
  }

  lemma NothingUsed(dep: Deployment, p: string)
    ensures Unused(Apply(Empty(), dep), p)
  {
  }

  /** A deployment that wants one pod gets it in its first tick. */
  lemma Born(dep: Deployment, p: string)
    requires dep.name != "" && dep.spec.replicas == 1
    ensures var s, r := Apply(Empty(), dep), Alone(WithCounters(dep, 1, 0, 0), WithCounters(dep, 1, 0, 0), NewPod(dep, p));
      && Sensible(Empty(), ApplyDeployment(dep)) && Sensible(s, Tick(dep.name, Birth(p)))
      && Step(s, Tick(dep.name, Birth(p))) == Some(r)
  {
    hide Unused;
    var s, zero := Apply(Empty(), dep), WithCounters(dep, 0, 0, 0);
    assert s == State(Index(map[], map[dep.name := zero], map[dep.name := []], map[], map[], map[]), map[], {}, map[],
                      Store(map[], map[dep.name := zero], map[]));
    assert GrowEach(s, dep.name, Birth(p), 0) == s;
    Grown(s, dep, p);
    NothingUsed(dep, p);
  }

  /** What holds after the birth of the first pod, since the run so far was careful. */
  lemma AliveAndExact(dep: Deployment, p: string)
    requires dep.name != "" && dep.spec.replicas == 1
    ensures var s := Alone(WithCounters(dep, 1, 0, 0), WithCounters(dep, 1, 0, 0), NewPod(dep, p));
      Healthy(s) && Exact(s, dep.name) && Owns(s.ix, dep.name, p)
  {
    hide Apply, Monitor, Exact, Healthy;
    Born(dep, p);
    var ops := [ApplyDeployment(dep), Tick(dep.name, Birth(p))];
    var states := [Empty(), Apply(Empty(), dep), Alone(WithCounters(dep, 1, 0, 0), WithCounters(dep, 1, 0, 0), NewPod(dep, p))];
    assert IsRun(states, ops);
    NothingInFlight(dep);
    RunHealthy(states, ops, 2);
    RunExact(states, ops, 2, dep.name);
  }

  lemma NothingInFlight(dep: Deployment)
    ensures CleanStart(Empty(), dep)
  {
  }

  /** The first pod of a deployment fails before it was ever ready: the counter of ready pods is 4294967295. */
  lemma EarlyFailureHappens(dep: Deployment, p: string, ip: string) returns (states: seq<State>)
    requires dep.name != "" && dep.spec.replicas == 1
    ensures IsRun(states, [ApplyDeployment(dep), Tick(dep.name, Birth(p)), Report(p, Failed, ip, true)])
    ensures HasDeployment(states[3], dep.name) && !Consistent(states[3], dep.name)
    ensures states[3].ix.deployments[dep.name].status.ready == 0xFFFF_FFFF
  {
    hide Apply, UpdateStatus, Monitor, Consistent, Healthy;
    Born(dep, p);
    AliveAndExact(dep, p);
    var s := Alone(WithCounters(dep, 1, 0, 0), WithCounters(dep, 1, 0, 0), NewPod(dep, p));
    states := [Empty(), Apply(Empty(), dep), s, UpdateStatus(s, p, Failed, ip, true)];
    EarlyFailureWraps(s, p, ip, dep.name);
    UpdateStatusIff(s, p, Failed, ip, true, dep.name);
  }

  /** A pod of a deployment without services becomes ready. */
  lemma Raised(dep: Deployment, p: string, ip: string)
    ensures var zero, one := WithCounters(dep, 1, 0, 0), WithCounters(dep, 1, 1, 1);
      UpdateStatus(Alone(zero, zero, NewPod(dep, p)), p, Ready, ip, true) ==
      Alone(one, one, NewPod(dep, p).(phase := Ready, ip := ip))
  {
    var zero, one, pod := WithCounters(dep, 1, 0, 0), WithCounters(dep, 1, 1, 1), NewPod(dep, p).(phase := Ready, ip := ip);
    var s := Alone(zero, zero, NewPod(dep, p));
    var u := Joined(s, p, ip, true);
    assert u == Alone(zero, zero, pod) by {
      assert s.ix.pods[p := pod] == map[p := pod];
    }
    assert Owns(u.ix, dep.name, p);
    CountReadyIs(u, p);
    assert u.ix.deployments[dep.name := one] == map[dep.name := one];
  }

  lemma OneMember(dep: Deployment, pod: Pod)
    ensures var s := Alone(dep, dep, pod);
      Members(s, dep.name) == {pod.name} && Body(s, pod.name) == pod && !Autoscaled(s.ix, dep.name)
  {
  }

  /** A template is changed, and changed back while the ready pod still has it: the pod is up to date again and
      the counter of updated pods stays at zero. */
  lemma RollbackHappens(dep: Deployment, p: string, ip: string, away: Deployment) returns (states: seq<State>)
    requires dep.name == away.name != "" && dep.spec.replicas == 1 && away.spec.template != dep.spec.template
    requires dep.spec.rolling.maxSurge > 0 && away.spec.rolling.maxSurge > 0
    ensures IsRun(states, [ApplyDeployment(dep), Tick(dep.name, Birth(p)), Report(p, Ready, ip, true),
                           ApplyDeployment(away), ApplyDeployment(dep)])
    ensures HasDeployment(states[5], dep.name) && !Consistent(states[5], dep.name)
  {
    hide Apply, UpdateStatus, Monitor, Consistent, Healthy, Members, Body;
    Born(dep, p);
    AliveAndExact(dep, p);
    Raised(dep, p, ip);
    var s := Alone(WithCounters(dep, 1, 0, 0), WithCounters(dep, 1, 0, 0), NewPod(dep, p));
    var one, pod := WithCounters(dep, 1, 1, 1), NewPod(dep, p).(phase := Ready, ip := ip);
    var t := Alone(one, one, pod);
    states := [Empty(), Apply(Empty(), dep), s, t, Apply(t, away), Apply(Apply(t, away), dep)];
    UpdateStatusHealthy(s, p, Ready, ip, true);
    OneMember(one, pod);
    assert p in UpdatedMembers(t, dep.name, dep.spec.template);
    NotRefusedAgain(t, away, dep);
    RollbackBreaks(t, away, dep);
  }

  lemma NotRefusedAgain(s: State, away: Deployment, back: Deployment)
    requires !Autoscaled(s.ix, away.name) && away.name == back.name
    requires away.spec.rolling.maxSurge > 0 && back.spec.rolling.maxSurge > 0
    ensures !ApplyRefused(s, away) && !ApplyRefused(Apply(s, away), back)
  {
  }

  /** A deployment is deleted and created again while the notice of its pod is under way: when it arrives it is
      subtracted from the new deployment, whose counter of replicas becomes 4294967295. */
  lemma RecreationHappens(dep: Deployment, p: string) returns (states: seq<State>)
    requires dep.name != "" && dep.spec.replicas == 1
    ensures IsRun(states, [ApplyDeployment(dep), Tick(dep.name, Birth(p)), RemoveDeployment(dep.name),
                           ApplyDeployment(dep), Op.Notice(p)])
    ensures HasDeployment(states[5], dep.name) && !Consistent(states[5], dep.name)
    ensures states[5].ix.deployments[dep.name].status.replicas == 0xFFFF_FFFF
  {
    hide Apply, Monitor, DeleteDeployment, Notify, Consistent, Healthy;
    Born(dep, p);
    var s := Alone(WithCounters(dep, 1, 0, 0), WithCounters(dep, 1, 0, 0), NewPod(dep, p));
    var t := DeleteDeployment(s, dep.name);
    var u := Apply(t, dep);
    TornDown(dep, p);
    AppliedAgain(dep, p);
    Miscounted(dep, p);
    var r := Notify(u, p);
    states := [Empty(), Apply(Empty(), dep), s, t, u, r];
  }

  /** The server without deployments, with the notice of a pod of a deployment that was deleted. */
  function Orphan(dep: Deployment, pod: Pod): State {
    State(Index(map[], map[], map[], map[], map[], map[]), map[pod.name := dep.name], {},
          map[pod.name := Cluster.Notice(pod, Teardown)], Store(map[], map[], map[]))
  }

  lemma TornDown(dep: Deployment, p: string)
    ensures DeleteDeployment(Alone(WithCounters(dep, 1, 0, 0), WithCounters(dep, 1, 0, 0), NewPod(dep, p)), dep.name) ==
      Orphan(dep, NewPod(dep, p))
  {
    var s := Alone(WithCounters(dep, 1, 0, 0), WithCounters(dep, 1, 0, 0), NewPod(dep, p));
    assert Owns(s.ix, dep.name, p);
    assert RemoveFirst([p], p) == [];
    assert TearDown(s, [p], 0) == s;
    var t := TearDown(s, [p], 1);
    assert t == DeletePod(s, p, true, Teardown);
    assert t.ix.pods == map[] && t.ix.deploymentToPods == map[dep.name := []];
    assert t.ix.deploymentToPods - {dep.name} == map[];
    assert t.ix.deployments - {dep.name} == map[];
  }

  /** The deployment again, with the old notice under way. */
  function Haunted(dep: Deployment, pod: Pod): State {
    var o, zero := Orphan(dep, pod), WithCounters(dep, 0, 0, 0);
    o.(ix := o.ix.(deployments := map[dep.name := zero], deploymentToPods := map[dep.name := []]),
       store := o.store.(deployments := map[dep.name := zero]))
  }

  lemma AppliedAgain(dep: Deployment, p: string)
    ensures Apply(Orphan(dep, NewPod(dep, p)), dep) == Haunted(dep, NewPod(dep, p))
  {
  }

  lemma Miscounted(dep: Deployment, p: string)
    ensures var r := Notify(Haunted(dep, NewPod(dep, p)), p);
      && HasDeployment(r, dep.name) && r.ix.deployments[dep.name].status.replicas == 0xFFFF_FFFF
      && !Consistent(r, dep.name)
  {
    var r := Notify(Haunted(dep, NewPod(dep, p)), p);
    assert Members(r, dep.name) == {};
  }

  /** A user deletes the only pod, and before the notice arrives the deployment is applied again with no replicas:
      the next tick takes the last element of an empty list and dereferences nil. */
  lemma PanicHappens(dep: Deployment, p: string, q: string) returns (states: seq<State>)
    requires dep.name != "" && dep.spec.replicas == 1 && p != q
    ensures IsRun(states, [ApplyDeployment(dep), Tick(dep.name, Birth(p)), RemovePod(p, true),
                           ApplyDeployment(dep.(spec := dep.spec.(replicas := 0)))])
    ensures Sensible(states[4], Tick(dep.name, Birth(q))) && Step(states[4], Tick(dep.name, Birth(q))).None?
  {
    hide Apply, Monitor, Consistent, Healthy, DeletePod;
    Born(dep, p);
    AliveAndExact(dep, p);
    var s := Alone(WithCounters(dep, 1, 0, 0), WithCounters(dep, 1, 0, 0), NewPod(dep, p));
    var t, none := DeletePod(s, p, true, User), dep.(spec := dep.spec.(replicas := 0));
    var r := Apply(t, none);
    states := [Empty(), Apply(Empty(), dep), s, t, r];
    Emptied(dep, p, q);
    RemovePodHealthy(s, p, true);
    ApplyHealthy(t, none);
    PanicsIff(r, dep.name, Birth(q));
  }

  lemma Emptied(dep: Deployment, p: string, q: string)
    requires p != q
    ensures var s := Alone(WithCounters(dep, 1, 0, 0), WithCounters(dep, 1, 0, 0), NewPod(dep, p));
      var none := dep.(spec := dep.spec.(replicas := 0));
      var t := DeletePod(s, p, true, User);
      var r := Apply(t, none);
      && CleanStart(t, none) && HasDeployment(r, dep.name) && r.ix.deployments[dep.name] == WithCounters(none, 1, 0, 0)
      && InFlight(r, dep.name) == {p} && Members(r, dep.name) == {p} && Unused(r, q)
  {
    var s := Alone(WithCounters(dep, 1, 0, 0), WithCounters(dep, 1, 0, 0), NewPod(dep, p));
    assert Owns(s.ix, dep.name, p);
    assert RemoveFirst([p], p) == [];
  }
}
