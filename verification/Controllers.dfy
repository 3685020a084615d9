/**
 The pod controller (pkg/apiserver/pod/controller.go) and the deployment controller
 (pkg/apiserver/deployment/controller.go), each method proved to do what its function in Cluster.dfy says.
 Answers of the environment are parameters.
 */
module Controllers {
  import opened Sequences
  import opened Core
  import opened Cluster
  import opened ClusterInvariants
  import opened ClusterSteps
  import opened ClusterHandlers
  import opened ClusterEvents
  import opened ClusterDeletion
  import opened Components
  import opened ClusterRollout
  import opened RolloutRuns

  class Etcd {
    var pods: map<string, Pod>
    var deployments: map<string, Deployment>
    var deploymentPods: map<string, seq<string>>
    var services: map<string, Service>
    var servicePods: map<string, seq<string>>

    function View(): Store
      reads this
    {
      Store(pods, deployments, deploymentPods)
    }

    constructor ()
      ensures View() == Store(map[], map[], map[]) && services == map[] && servicePods == map[]
    {
      pods, deployments, deploymentPods, services, servicePods := map[], map[], map[], map[], map[];
    }

    method PutPod(pod: Pod)
      modifies `pods
      ensures pods == old(pods)[pod.name := pod]
    {
      pods := pods[pod.name := pod];
    }

    method DeletePod(name: string)
      modifies `pods
      ensures pods == old(pods) - {name}
    {
      pods := pods - {name};
    }

    method PutDeployment(name: string, deployment: Deployment)
      modifies `deployments
      ensures deployments == old(deployments)[name := deployment]
    {
      deployments := deployments[name := deployment];
    }

    method PutDeploymentPods(name: string, names: seq<string>)
      modifies `deploymentPods
      ensures deploymentPods == old(deploymentPods)[name := names]
    {
      deploymentPods := deploymentPods[name := names];
    }

    method PutService(name: string, service: Service)
      modifies `services
      ensures services == old(services)[name := service]
    {
      services := services[name := service];
    }

    method PutServicePods(name: string, names: seq<string>)
      modifies `servicePods
      ensures servicePods == old(servicePods)[name := names]
    {
      servicePods := servicePods[name := names];
    }

    method DeleteService(name: string)
      modifies `services
      ensures services == old(services) - {name}
    {
      services := services - {name};
    }

    method DeleteServicePods(name: string)
      modifies `servicePods
      ensures servicePods == old(servicePods) - {name}
    {
      servicePods := servicePods - {name};
    }

    method DeleteDeployment(name: string)
      modifies `deployments, `deploymentPods
      ensures View() == old(View()).(deployments := old(deployments) - {name}, deploymentPods := old(deploymentPods) - {name})
    {
      deployments := deployments - {name};
      deploymentPods := deploymentPods - {name};
    }
  }

  class PodController {
    const cm: ComponentManagerInner
    const legacy: LegacyManagerInner
    const etcd: Etcd
    /** The notices the kubelets have accepted to send. */
    ghost var wire: map<string, Notice>

    predicate Wired() {
      legacy.componentManager == cm
    }

    ghost function View(expected: set<string>): State
      reads this, cm, legacy, etcd
    {
      State(cm.View(), legacy.podLegacy, expected, wire, etcd.View())
    }

    constructor (cm: ComponentManagerInner, legacy: LegacyManagerInner, etcd: Etcd)
      ensures this.cm == cm && this.legacy == legacy && this.etcd == etcd && wire == map[]
    {
      this.cm, this.legacy, this.etcd, wire := cm, legacy, etcd, map[];
    }

    method CreatePod(pod: Pod, outcome: Creation) returns (ok: bool)
      modifies cm, etcd
      ensures ok <==> pod.name !in old(cm.pods) && outcome.Created?
      ensures forall e :: View(e) == Cluster.CreatePod(old(View(e)), pod, outcome)
    {
      if pod.name in cm.pods || outcome.Rejected? {
        return false;
      }
      var p := pod.(phase := Pending);
      etcd.PutPod(p);
      cm.SetPod(p);
      ok := outcome.Created?;
    }

    method DeletePodByName(name: string, ok: bool, ghost actor: Actor) returns (done: bool)
      requires Wired() && Rooted(cm.View())
      modifies this, cm, legacy, etcd
      ensures done <==> Deletable(old(View({})), name, ok)
      ensures forall e :: View(e) == Cluster.DeletePod(old(View(e)), name, ok, actor)
    {
      if name !in cm.pods || !ok {
        return false;
      }
      wire := wire[name := Notice(cm.pods[name], actor)];
      etcd.DeletePod(name);
      legacy.SetPodLegacy(name);
      cm.DeletePodByName(name);
      done := true;
    }

    /** The previous phase, or None when the pod is gone. */
    method UpdatePodStatus(name: string, phase: Phase, ip: string) returns (was: Option<Phase>)
      requires Keyed(cm.View())
      modifies cm, etcd
      ensures cm.pods == if name !in old(cm.pods) then old(cm.pods) else old(cm.pods)[name := old(cm.pods)[name].(phase := phase, ip := ip)]
      ensures was == if name in old(cm.pods) then Some(old(cm.pods)[name].phase) else None
      ensures forall e :: View(e) == if name in old(cm.pods) then WithPhase(old(View(e)), name, phase, ip) else old(View(e))
    {
      if name !in cm.pods {
        return None;
      }
      was := Some(cm.pods[name].phase);
      var pod := cm.pods[name].(phase := phase, ip := ip);
      cm.SetPod(pod);
      etcd.PutPod(pod);
    }
  }

  /** The pods of the list that are up to date, in its order: all that are not outdated. */
  function UpdatedNames(ix: Index, t: Template, names: seq<string>): (r: seq<string>)
    ensures |r| + |OutdatedNames(ix, t, names)| == |names|
    ensures forall n :: n in r <==> n in names && !IsOutdated(ix, t, n)
  {
    if names == [] then []
    else (if IsOutdated(ix, t, names[0]) then [] else [names[0]]) + UpdatedNames(ix, t, names[1..])
  }

  lemma NoUpdated(ix: Index, t: Template)
    ensures UpdatedNames(ix, t, []) == []
  {
  }

  lemma UpdatedCons(ix: Index, t: Template, names: seq<string>)
    requires names != []
    ensures UpdatedNames(ix, t, names) ==
      (if IsOutdated(ix, t, names[0]) then [] else [names[0]]) + UpdatedNames(ix, t, names[1..])
  {
  }

  lemma {:induction false} UpdatedAppend(ix: Index, t: Template, names: seq<string>, name: string)
    ensures UpdatedNames(ix, t, names + [name]) ==
      UpdatedNames(ix, t, names) + if IsOutdated(ix, t, name) then [] else [name]
  {
    hide IsOutdated, OutdatedNames, UpdatedNames;
    UpdatedCons(ix, t, names + [name]);
    NoUpdated(ix, t);
    if names == [] {
      assert (names + [name])[1..] == [];
    } else {
      assert (names + [name])[1..] == names[1..] + [name];
      UpdatedCons(ix, t, names);
      UpdatedAppend(ix, t, names[1..], name);
    }
  }

  lemma {:induction false} OutdatedAppend(ix: Index, t: Template, names: seq<string>, name: string)
    ensures OutdatedNames(ix, t, names + [name]) ==
      OutdatedNames(ix, t, names) + if IsOutdated(ix, t, name) then [name] else []
  {
    hide IsOutdated;
    if names == [] {
      assert [] + [name] == [name];
    } else {
      assert (names + [name])[1..] == names[1..] + [name];
      OutdatedAppend(ix, t, names[1..], name);
    }
  }

  /** Ticks for the first k deployments of an order; None when one of them panics. */
  ghost function MonitorEach(s: State, order: seq<string>, fates: nat -> Fate, k: nat): (r: Option<State>)
    requires k <= |order| && forall j | 0 <= j < |order| :: HasDeployment(s, order[j])
    ensures r.Some? ==> SameKeys(s, r.value)
  {
    if k == 0 then Some(s)
    else
      match MonitorEach(s, order, fates, k - 1)
      case None => None
      case Some(w) => Monitor(w, order[k - 1], fates(k - 1))
  }

  class DeploymentController {
    const pods: PodController
    const cm: ComponentManagerInner
    const etcd: Etcd
    var expectDeletedPod: set<string>

    predicate Wired() {
      pods.Wired() && pods.cm == cm && pods.etcd == etcd
    }

    ghost function View(): State
      reads this, pods, pods.cm, pods.legacy, pods.etcd
    {
      pods.View(expectDeletedPod)
    }

    constructor (pods: PodController)
      ensures this.pods == pods && cm == pods.cm && etcd == pods.etcd && expectDeletedPod == {}
    {
      this.pods, cm, etcd, expectDeletedPod := pods, pods.cm, pods.etcd, {};
    }

    method UpdateDeploymentStatusOnPodRemoval(d: string, pod: Pod)
      requires d in cm.deployments && cm.deployments[d].name == d
      modifies cm`deployments
      ensures cm.View() ==
        SetStatus(old(cm.View()), d, AfterRemoval(old(cm.deployments)[d].spec.template, old(cm.deployments)[d].status, pod))
    {
      hide Dec;
      var dep := cm.deployments[d];
      var updated := IsPodUpdated(dep.spec.template, pod);
      dep := dep.(status := dep.status.(replicas := Dec(dep.status.replicas)));
      if updated && (pod.phase.Ready? || pod.phase.Failed?) {
        dep := dep.(status := dep.status.(updated := Dec(dep.status.updated)));
      }
      if pod.phase.Ready? || pod.phase.Failed? {
        dep := dep.(status := dep.status.(ready := Dec(dep.status.ready)));
      }
      cm.UpdateDeployment(dep);
    }

    method DeleteDeploymentPod(d: string, pod: Pod, ok: bool) returns (done: bool)
      requires Wired() && Rooted(cm.View()) && d in cm.deployments
      requires pod.name in cm.pods ==> cm.pods[pod.name] == pod
      modifies this, pods, cm, pods.legacy, etcd
      ensures done <==> Deletable(old(View()), pod.name, ok)
      ensures View() == Discard(old(View()), d, pod.name, ok)
    {
      hide LegacyOf, Forget, AfterRemoval, Owned;
      ForgetParts(cm.View(), pod.name);
      done := pods.DeletePodByName(pod.name, ok, Controller);
      if !done {
        return;
      }
      expectDeletedPod := expectDeletedPod + {pod.name};
      UpdateDeploymentStatusOnPodRemoval(d, pod);
    }

    method Persist(d: string)
      requires Wired() && d in cm.deployments && d in cm.deploymentToPods
      modifies etcd
      ensures View() == Cluster.Persist(old(View()), d)
    {
      etcd.PutDeployment(d, cm.deployments[d]);
      etcd.PutDeploymentPods(d, cm.deploymentToPods[d]);
    }

    /** One attempt of morePods. */
    method MoreOne(d: string, name: string, outcome: Creation)
      requires Wired() && d in cm.deployments && d in cm.deploymentToPods && cm.deployments[d].name == d
      modifies cm, etcd
      ensures View() == Grow(old(View()), d, name, outcome)
    {
      hide Inc;
      var dep := cm.deployments[d];
      var pod := Pod(name, dep.spec.template.labels, dep.spec.template.spec, Pending, "");
      var ok := pods.CreatePod(pod, outcome);
      assert View() == CreatePod(old(View()), pod, outcome);
      if !ok {
        return;
      }
      cm.UpdateDeployment(dep.(status := dep.status.(replicas := Inc(dep.status.replicas))));
      cm.PushBack(d, name);
    }

    method MorePods(d: string, n: nat, fate: Fate)
      requires Wired() && Sound(View()) && HasDeployment(View(), d)
      requires forall i: nat :: Unused(View(), fate.names(i))
      modifies cm, etcd
      ensures View() == Cluster.MorePods(old(View()), d, n, fate)
    {
      hide Sound, Unused, Grow, GrowEach;
      ghost var start := View();
      GrowNone(start, d, fate);
      for i := 0 to n
        invariant View() == GrowEach(start, d, fate, i)
      {
        GrowEachLive(start, d, fate, i);
        SoundName(View(), d);
        GrowEachNext(start, d, fate, i + 1);
        MoreOne(d, fate.names(i), fate.outcomes(i));
      }
      GrowEachLive(start, d, fate, n);
      Persist(d);
    }

    method FindOutdatedPods(d: string) returns (names: seq<string>)
      requires d in cm.deployments && d in cm.deploymentToPods
      requires forall n | n in cm.deploymentToPods[d] :: n in cm.pods
      ensures names == OutdatedNames(cm.View(), cm.deployments[d].spec.template, cm.deploymentToPods[d])
      ensures names == Without(cm.deploymentToPods[d], Current(cm.View(), cm.deployments[d].spec.template))
      ensures forall n | n in cm.deploymentToPods[d] ::
        n in names <==> Template(cm.pods[n].labels, cm.pods[n].spec) != cm.deployments[d].spec.template
    {
      hide IsPodUpdated, OutdatedNames;
      var list, t := cm.deploymentToPods[d], cm.deployments[d].spec.template;
      names := [];
      NoOutdated(cm.View(), t);
      for i := 0 to |list|
        invariant names == OutdatedNames(cm.View(), t, list[..i])
      {
        assert list[..i + 1] == list[..i] + [list[i]];
        OutdatedAppend(cm.View(), t, list[..i], list[i]);
        assert list[i] in list;
        if !IsPodUpdated(t, cm.pods[list[i]]) {
          names := names + [list[i]];
        }
        assert names + [] == names;
      }
      assert list[..|list|] == list;
      OutdatedWithout(cm.View(), t, list);
    }

    /** The first loop of fewerPods. */
    method DeleteOutdated(d: string, outdated: seq<string>, k: nat, ok: nat -> bool)
      requires Wired() && Sound(View()) && HasDeployment(View(), d) && k <= |outdated| && Targeted(View(), d, outdated)
      modifies this, pods, cm, pods.legacy, etcd
      ensures View() == DiscardEach(old(View()), d, outdated, k, ok)
    {
      hide Sound, Discard, DiscardEach, Owns, Targeted;
      ghost var start := View();
      DiscardNone(start, d, outdated, ok);
      for i := 0 to k
        invariant View() == DiscardEach(start, d, outdated, i, ok)
      {
        DiscardEachLive(start, d, outdated, i, ok);
        DiscardEachNext(start, d, outdated, i + 1, ok);
        OwnedPod(View(), d, outdated[i]);
        var done := DeleteDeploymentPod(d, cm.pods[outdated[i]], ok(i));
      }
    }

    /** The second loop of fewerPods; false when the source would dereference the last element of an empty
        list. */
    method DeleteBack(d: string, count: nat, ok: nat -> bool, offset: nat) returns (alive: bool)
      requires Wired() && Sound(View()) && HasDeployment(View(), d)
      modifies this, pods, cm, pods.legacy, etcd
      ensures match DiscardBack(old(View()), d, count, ok, offset)
              case None => !alive
              case Some(r) => alive && View() == r
    {
      hide Sound, Discard, DiscardBack, Owns, Unused, Kept;
      ghost var start := View();
      BackNone(start, d, ok, offset);
      for i := 0 to count
        invariant DiscardBack(start, d, i, ok, offset) == Some(View())
      {
        DiscardBackSound(start, d, i, ok, offset);
        BackNext(start, d, i, ok, offset);
        var list := cm.deploymentToPods[d];
        if list == [] {
          BackStaysNone(start, d, i + 1, count, ok, offset);
          return false;
        }
        OwnsLast(View().ix, d);
        OwnedPod(View(), d, list[|list| - 1]);
        var done := DeleteDeploymentPod(d, cm.pods[list[|list| - 1]], ok(offset + i));
      }
      alive := true;
    }

    method FewerPods(d: string, n: nat, ok: nat -> bool) returns (alive: bool)
      requires Wired() && Sound(View()) && HasDeployment(View(), d)
      modifies this, pods, cm, pods.legacy, etcd
      ensures match Cluster.FewerPods(old(View()), d, n, ok)
              case None => !alive
              case Some(r) => alive && View() == r
    {
      hide Sound, DiscardEach, DiscardBack, OutdatedNames, Targeted, Owns, Unused, Kept;
      ghost var start := View();
      ListLive(start, d);
      var outdated := FindOutdatedPods(d);
      OutdatedTargets(start, d);
      var first := Min(n, |outdated|);
      DeleteOutdated(d, outdated, first, ok);
      DiscardTargets(start, d, outdated, first, ok);
      alive := DeleteBack(d, Max(0, n - |outdated|), ok, first);
      if alive {
        Persist(d);
      }
    }

    /** The body of the loop in monitorDeployment. */
    method MonitorOne(d: string, fate: Fate) returns (alive: bool)
      requires Wired() && Sound(View()) && HasDeployment(View(), d)
      requires forall i: nat :: Unused(View(), fate.names(i))
      modifies this, pods, cm, pods.legacy, etcd
      ensures match Monitor(old(View()), d, fate)
              case None => !alive
              case Some(r) => alive && View() == r
    {
      hide Sound, Unused, Kept, OutdatedNames, Cluster.FewerPods, Cluster.MorePods;
      ghost var start := View();
      var dep := cm.deployments[d];
      alive := true;
      if dep.status.updated < dep.status.ready {
        var deletion := ComputeRollingUpdatePodDeletion(d);
        if deletion > 0 {
          FewerSound(start, d, deletion, fate.deletes);
          alive := FewerPods(d, deletion, fate.deletes);
        }
        if alive {
          var creation := ComputeRollingUpdatePodCreation(d);
          if creation > 0 {
            MorePods(d, creation, fate);
          }
        }
      } else {
        var diff := dep.spec.replicas - dep.status.replicas;
        if diff > 0 {
          MorePods(d, diff, fate);
        } else if diff < 0 {
          alive := FewerPods(d, -diff, fate.deletes);
        }
      }
    }

    method ComputeRollingUpdatePodDeletion(d: string) returns (n: int)
      requires Wired() && Sound(View()) && HasDeployment(View(), d)
      ensures n == RollingDeletion(cm.View(), d)
      ensures var dep := cm.deployments[d];
        var outdated := Without(cm.deploymentToPods[d], Current(cm.View(), dep.spec.template));
        forall m :: LeavesEnough(dep, |outdated|, m) <==> m <= n
    {
      ListLive(View(), d);
      hide Sound, OutdatedNames, Without;
      var dep := cm.deployments[d];
      var outdated := FindOutdatedPods(d);
      var minReady := Max(0, dep.spec.replicas - dep.spec.rolling.maxUnavailable);
      n := Min(|outdated|, Max(0, dep.status.ready - minReady));
    }

    method ComputeRollingUpdatePodCreation(d: string) returns (n: int)
      requires Wired() && Sound(View()) && HasDeployment(View(), d)
      ensures n == RollingCreation(cm.View(), d)
      ensures var dep, list := cm.deployments[d], cm.deploymentToPods[d];
        var updated := |list| - |Without(list, Current(cm.View(), dep.spec.template))|;
        forall m :: StaysWithin(dep, updated, m) <==> m <= n
    {
      ListLive(View(), d);
      hide Sound, OutdatedNames, Without;
      OutdatedWithout(cm.View(), cm.deployments[d].spec.template, cm.deploymentToPods[d]);
      var dep := cm.deployments[d];
      var updated := FindUpdatedPods(d);
      var maxReplicas := dep.spec.replicas + dep.spec.rolling.maxSurge;
      n := Min(maxReplicas - dep.status.replicas, Max(0, dep.spec.replicas - |updated|));
    }

    method FindUpdatedPods(d: string) returns (updated: seq<string>)
      requires d in cm.deployments && d in cm.deploymentToPods
      requires forall n | n in cm.deploymentToPods[d] :: n in cm.pods
      ensures updated == UpdatedNames(cm.View(), cm.deployments[d].spec.template, cm.deploymentToPods[d])
      ensures forall n | n in cm.deploymentToPods[d] ::
        n in updated <==> Template(cm.pods[n].labels, cm.pods[n].spec) == cm.deployments[d].spec.template
    {
      hide IsPodUpdated, UpdatedNames;
      var list, t := cm.deploymentToPods[d], cm.deployments[d].spec.template;
      updated := [];
      NoUpdated(cm.View(), t);
      for i := 0 to |list|
        invariant updated == UpdatedNames(cm.View(), t, list[..i])
      {
        assert list[..i + 1] == list[..i] + [list[i]];
        UpdatedAppend(cm.View(), t, list[..i], list[i]);
        assert list[i] in list;
        if IsPodUpdated(t, cm.pods[list[i]]) {
          updated := updated + [list[i]];
        }
      }
      assert list[..|list|] == list;
      forall n | n in list ensures IsPodUpdated(t, cm.pods[n]) <==> Template(cm.pods[n].labels, cm.pods[n].spec) == t {
        UpdatedIff(t, cm.pods[n]);
      }
    }

    /** A tick: every deployment once, in the order in which the source happens to walk the map. */
    method MonitorDeployment(fates: nat -> Fate) returns (alive: bool, ghost order: seq<string>)
      requires Wired() && Healthy(View())
      requires FreshFates(View(), fates)
      modifies this, pods, cm, pods.legacy, etcd
      ensures NoDup(order) && forall d :: d in order <==> d in old(View()).ix.deployments
      ensures (forall j | 0 <= j < |order| :: HasDeployment(old(View()), order[j])) &&
        match MonitorEach(old(View()), order, fates, |order|)
        case None => !alive
        case Some(r) => alive && View() == r
    {
      hide Healthy, NoDup, Unused, Monitor, MonitorEach, FreshFates;
      ghost var start := View();
      HealthyKeys(start);
      var deployments := ListDeployments();
      order := deployments;
      EachNone(start, deployments, fates);
      for i := 0 to |deployments|
        invariant MonitorEach(start, deployments, fates, i) == Some(View())
      {
        EachHealthy(start, deployments, fates, i);
        EachNext(start, deployments, fates, i);
        HealthySound(View());
        alive := MonitorOne(deployments[i], fates(i));
        if !alive {
          EachStaysNone(start, deployments, fates, i + 1, |deployments|);
          return;
        }
      }
      alive := true;
    }

    // ---- events ----

    method HandlePodDeletion(pod: Pod, deploymentName: string)
      requires Wired() && Keyed(cm.View())
      modifies this, cm`deployments, etcd
      ensures View() == CountDeletion(old(View()), pod, deploymentName)
    {
      hide AfterRemoval;
      if pod.name in expectDeletedPod {
        expectDeletedPod := expectDeletedPod - {pod.name};
        return;
      }
      if deploymentName in cm.deployments {
        UpdateDeploymentStatusOnPodRemoval(deploymentName, pod);
        etcd.PutDeployment(deploymentName, cm.deployments[deploymentName]);
      }
    }

    method HandlePodReady(name: string)
      requires Wired() && Rooted(cm.View()) && name in cm.pods
      modifies cm`deployments, etcd
      ensures View() == CountReady(old(View()), name)
    {
      hide Owned, Inc;
      var found := cm.GetDeploymentByPodName(name);
      if found.Some? {
        var dep := found.value;
        dep := dep.(status := dep.status.(ready := Inc(dep.status.ready)));
        if IsPodUpdated(dep.spec.template, cm.pods[name]) {
          dep := dep.(status := dep.status.(updated := Inc(dep.status.updated)));
          cm.UpdateDeployment(dep);
          etcd.PutDeployment(dep.name, dep);
        } else {
          cm.UpdateDeployment(dep);
        }
      }
    }

    method HandlePodFail(name: string, ok: bool)
      requires Wired() && Rooted(cm.View())
      modifies this, pods, cm, pods.legacy, etcd
      ensures View() == DropFailed(old(View()), name, ok)
    {
      hide Owned, LegacyOf, Forget, AfterRemoval;
      if name !in cm.pods {
        return;
      }
      var pod := cm.pods[name];
      var found := cm.GetDeploymentByPodName(name);
      if found.Some? {
        var done := DeleteDeploymentPod(found.value.name, pod, ok);
      }
    }

    // ---- requests ----

    method ApplyDeployment(d: Deployment) returns (ok: bool)
      requires Wired() && Keyed(cm.View())
      modifies cm, etcd
      ensures ok <==> !ApplyRefused(old(View()), d)
      ensures ok ==> d.name in cm.deployments && cm.deployments[d.name].spec == d.spec
      ensures View() == Apply(old(View()), d)
    {
      hide Autoscaled;
      var watched := cm.DeploymentAutoscaled(d.name);
      if watched {
        return false;
      }
      if d.name in cm.deployments {
        var dep := cm.deployments[d.name];
        if dep.spec.template != d.spec.template {
          if d.spec.rolling.maxSurge == 0 && d.spec.rolling.maxUnavailable == 0 {
            return false;
          }
          dep := dep.(spec := dep.spec.(template := d.spec.template), status := dep.status.(updated := 0));
        }
        dep := dep.(spec := dep.spec.(replicas := d.spec.replicas, rolling := d.spec.rolling));
        cm.UpdateDeployment(dep);
        etcd.PutDeployment(d.name, dep);
      } else {
        var dep := d.(status := Status(0, 0, 0));
        etcd.PutDeployment(d.name, dep);
        cm.SetDeployment(dep, []);
        assert NamesOf([]) == [];
      }
      ok := true;
    }

    /** One attempt on the first pod of a deployment that is being deleted. */
    method DeleteFront(name: string, ok: bool) returns (deleted: bool)
      requires Wired() && Healthy(View()) && HasDeployment(View(), name) && cm.deploymentToPods[name] != []
      modifies pods, cm, pods.legacy, etcd
      ensures deleted == ok
      ensures View() == if ok then DeletePod(old(View()), old(cm.deploymentToPods)[name][0], true, Teardown) else old(View())
    {
      hide Healthy, Cluster.DeletePod, Owned;
      HealthyRooted(View());
      FrontFacts(View(), name);
      DeletionFails(View(), cm.deploymentToPods[name][0], Teardown);
      deleted := pods.DeletePodByName(cm.deploymentToPods[name][0], ok, Teardown);
    }

    /** Deletes the first pod of the list until the list is empty, however often that fails. It ends because
        after any attempt i there is one, due(i), that succeeds. */
    method DeleteDeploymentByName(name: string, ok: nat -> bool, ghost due: nat -> nat) returns (done: bool)
      requires Wired() && Healthy(View())
      requires forall i: nat :: due(i) >= i && ok(due(i))
      modifies this, pods, cm, pods.legacy, etcd
      ensures done <==> HasDeployment(old(View()), name)
      ensures View() == DeleteDeployment(old(View()), name)
    {
      hide Healthy, TearDown, Cluster.DeletePod, DeleteDeployment, ForgetDeployment;
      HealthyRooted(View());
      MissingDeployment(View(), name);
      if name !in cm.deployments {
        return false;
      }
      ghost var start := View();
      var attempts := DeleteAll(name, ok, due);
      DeletionEnds(start, name);
      etcd.DeleteDeployment(name);
      cm.DeleteDeploymentByName(name);
      done := true;
    }

    /** The loop over the shrinking list; returns how many attempts it took. */
    method DeleteAll(name: string, ok: nat -> bool, ghost due: nat -> nat) returns (attempts: nat)
      requires Wired() && Healthy(View()) && HasDeployment(View(), name)
      requires forall i: nat :: due(i) >= i && ok(due(i))
      modifies pods, cm, pods.legacy, etcd
      ensures View() == TearDown(old(View()), old(cm.deploymentToPods)[name], |old(cm.deploymentToPods)[name]|)
      ensures HasDeployment(View(), name) && cm.deploymentToPods[name] == []
      ensures attempts >= |old(cm.deploymentToPods)[name]|
    {
      hide Healthy, TearDown, Cluster.DeletePod;
      ghost var start, names, k, next := View(), cm.deploymentToPods[name], 0, due(0);
      TearDownNone(start, names);
      TeardownSound(start, name, 0);
      attempts := 0;
      while cm.deploymentToPods[name] != []
        invariant 0 <= k <= |names| && k <= attempts && View() == TearDown(start, names, k)
        invariant attempts <= next && ok(next)
        invariant Healthy(View()) && HasDeployment(View(), name) && cm.deploymentToPods[name] == names[k..]
        decreases |names| - k, next - attempts
      {
        assert names[k..][0] == names[k];
        TearDownNext(start, names, k);
        var deleted := DeleteFront(name, ok(attempts));
        attempts := attempts + 1;
        if deleted {
          k := k + 1;
          next := due(attempts);
          TeardownSound(start, name, k);
        }
      }
    }

    method ListDeployments() returns (names: seq<string>)
      ensures Lists(cm.deployments.Keys, names)
    {
      names := Walk(cm.deployments.Keys);
    }
  }

  lemma HealthyRooted(s: State)
    requires Healthy(s)
    ensures Rooted(s.ix) && s.ix.deployments.Keys == s.ix.deploymentToPods.Keys
  {
  }

  lemma TearDownNone(s: State, names: seq<string>)
    ensures TearDown(s, names, 0) == s
  {
  }

  lemma TearDownNext(s: State, names: seq<string>, k: nat)
    requires k < |names|
    ensures TearDown(s, names, k + 1) == DeletePod(TearDown(s, names, k), names[k], true, Teardown)
  {
    hide DeletePod;
  }

  lemma MissingDeployment(s: State, d: string)
    ensures !HasDeployment(s, d) ==> DeleteDeployment(s, d) == s
  {
  }

  /** After the last pod the deployment itself goes. */
  lemma DeletionEnds(s: State, d: string)
    requires HasDeployment(s, d)
    requires d in TearDown(s, s.ix.deploymentToPods[d], |s.ix.deploymentToPods[d]|).ix.deploymentToPods
    ensures var t := TearDown(s, s.ix.deploymentToPods[d], |s.ix.deploymentToPods[d]|);
      DeleteDeployment(s, d) == t.(ix := ForgetDeployment(t.ix, d),
        store := t.store.(deployments := t.store.deployments - {d}, deploymentPods := t.store.deploymentPods - {d}))
  {
    hide TearDown, ForgetDeployment;
  }

  lemma DeletionFails(s: State, name: string, actor: Actor)
    ensures DeletePod(s, name, false, actor) == s
  {
  }

  lemma NoOutdated(ix: Index, t: Template)
    ensures OutdatedNames(ix, t, []) == []
  {
  }

  lemma SoundName(s: State, d: string)
    requires Sound(s) && d in s.ix.deployments
    ensures s.ix.deployments[d].name == d
  {
  }

  lemma OutdatedTargets(s: State, d: string)
    requires Sound(s) && HasDeployment(s, d)
    ensures Targeted(s, d, OutdatedNames(s.ix, s.ix.deployments[d].spec.template, s.ix.deploymentToPods[d]))
  {
    hide Sound, NoDup, Owns;
    ListOwned(s, d);
    OutdatedFrom(s.ix, s.ix.deployments[d].spec.template, s.ix.deploymentToPods[d]);
  }

  lemma OwnedPod(s: State, d: string, name: string)
    requires Sound(s) && Owns(s.ix, d, name)
    ensures name in s.ix.pods && s.ix.pods[name].name == name && Indexed(s.ix)
  {
  }

  lemma DiscardTargets(s: State, d: string, targets: seq<string>, k: nat, ok: nat -> bool)
    requires Sound(s) && HasDeployment(s, d) && k <= |targets| && Targeted(s, d, targets)
    ensures Sound(DiscardEach(s, d, targets, k, ok))
  {
    hide Sound, DiscardEach, Unused, Kept, Owns;
    DiscardEachSound(s, d, targets, k, ok);
  }

  lemma BackNone(s: State, d: string, ok: nat -> bool, offset: nat)
    requires HasDeployment(s, d)
    ensures DiscardBack(s, d, 0, ok, offset) == Some(s)
  {
  }

  lemma BackNext(s: State, d: string, i: nat, ok: nat -> bool, offset: nat)
    requires HasDeployment(s, d) && DiscardBack(s, d, i, ok, offset).Some?
    ensures var w := DiscardBack(s, d, i, ok, offset).value;
      var list := w.ix.deploymentToPods[d];
      DiscardBack(s, d, i + 1, ok, offset) ==
        if list == [] then None else Some(Discard(w, d, list[|list| - 1], ok(offset + i)))
  {
    hide Discard;
  }

  lemma {:induction false} BackStaysNone(s: State, d: string, i: nat, n: nat, ok: nat -> bool, offset: nat)
    requires HasDeployment(s, d) && i <= n && DiscardBack(s, d, i, ok, offset).None?
    ensures DiscardBack(s, d, n, ok, offset).None?
    decreases n
  {
    hide Discard;
    if i < n {
      BackStaysNone(s, d, i, n - 1, ok, offset);
    }
  }

  // ---- all deployments ----

  lemma HealthyKeys(s: State)
    requires Healthy(s)
    ensures forall d | d in s.ix.deployments :: HasDeployment(s, d)
  {
  }

  lemma HealthySound(s: State)
    requires Healthy(s)
    ensures Sound(s)
  {
  }

  /** The names the environment draws in the ticks are new when they are drawn: none is in use now, and ticks
      do not share names. */
  ghost predicate FreshFates(s: State, fates: nat -> Fate) {
    && (forall k: nat, i: nat :: Unused(s, fates(k).names(i)))
    && (forall k: nat, i: nat, l: nat, j: nat | k != l :: fates(k).names(i) != fates(l).names(j))
  }

  lemma {:induction false} EachHealthy(s: State, order: seq<string>, fates: nat -> Fate, k: nat)
    requires Healthy(s) && k <= |order| && (forall j | 0 <= j < |order| :: HasDeployment(s, order[j])) && FreshFates(s, fates)
    ensures MonitorEach(s, order, fates, k).Some? ==>
      var r := MonitorEach(s, order, fates, k).value;
      Healthy(r) && forall l: nat, i: nat | l >= k :: Unused(r, fates(l).names(i))
    decreases k
  {
    hide Healthy, Unused, Monitor;
    if k > 0 {
      EachHealthy(s, order, fates, k - 1);
      var w := MonitorEach(s, order, fates, k - 1);
      if w.Some? {
        MonitorHealthy(w.value, order[k - 1], fates(k - 1));
        if Monitor(w.value, order[k - 1], fates(k - 1)).Some? {
          forall l: nat, i: nat | l >= k ensures Unused(Monitor(w.value, order[k - 1], fates(k - 1)).value, fates(l).names(i)) {
            StillUnused(w.value, order[k - 1], fates(k - 1), fates(l).names(i));
          }
        }
      }
    }
  }

  /** A tick uses no name but those it draws. */
  lemma StillUnused(s: State, d: string, fate: Fate, name: string)
    requires Healthy(s) && HasDeployment(s, d) && Unused(s, name)
    requires forall i: nat :: Unused(s, fate.names(i)) && fate.names(i) != name
    ensures Monitor(s, d, fate).Some? ==> Unused(Monitor(s, d, fate).value, name)
  {
    hide Sound, Unused, Kept, FewerPods, MorePods, RollingDeletion, RollingCreation;
    var dep := s.ix.deployments[d];
    if dep.status.updated < dep.status.ready {
      var deletion := RollingDeletion(s.ix, d);
      var w := if deletion > 0 then FewerPods(s, d, deletion, fate.deletes) else Some(s);
      if deletion > 0 {
        FewerSound(s, d, deletion, fate.deletes);
      }
      if w.Some? && RollingCreation(w.value.ix, d) > 0 {
        MoreUnused(w.value, d, RollingCreation(w.value.ix, d), fate, name);
      }
    } else {
      var diff := dep.spec.replicas - dep.status.replicas;
      if diff > 0 {
        MoreUnused(s, d, diff, fate, name);
      } else if diff < 0 {
        FewerSound(s, d, -diff, fate.deletes);
      }
    }
  }

  lemma MoreUnused(s: State, d: string, n: nat, fate: Fate, name: string)
    requires Sound(s) && HasDeployment(s, d) && Unused(s, name)
    requires forall i: nat :: Unused(s, fate.names(i)) && fate.names(i) != name
    ensures Unused(MorePods(s, d, n, fate), name)
  {
    hide Sound, Unused, Kept, GrowEach;
    GrowEachUnused(s, d, fate, n, name);
    GrowEachLive(s, d, fate, n);
    PersistSound(GrowEach(s, d, fate, n), d);
  }

  lemma EachNone(s: State, order: seq<string>, fates: nat -> Fate)
    requires forall j | 0 <= j < |order| :: HasDeployment(s, order[j])
    ensures MonitorEach(s, order, fates, 0) == Some(s)
  {
  }

  lemma EachNext(s: State, order: seq<string>, fates: nat -> Fate, k: nat)
    requires k < |order| && (forall j | 0 <= j < |order| :: HasDeployment(s, order[j]))
    requires MonitorEach(s, order, fates, k).Some?
    ensures HasDeployment(MonitorEach(s, order, fates, k).value, order[k])
    ensures MonitorEach(s, order, fates, k + 1) == Monitor(MonitorEach(s, order, fates, k).value, order[k], fates(k))
  {
    hide Monitor;
  }

  lemma {:induction false} EachStaysNone(s: State, order: seq<string>, fates: nat -> Fate, i: nat, n: nat)
    requires i <= n <= |order| && (forall j | 0 <= j < |order| :: HasDeployment(s, order[j])) && MonitorEach(s, order, fates, i).None?
    ensures MonitorEach(s, order, fates, n).None?
    decreases n
  {
    hide Monitor;
    if i < n {
      EachStaysNone(s, order, fates, i, n - 1);
    }
  }
}
