/**
 The service controller (pkg/apiserver/service/controller.go), and the handlers of cmd/apiserver/app/server.go that
 turn messages into events.
 */
module Server {
  import opened Sequences
  import opened Core
  import opened Cluster
  import opened ClusterInvariants
  import opened ClusterSteps
  import opened ClusterHandlers
  import opened ClusterEvents
  import opened ClusterDeletion
  import opened ClusterRuns
  import opened Components
  import opened Controllers
  import opened ClusterIP
  import A = Agreement

  class ServiceController {
    const cm: ComponentManagerInner
    const clusterIPAssigner: ClusterIPAssigner
    const etcd: Etcd

    constructor (cm: ComponentManagerInner, assigner: ClusterIPAssigner, etcd: Etcd)
      ensures this.cm == cm && clusterIPAssigner == assigner && this.etcd == etcd
    {
      this.cm, clusterIPAssigner, this.etcd := cm, assigner, etcd;
    }

    /** Takes an address and tells the nodes about the service with the ready pods it selects; it is recorded when the
        nodes and both writes to etcd succeed. An address that was taken is used up in any case, and a service whose
        second write fails stays in etcd without a list. */
    method CreateService(service: Service, put: bool, nodes: bool, meta: bool, list: bool)
      returns (told: Option<Service>, order: seq<string>, ok: bool)
      modifies cm, clusterIPAssigner, etcd`services, etcd`servicePods
      ensures service.name in old(cm.services) ==>
        !ok && told == None && cm.View() == old(cm.View()) && clusterIPAssigner.View() == old(clusterIPAssigner.View())
      ensures etcd.services == if told.Some? && nodes && meta then old(etcd.services)[service.name := told.value]
                               else old(etcd.services)
      ensures etcd.servicePods == if told.Some? && nodes && meta && list then old(etcd.servicePods)[service.name := order]
                                  else old(etcd.servicePods)
      ensures service.name !in old(cm.services) ==>
        var ip := Answer(old(clusterIPAssigner.View()), Next(put));
        && clusterIPAssigner.View() == ClusterIP.Step(old(clusterIPAssigner.View()), Next(put))
        && told == (if ip == None then None else Some(service.(clusterIP := ip)))
        && (told.Some? ==> Enumerates(old(cm.View()), service.selector, order))
        && (told.Some? ==> forall n | n in old(cm.pods) ::
              n in order <==> old(cm.pods)[n].phase.Ready? && service.selector.Items <= old(cm.pods)[n].labels.Items)
        && (ok <==> told.Some? && nodes && meta && list)
        && (!ok ==> cm.View() == old(cm.View()))
        && (ok ==> forall s: State | s.ix == old(cm.View()) :: cm.View() == Cluster.CreateService(s, told.value, order).ix)
    {
      hide IsSubset, ClusterIP.Step, Answer;
      told, order, ok := None, [], false;
      if service.name in cm.services {
        return;
      }
      var ip := clusterIPAssigner.NextClusterIP(put);
      if ip == None {
        return;
      }
      told := Some(service.(clusterIP := ip));
      order := cm.ListPodsByLabelsAndPhase(service.selector, Ready);
      if !nodes || !meta {
        return;
      }
      etcd.PutService(service.name, told.value);
      if !list {
        return;
      }
      etcd.PutServicePods(service.name, order);
      cm.SetService(told.value, order);
      ok := true;
    }

    /** The service stays when a node does not take the call. That etcd keeps a key is not reported; the second key is
        not deleted when the first is not. */
    method DeleteServiceByName(name: string, nodes: bool, meta: bool, list: bool) returns (ok: bool)
      modifies cm, etcd`services, etcd`servicePods
      ensures etcd.services == if ok && meta then old(etcd.services) - {name} else old(etcd.services)
      ensures etcd.servicePods == if ok && meta && list then old(etcd.servicePods) - {name} else old(etcd.servicePods)
      ensures ok <==> name in old(cm.services) && nodes
      ensures !ok ==> cm.View() == old(cm.View())
      ensures ok ==> forall s: State | s.ix == old(cm.View()) :: cm.View() == Cluster.DeleteService(s, name).ix
    {
      if name !in cm.services || !nodes {
        return false;
      }
      if meta {
        etcd.DeleteService(name);
        if list {
          etcd.DeleteServicePods(name);
        }
      }
      cm.DeleteServiceByName(name);
      ok := true;
    }

    /** The pod joins every service that selects it, once the nodes have been told about the same names; if a node does
        not take the call it joins none. */
    method HandlePodReady(name: string, nodes: bool) returns (names: seq<string>, ok: bool)
      requires Keyed(cm.View()) && name in cm.pods
      modifies cm
      ensures A.Listing(old(cm.View()), old(cm.pods)[name].labels, names)
      ensures forall k | k in old(cm.services) ::
        k in names <==> old(cm.services)[k].selector.Items <= old(cm.pods)[name].labels.Items
      ensures ok <==> names == [] || nodes
      ensures cm.View() == if nodes then JoinServices(old(cm.View()), old(cm.pods)[name]) else old(cm.View())
    {
      hide IsSubset, NoDup;
      var pod := cm.pods[name];
      names := cm.ListServicesByLabels(pod.labels);
      ok := names == [] || nodes;
      if nodes {
        AddPodToEach(names, name);
      }
    }

    method AddPodToEach(names: seq<string>, name: string)
      requires NoDup(names) && forall k | k in names :: k in cm.servicesToPods
      modifies cm
      ensures cm.View() == old(cm.View()).(servicesToPods := map k | k in old(cm.servicesToPods) ::
        old(cm.servicesToPods)[k] + if k in names then [name] else [])
    {
      hide NoDup;
      for i := 0 to |names|
        invariant cm.View() == old(cm.View()).(servicesToPods := cm.servicesToPods)
        invariant cm.servicesToPods.Keys == old(cm.servicesToPods).Keys
        invariant forall k | k in cm.servicesToPods ::
          cm.servicesToPods[k] == old(cm.servicesToPods)[k] + if k in names[..i] then [name] else []
      {
        assert names[i] in names;
        NotEarlier(names, i);
        assert names[..i + 1] == names[..i] + [names[i]];
        assert old(cm.servicesToPods)[names[i]] + [] + [name] == old(cm.servicesToPods)[names[i]] + [name];
        cm.AddPodToService(names[i], name);
      }
      assert names[..|names|] == names;
    }

    /** The services the nodes are told to remove the pod from. */
    method HandlePodDeletion(pod: Pod) returns (names: seq<string>)
      requires Keyed(cm.View())
      ensures A.Listing(cm.View(), pod.labels, names)
      ensures forall k | k in cm.services :: k in names <==> cm.services[k].selector.Items <= pod.labels.Items
    {
      names := cm.ListServicesByLabels(pod.labels);
    }
  }

  lemma NotEarlier(xs: seq<string>, i: nat)
    requires NoDup(xs) && i < |xs|
    ensures xs[i] !in xs[..i]
  {
  }

  class ApiServer {
    const deployments: DeploymentController
    const services: ServiceController
    const cm: ComponentManagerInner
    const legacy: LegacyManagerInner
    const pods: PodController

    predicate Wired() {
      deployments.Wired() && services.cm == cm && deployments.cm == cm && deployments.pods == pods && pods.legacy == legacy
    }

    ghost function View(): State
      reads deployments, deployments.pods, deployments.pods.cm, deployments.pods.legacy, deployments.pods.etcd
    {
      deployments.View()
    }

    constructor (deployments: DeploymentController, services: ServiceController)
      requires deployments.Wired() && services.cm == deployments.cm
      ensures Wired() && this.deployments == deployments && this.services == services
    {
      this.deployments, this.services := deployments, services;
      cm, legacy, pods := deployments.cm, deployments.pods.legacy, deployments.pods;
    }

    /** A status report, with the events it causes: first the services, then the deployments hear of a ready
        pod. Refused when the pod is gone. */
    method UpdatePodStatus(name: string, phase: Phase, ip: string, ok: bool) returns (accepted: bool)
      requires Wired() && Rooted(cm.View())
      modifies deployments, pods, cm, legacy, pods.etcd
      ensures accepted <==> name in old(cm.pods)
      ensures View() == UpdateStatus(old(View()), name, phase, ip, ok)
    {
      hide CountReady, DropFailed, JoinServices, Owned, NoDup, IsSubset;
      ghost var start := View();
      var was := pods.UpdatePodStatus(name, phase, ip);
      assert View() == if name in start.ix.pods then WithPhase(start, name, phase, ip) else start;
      if was == None {
        return false;
      }
      PhaseRooted(start, name, phase, ip);
      if was.value != Ready && phase == Ready {
        var names, told := services.HandlePodReady(name, ok);
        JoinedRooted(start, name, ip, ok);
        JoinedParts(start, name, ip, ok);
        assert View() == Joined(start, name, ip, ok);
        deployments.HandlePodReady(name);
      }
      if was.value != Failed && phase == Failed {
        deployments.HandlePodFail(name, ok);
      }
      accepted := true;
    }

    /** A deletion notice with the kubelet's copy of the pod. Returns what the nodes are told. */
    method NotifyPodDeletion(pod: Pod) returns (names: seq<string>)
      requires Wired() && Keyed(cm.View())
      requires pod.name in pods.wire && pods.wire[pod.name].pod == pod
      modifies deployments, pods, cm, legacy, pods.etcd
      ensures A.Listing(old(cm.View()), pod.labels, names)
      ensures View() == Notify(old(View()), pod.name)
    {
      hide CountDeletion, IsSubset, NoDup;
      var owner := if pod.name in legacy.podLegacy then legacy.podLegacy[pod.name] else "";
      names := services.HandlePodDeletion(pod);
      ghost var start := View();
      CountDeletionWire(start, pod, owner);
      deployments.HandlePodDeletion(pod, owner);
      legacy.DeletePodLegacyByName(pod.name);
      pods.wire := pods.wire - {pod.name};
    }

  }

  lemma PhaseRooted(s: State, name: string, phase: Phase, ip: string)
    requires Rooted(s.ix) && name in s.ix.pods
    ensures Rooted(WithPhase(s, name, phase, ip).ix)
  {
    hide NoDup;
    forall d, n ensures Owns(WithPhase(s, name, phase, ip).ix, d, n) <==> Owns(s.ix, d, n) {
    }
  }

  lemma JoinedRooted(s: State, name: string, ip: string, ok: bool)
    requires Rooted(s.ix) && name in s.ix.pods
    ensures Rooted(Joined(s, name, ip, ok).ix)
  {
    hide NoDup, JoinServices;
    PhaseRooted(s, name, Ready, ip);
    JoinedParts(s, name, ip, ok);
    JoinedKeys(s, name, ip, ok);
  }

  lemma JoinedKeys(s: State, name: string, ip: string, ok: bool)
    requires name in s.ix.pods
    ensures Joined(s, name, ip, ok).ix.servicesToPods.Keys == s.ix.servicesToPods.Keys
  {
  }

  lemma CountDeletionWire(s: State, pod: Pod, owner: string)
    ensures var r := CountDeletion(s, pod, owner);
      r.wire == s.wire && r.legacy == s.legacy && r.ix.pods == s.ix.pods
  {
    hide AfterRemoval;
  }
}
