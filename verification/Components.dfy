/**
 The component manager (pkg/apiserver/component.go) and the legacy manager (pkg/apiserver/legacy.go).
 */
module Components {
  import opened Sequences
  import opened Core
  import opened Cluster
  import opened ClusterInvariants
  import opened ClusterSteps
  import opened ClusterEvents

  lemma {:induction false} RemoveFirstAt(xs: seq<string>, x: string, i: nat)
    requires i < |xs| && xs[i] == x && x !in xs[..i]
    ensures RemoveFirst(xs, x) == xs[..i] + xs[i + 1..]
  {
    if i > 0 {
      assert xs[0] in xs[..i] && forall y | y in xs[1..][..i - 1] :: y in xs[..i];
      RemoveFirstAt(xs[1..], x, i - 1);
      assert xs[..i] + xs[i + 1..] == [xs[0]] + (xs[1..][..i - 1] + xs[1..][i..]);
    }
  }

  /** The loop that unlinks the first element with the name. */
  method Unlink(list: seq<string>, name: string) returns (r: seq<string>)
    ensures r == RemoveFirst(list, name)
  {
    r := list;
    for i := 0 to |list|
      invariant r == list && name !in list[..i]
    {
      if list[i] == name {
        RemoveFirstAt(list, name, i);
        return list[..i] + list[i + 1..];
      }
    }
  }

  /** The same in every list of a map, in the order in which the map happens to be walked. */
  method UnlinkEverywhere(lists: map<string, seq<string>>, name: string) returns (r: map<string, seq<string>>)
    ensures r == RemoveEverywhere(lists, name)
  {
    r := lists;
    var left := lists.Keys;
    while left != {}
      invariant left <= lists.Keys == r.Keys
      invariant forall k | k in lists :: r[k] == if k in left then lists[k] else RemoveFirst(lists[k], name)
    {
      var k :| k in left;
      var list := Unlink(lists[k], name);
      r := r[k := list];
      left := left - {k};
    }
  }

  method DropAll(pods: map<string, Pod>, list: seq<string>) returns (r: map<string, Pod>)
    ensures r == pods - (set n | n in list)
  {
    r := pods;
    for i := 0 to |list|
      invariant forall n :: n in r <==> n in pods && n !in list[..i]
      invariant forall n | n in r :: r[n] == pods[n]
    {
      assert list[..i + 1] == list[..i] + [list[i]];
      r := r - {list[i]};
    }
    assert list[..|list|] == list;
  }

  /** The pods after every pod of a list has been set. */
  function PutAll(pods: map<string, Pod>, list: seq<Pod>, k: nat): map<string, Pod>
    requires k <= |list|
  {
    if k == 0 then pods else PutAll(pods, list, k - 1)[list[k - 1].name := list[k - 1]]
  }

  /** The last pod of a name counts. */
  lemma {:induction false} PutAllAt(pods: map<string, Pod>, list: seq<Pod>, k: nat, i: nat)
    requires i < k <= |list| && forall j | i < j < k :: list[j].name != list[i].name
    ensures list[i].name in PutAll(pods, list, k) && PutAll(pods, list, k)[list[i].name] == list[i]
  {
    if i < k - 1 {
      PutAllAt(pods, list, k - 1, i);
    }
  }

  lemma {:induction false} PutAllElsewhere(pods: map<string, Pod>, list: seq<Pod>, k: nat, n: string)
    requires k <= |list| && forall i | 0 <= i < k :: list[i].name != n
    ensures n in PutAll(pods, list, k) <==> n in pods
    ensures n in pods ==> PutAll(pods, list, k)[n] == pods[n]
  {
    if k > 0 {
      PutAllElsewhere(pods, list, k - 1, n);
    }
  }

  function NamesOf(list: seq<Pod>): (r: seq<string>)
    ensures |r| == |list| && forall i | 0 <= i < |list| :: r[i] == list[i].name
  {
    seq(|list|, i requires 0 <= i < |list| => list[i].name)
  }

  /** Every key once, in some order. */
  ghost predicate Lists(keys: set<string>, names: seq<string>) {
    NoDup(names) && forall x :: x in names <==> x in keys
  }

  /** A walk over the keys of a map. */
  method Walk(keys: set<string>) returns (names: seq<string>)
    ensures Lists(keys, names)
  {
    names := [];
    var left := keys;
    while left != {}
      invariant left <= keys && NoDup(names)
      invariant forall x :: x in names <==> x in keys && x !in left
    {
      var x :| x in left;
      NoDupAdd(names, x);
      names := names + [x];
      left := left - {x};
    }
  }

  class ComponentManagerInner {
    var pods: map<string, Pod>
    var deployments: map<string, Deployment>
    var deploymentToPods: map<string, seq<string>>
    var services: map<string, Service>
    var servicesToPods: map<string, seq<string>>
    var autoscalers: map<string, Autoscaler>

    function View(): Index
      reads this
    {
      Index(pods, deployments, deploymentToPods, services, servicesToPods, autoscalers)
    }

    constructor ()
      ensures View() == Index(map[], map[], map[], map[], map[], map[])
    {
      pods, deployments, deploymentToPods := map[], map[], map[];
      services, servicesToPods, autoscalers := map[], map[], map[];
    }

    method SetPod(pod: Pod)
      modifies this
      ensures View() == old(View()).(pods := old(pods)[pod.name := pod])
    {
      pods := pods[pod.name := pod];
    }

    /** The pod disappears from the pods and from every list. */
    method DeletePodByName(name: string)
      modifies this
      ensures View() == Forget(old(View()), name)
    {
      pods := pods - {name};
      servicesToPods := UnlinkEverywhere(servicesToPods, name);
      deploymentToPods := UnlinkEverywhere(deploymentToPods, name);
    }

    /** The pods in a phase whose labels contain a selector. */
    method ListPodsByLabelsAndPhase(selector: Labels, phase: Phase) returns (names: seq<string>)
      ensures NoDup(names)
      ensures forall n :: n in names <==> n in pods && pods[n].phase == phase && IsSubset(selector, pods[n].labels)
      ensures forall n | n in pods :: n in names <==> pods[n].phase == phase && selector.Items <= pods[n].labels.Items
    {
      hide IsSubset;
      names := [];
      var left := pods.Keys;
      while left != {}
        invariant left <= pods.Keys && NoDup(names)
        invariant forall n :: n in names <==>
          n in pods && n !in left && pods[n].phase == phase && IsSubset(selector, pods[n].labels)
      {
        var n :| n in left;
        var fits := IsSubsetLoop(selector, pods[n].labels);
        if pods[n].phase == phase && fits {
          NoDupAdd(names, n);
          names := names + [n];
        }
        left := left - {n};
      }
      forall n | n in pods ensures IsSubset(selector, pods[n].labels) <==> selector.Items <= pods[n].labels.Items {
        SubsetIff(selector, pods[n].labels);
      }
    }

    /** The services whose selector the labels contain. */
    method ListServicesByLabels(labels: Labels) returns (names: seq<string>)
      requires Keyed(View())
      ensures NoDup(names) && forall k :: k in names <==> Selects(View(), k, labels)
      ensures forall k | k in services :: k in names <==> services[k].selector.Items <= labels.Items
    {
      hide IsSubset;
      names := [];
      var left := services.Keys;
      while left != {}
        invariant left <= services.Keys && NoDup(names)
        invariant forall k :: k in names <==> k !in left && Selects(View(), k, labels)
      {
        var k :| k in left;
        var fits := IsSubsetLoop(services[k].selector, labels);
        if fits {
          NoDupAdd(names, services[k].name);
          names := names + [services[k].name];
        }
        left := left - {k};
      }
      forall k | k in services ensures IsSubset(services[k].selector, labels) <==> services[k].selector.Items <= labels.Items {
        SubsetIff(services[k].selector, labels);
      }
    }

    /** The deployment whose list has the pod: whatever the order of the walk, there is at most one. */
    method GetDeploymentByPodName(name: string) returns (d: Option<Deployment>)
      requires Rooted(View())
      ensures d == match OwnerOf(View(), name) { case None => None case Some(o) => Some(deployments[o]) }
    {
      hide NoDup;
      d := None;
      var left := deploymentToPods.Keys;
      while left != {}
        invariant left <= deploymentToPods.Keys && d == None
        invariant forall k | k !in left :: !Owns(View(), k, name)
      {
        var k :| k in left;
        var list := deploymentToPods[k];
        for i := 0 to |list|
          invariant name !in list[..i]
        {
          if list[i] == name {
            assert Owns(View(), k, name);
            return Some(deployments[k]);
          }
        }
        left := left - {k};
      }
    }

    method SetDeployment(deployment: Deployment, list: seq<Pod>)
      modifies this
      ensures View() == old(View()).(pods := PutAll(old(pods), list, |list|),
                                     deployments := old(deployments)[deployment.name := deployment],
                                     deploymentToPods := old(deploymentToPods)[deployment.name := NamesOf(list)])
      ensures forall i | 0 <= i < |list| && (forall j | i < j < |list| :: list[j].name != list[i].name) ::
        list[i].name in pods && pods[list[i].name] == list[i]
      ensures forall n | (forall i | 0 <= i < |list| :: list[i].name != n) ::
        (n in pods <==> n in old(pods)) && (n in old(pods) ==> pods[n] == old(pods)[n])
    {
      for i := 0 to |list|
        invariant View() == old(View()).(pods := PutAll(old(pods), list, i))
      {
        pods := pods[list[i].name := list[i]];
      }
      deployments := deployments[deployment.name := deployment];
      deploymentToPods := deploymentToPods[deployment.name := NamesOf(list)];
      forall i | 0 <= i < |list| && (forall j | i < j < |list| :: list[j].name != list[i].name)
        ensures list[i].name in pods && pods[list[i].name] == list[i]
      {
        PutAllAt(old(pods), list, |list|, i);
      }
      forall n | forall i | 0 <= i < |list| :: list[i].name != n
        ensures (n in pods <==> n in old(pods)) && (n in old(pods) ==> pods[n] == old(pods)[n])
      {
        PutAllElsewhere(old(pods), list, |list|, n);
      }
    }

    /** The source stores the pointer it was given; here the object is written back. */
    method UpdateDeployment(deployment: Deployment)
      modifies `deployments
      ensures deployments == old(deployments)[deployment.name := deployment]
    {
      deployments := deployments[deployment.name := deployment];
    }

    method PushBack(deployment: string, name: string)
      requires deployment in deploymentToPods
      modifies `deploymentToPods
      ensures deploymentToPods == old(deploymentToPods)[deployment := old(deploymentToPods)[deployment] + [name]]
    {
      deploymentToPods := deploymentToPods[deployment := deploymentToPods[deployment] + [name]];
    }

    /** The deployment disappears with the pods in its list and the autoscalers that target it. */
    method DeleteDeploymentByName(name: string)
      requires name in deploymentToPods
      modifies this
      ensures View() == ForgetDeployment(old(View()), name)
    {
      pods := DropAll(pods, deploymentToPods[name]);
      deploymentToPods := deploymentToPods - {name};
      deployments := deployments - {name};
      var left := autoscalers.Keys;
      while left != {}
        invariant left <= old(autoscalers).Keys
        invariant View() == ForgetDeployment(old(View()), name).(autoscalers := autoscalers)
        invariant autoscalers ==
          map a | a in old(autoscalers) && (a in left || !Targets(old(autoscalers)[a], name)) :: old(autoscalers)[a]
      {
        var a :| a in left;
        if Targets(autoscalers[a], name) {
          autoscalers := autoscalers - {a};
        }
        left := left - {a};
      }
    }

    method SetService(service: Service, list: seq<string>)
      modifies this
      ensures View() == old(View()).(services := old(services)[service.name := service],
                                     servicesToPods := old(servicesToPods)[service.name := list])
    {
      servicesToPods := servicesToPods[service.name := list];
      services := services[service.name := service];
    }

    method DeleteServiceByName(name: string)
      modifies this
      ensures View() == old(View()).(services := old(services) - {name}, servicesToPods := old(servicesToPods) - {name})
    {
      servicesToPods := servicesToPods - {name};
      services := services - {name};
    }

    method AddPodToService(service: string, name: string)
      requires service in servicesToPods
      modifies `servicesToPods
      ensures servicesToPods == old(servicesToPods)[service := old(servicesToPods)[service] + [name]]
    {
      servicesToPods := servicesToPods[service := servicesToPods[service] + [name]];
    }

    method SetAutoscaler(autoscaler: Autoscaler)
      modifies `autoscalers
      ensures autoscalers == old(autoscalers)[autoscaler.name := autoscaler]
    {
      autoscalers := autoscalers[autoscaler.name := autoscaler];
    }

    method DeploymentAutoscaled(name: string) returns (found: bool)
      ensures found <==> Autoscaled(View(), name)
      ensures found <==> exists a :: a in autoscalers && autoscalers[a].kind == "Deployment" && autoscalers[a].target == name
    {
      found := false;
      var left := autoscalers.Keys;
      while left != {}
        invariant left <= autoscalers.Keys
        invariant forall a | a in autoscalers && a !in left :: !Targets(autoscalers[a], name)
      {
        var a :| a in left;
        if Targets(autoscalers[a], name) {
          return true;
        }
        left := left - {a};
      }
    }
  }

  /** The loop of api.IsSubset. */
  method IsSubsetLoop(inner: Labels, outer: Labels) returns (subset: bool)
    ensures subset <==> IsSubset(inner, outer)
    ensures subset <==> inner.Items <= outer.Items
  {
    SubsetIff(inner, outer);
    var left := inner.Keys;
    while left != {}
      invariant left <= inner.Keys
      invariant forall k | k in inner && k !in left :: k in outer && outer[k] == inner[k]
    {
      var k :| k in left;
      if k !in outer || outer[k] != inner[k] {
        return false;
      }
      left := left - {k};
    }
    return true;
  }

  class LegacyManagerInner {
    const componentManager: ComponentManagerInner
    var podLegacy: map<string, string>

    constructor (componentManager: ComponentManagerInner)
      ensures this.componentManager == componentManager && podLegacy == map[]
    {
      this.componentManager, podLegacy := componentManager, map[];
    }

    method SetPodLegacy(name: string)
      requires Rooted(componentManager.View())
      modifies this
      ensures podLegacy == old(podLegacy)[name := LegacyOf(componentManager.View(), name)]
    {
      var d := componentManager.GetDeploymentByPodName(name);
      podLegacy := podLegacy[name := if d.Some? then d.value.name else ""];
    }

    method DeletePodLegacyByName(name: string)
      modifies this
      ensures podLegacy == old(podLegacy) - {name}
    {
      podLegacy := podLegacy - {name};
    }
  }
}
