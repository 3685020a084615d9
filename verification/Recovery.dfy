/**
 Recovery of the API server from etcd (pkg/apiserver/recover/recover.go).
 */
module Recovery {
  import opened Sequences
  import opened Core
  import opened Cluster
  import opened ClusterInvariants
  import opened ClusterRuns
  import opened Components
  import opened Controllers
  import opened ClusterIP

  /** etcd's answer for a list: an error, here None, unless the key has exactly one value
      (pkg/apiserver/etcd/etcd.go:106-109). */
  method GetList(lists: map<string, seq<string>>, key: string) returns (names: Option<seq<string>>)
    ensures names == if key in lists then Some(lists[key]) else None
  {
    var values := if key in lists then [lists[key]] else [];
    if |values| != 1 {
      return None;
    }
    names := Some(values[0]);
  }

  method RecoverPods(etcd: Etcd, cm: ComponentManagerInner) returns (nameToPods: map<string, Pod>)
    requires cm.pods == map[] && forall n | n in etcd.pods :: etcd.pods[n].name == n
    modifies cm
    ensures cm.View() == old(cm.View()).(pods := etcd.pods) && nameToPods == etcd.pods
  {
    nameToPods := map[];
    var left := etcd.pods.Keys;
    while left != {}
      invariant left <= etcd.pods.Keys
      invariant cm.View() == old(cm.View()).(pods := cm.pods) && nameToPods == cm.pods
      invariant forall n :: n in cm.pods <==> n in etcd.pods && n !in left
      invariant forall n | n in cm.pods :: cm.pods[n] == etcd.pods[n]
    {
      var n :| n in left;
      nameToPods := nameToPods[n := etcd.pods[n]];
      cm.SetPod(etcd.pods[n]);
      left := left - {n};
    }
  }

  /** The loop that looks up the stored names. */
  method KnownPods(names: seq<string>, pods: map<string, Pod>) returns (list: seq<Pod>)
    ensures |list| == |Known(names, pods)|
    ensures forall i | 0 <= i < |list| :: Known(names, pods)[i] in pods && list[i] == pods[Known(names, pods)[i]]
  {
    list := [];
    for i := 0 to |names|
      invariant |list| == |Known(names[..i], pods)|
      invariant forall j | 0 <= j < |list| :: Known(names[..i], pods)[j] in pods && list[j] == pods[Known(names[..i], pods)[j]]
    {
      assert names[..i + 1] == names[..i] + [names[i]];
      KnownAppend(names[..i], names[i], pods);
      if names[i] in pods {
        list := list + [pods[names[i]]];
      }
    }
    assert names[..|names|] == names;
  }

  lemma {:induction false} KnownAppend(names: seq<string>, name: string, pods: map<string, Pod>)
    ensures Known(names + [name], pods) == Known(names, pods) + if name in pods then [name] else []
  {
    if names == [] {
      assert [] + [name] == [name];
    } else {
      assert (names + [name])[1..] == names[1..] + [name];
      KnownAppend(names[1..], name, pods);
    }
  }

  lemma {:induction false} PutAllKnown(pods: map<string, Pod>, list: seq<Pod>, k: nat)
    requires k <= |list| && forall i | 0 <= i < |list| :: list[i].name in pods && pods[list[i].name] == list[i]
    ensures PutAll(pods, list, k) == pods
  {
    if k > 0 {
      PutAllKnown(pods, list, k - 1);
    }
  }

  lemma KnownNames(pods: map<string, Pod>, list: seq<Pod>, names: seq<string>)
    requires forall n | n in pods :: pods[n].name == n
    requires |list| == |names| && forall i | 0 <= i < |list| :: names[i] in pods && list[i] == pods[names[i]]
    ensures NamesOf(list) == names
  {
  }

  /** The first k keys of an order. */
  function First(order: seq<string>, k: nat): set<string>
    requires k <= |order|
  {
    set x | x in order[..k]
  }

  lemma FirstNext(order: seq<string>, k: nat)
    requires k < |order|
    ensures First(order, 0) == {} && First(order, k + 1) == First(order, k) + {order[k]}
  {
    assert order[..k + 1] == order[..k] + [order[k]];
  }

  function Pick<T>(stored: map<string, T>, keys: set<string>): map<string, T> {
    map x | x in keys && x in stored :: stored[x]
  }

  /** The lists that are recovered for some keys. */
  function ListsOf(stored: map<string, seq<string>>, keys: set<string>, pods: map<string, Pod>): map<string, seq<string>> {
    map x | x in keys && x in stored :: Known(stored[x], pods)
  }

  lemma PickNext<T>(stored: map<string, T>, order: seq<string>, k: nat)
    requires k < |order| && order[k] in stored
    ensures Pick(stored, First(order, k + 1)) == Pick(stored, First(order, k))[order[k] := stored[order[k]]]
  {
    FirstNext(order, k);
  }

  lemma ListsNext(stored: map<string, seq<string>>, order: seq<string>, k: nat, pods: map<string, Pod>)
    requires k < |order| && order[k] in stored
    ensures ListsOf(stored, First(order, k + 1), pods) ==
      ListsOf(stored, First(order, k), pods)[order[k] := Known(stored[order[k]], pods)]
  {
    hide Known;
    FirstNext(order, k);
  }

  lemma PickNone<T>(stored: map<string, T>, lists: map<string, seq<string>>, order: seq<string>, pods: map<string, Pod>)
    ensures Pick(stored, First(order, 0)) == map[] && ListsOf(lists, First(order, 0), pods) == map[]
  {
  }

  /** Where a walk over the keys stops: at the first without a list, or at the end. */
  ghost predicate StopsAt(stored: map<string, seq<string>>, order: seq<string>, k: nat) {
    && k <= |order| && (forall j | 0 <= j < k :: order[j] in stored)
    && (k < |order| ==> order[k] !in stored)
  }

  /** The services, in the order of the walk, up to the first without a stored list. */
  method RecoverServices(etcd: Etcd, nameToPods: map<string, Pod>, cm: ComponentManagerInner)
    returns (ok: bool, order: seq<string>, k: nat)
    requires forall n | n in nameToPods :: nameToPods[n].name == n
    requires forall x | x in etcd.services :: etcd.services[x].name == x
    requires cm.services == map[] && cm.servicesToPods == map[]
    modifies cm
    ensures Lists(etcd.services.Keys, order) && StopsAt(etcd.servicePods, order, k) && (ok <==> k == |order|)
    ensures cm.View() == old(cm.View()).(
      services := Pick(etcd.services, First(order, k)),
      servicesToPods := ListsOf(etcd.servicePods, First(order, k), nameToPods))
  {
    hide Known, Pick, ListsOf, First;
    order := Walk(etcd.services.Keys);
    k := 0;
    PickNone(etcd.services, etcd.servicePods, order, nameToPods);
    while k < |order|
      invariant k <= |order| && forall j | 0 <= j < k :: order[j] in etcd.servicePods
      invariant cm.View() == old(cm.View()).(
        services := Pick(etcd.services, First(order, k)),
        servicesToPods := ListsOf(etcd.servicePods, First(order, k), nameToPods))
    {
      assert order[k] in etcd.services;
      var names := GetList(etcd.servicePods, order[k]);
      if names == None {
        return false, order, k;
      }
      var list := KnownPods(names.value, nameToPods);
      KnownNames(nameToPods, list, Known(names.value, nameToPods));
      PickNext(etcd.services, order, k);
      ListsNext(etcd.servicePods, order, k, nameToPods);
      cm.SetService(etcd.services[order[k]], NamesOf(list));
      k := k + 1;
    }
    ok := true;
  }

  /** The deployments, in the order of the walk, up to the first without a stored list. */
  method RecoverDeployments(etcd: Etcd, nameToPods: map<string, Pod>, cm: ComponentManagerInner)
    returns (ok: bool, order: seq<string>, k: nat)
    requires cm.pods == nameToPods && forall n | n in nameToPods :: nameToPods[n].name == n
    requires forall d | d in etcd.deployments :: etcd.deployments[d].name == d
    requires cm.deployments == map[] && cm.deploymentToPods == map[]
    modifies cm
    ensures Lists(etcd.deployments.Keys, order) && StopsAt(etcd.deploymentPods, order, k) && (ok <==> k == |order|)
    ensures cm.View() == old(cm.View()).(
      deployments := Pick(etcd.deployments, First(order, k)),
      deploymentToPods := ListsOf(etcd.deploymentPods, First(order, k), nameToPods))
  {
    hide Known, PutAll, Pick, ListsOf, First;
    order := Walk(etcd.deployments.Keys);
    k := 0;
    PickNone(etcd.deployments, etcd.deploymentPods, order, nameToPods);
    while k < |order|
      invariant k <= |order| && forall j | 0 <= j < k :: order[j] in etcd.deploymentPods
      invariant cm.View() == old(cm.View()).(
        deployments := Pick(etcd.deployments, First(order, k)),
        deploymentToPods := ListsOf(etcd.deploymentPods, First(order, k), nameToPods))
    {
      assert order[k] in etcd.deployments;
      var names := GetList(etcd.deploymentPods, order[k]);
      if names == None {
        return false, order, k;
      }
      var list := KnownPods(names.value, nameToPods);
      PutAllKnown(nameToPods, list, |list|);
      KnownNames(nameToPods, list, Known(names.value, nameToPods));
      PickNext(etcd.deployments, order, k);
      ListsNext(etcd.deploymentPods, order, k, nameToPods);
      cm.SetDeployment(etcd.deployments[order[k]], list);
      k := k + 1;
    }
    ok := true;
  }

  /** Keys are the names of what is stored under them. */
  ghost predicate NamesFit(etcd: Etcd)
    reads etcd
  {
    && (forall n | n in etcd.pods :: etcd.pods[n].name == n)
    && (forall x | x in etcd.services :: etcd.services[x].name == x)
    && (forall d | d in etcd.deployments :: etcd.deployments[d].name == d)
  }

  /** Recovers pods, the last address, services and deployments, in this order, into an empty component manager. It
      stops with an error at the first service or deployment without a stored list; then all pods are there, and
      exactly the services and deployments before it. */
  method Recover(etcd: Etcd, assigner: ClusterIPAssigner, cm: ComponentManagerInner)
    returns (ok: bool, services: seq<string>, i: nat, deployments: seq<string>, j: nat)
    requires NamesFit(etcd) && cm.View() == Index(map[], map[], map[], map[], map[], map[])
    modifies cm, assigner
    ensures assigner.View() == ClusterIP.Step(old(assigner.View()), ClusterIP.Restart)
    ensures Lists(etcd.services.Keys, services) && StopsAt(etcd.servicePods, services, i)
    ensures if i < |services| then deployments == [] && j == 0
            else Lists(etcd.deployments.Keys, deployments) && StopsAt(etcd.deploymentPods, deployments, j)
    ensures ok <==> i == |services| && j == |deployments|
    ensures cm.View() == Index(etcd.pods,
      Pick(etcd.deployments, First(deployments, j)),
      ListsOf(etcd.deploymentPods, First(deployments, j), etcd.pods),
      Pick(etcd.services, First(services, i)),
      ListsOf(etcd.servicePods, First(services, i), etcd.pods),
      map[])
  {
    hide Known;
    var nameToPods := RecoverPods(etcd, cm);
    assigner.Recover();
    ok, services, i := RecoverServices(etcd, nameToPods, cm);
    if !ok {
      deployments, j := [], 0;
      return;
    }
    ok, deployments, j := RecoverDeployments(etcd, nameToPods, cm);
  }

  lemma FirstAll(keys: set<string>, order: seq<string>)
    requires Lists(keys, order)
    ensures First(order, |order|) == keys
  {
    assert order[..|order|] == order;
  }

  /** A walk ends exactly when every key has a list. */
  lemma StopsIff(stored: map<string, seq<string>>, keys: set<string>, order: seq<string>, k: nat)
    requires Lists(keys, order) && StopsAt(stored, order, k)
    ensures k == |order| <==> forall x | x in keys :: x in stored
  {
    if k < |order| {
      assert order[k] in order;
    }
  }

  /** What a restart needs of the services: every service has a stored list. */
  predicate ServicesStored(etcd: Etcd)
    reads etcd
  {
    forall x | x in etcd.services :: x in etcd.servicePods
  }

  /** A restart in any state of any run: it succeeds exactly when every service and every deployment has stored its
      list, and then the pods, the deployment names and every deployment's list in its order are those memory held, the
      services are those stored with their stored lists as far as the pods live, and no address is issued again. */
  method Restart(ghost states: seq<State>, ghost ops: seq<Op>, ghost i: nat, etcd: Etcd, assigner: ClusterIPAssigner,
                 cm: ComponentManagerInner) returns (ok: bool)
    requires IsRun(states, ops) && i < |states| && etcd.View() == states[i].store
    requires forall x | x in etcd.services :: etcd.services[x].name == x
    requires cm.View() == Index(map[], map[], map[], map[], map[], map[])
    modifies cm, assigner
    ensures ok <==> ServicesStored(etcd) && forall d | d in states[i].ix.deployments :: d in states[i].store.deploymentPods
    ensures ok ==>
      && cm.pods == states[i].ix.pods && cm.deploymentToPods == states[i].ix.deploymentToPods
      && cm.deployments.Keys == states[i].ix.deployments.Keys
      && cm.services == etcd.services
      && cm.servicesToPods == map x | x in etcd.servicePods && x in etcd.services :: Known(etcd.servicePods[x], cm.pods)
    ensures assigner.View() == ClusterIP.Step(old(assigner.View()), ClusterIP.Restart)
  {
    hide ClusterRuns.Step, Sensible, Known, Lists, StopsAt, First;
    RecoveryRebuilds(states, ops, i);
    StoredNames(states, ops, i);
    var services: seq<string>, x, deployments: seq<string>, y;
    ok, services, x, deployments, y := Recover(etcd, assigner, cm);
    StopsIff(etcd.servicePods, etcd.services.Keys, services, x);
    if x == |services| {
      FirstAll(etcd.services.Keys, services);
      StopsIff(etcd.deploymentPods, etcd.deployments.Keys, deployments, y);
    }
    if ok {
      FirstAll(etcd.deployments.Keys, deployments);
      assert cm.deploymentToPods == Recovered(etcd.View()).value;
    }
  }

  lemma StoredNames(states: seq<State>, ops: seq<Op>, i: nat)
    requires IsRun(states, ops) && i < |states|
    ensures var store := states[i].store;
      && (forall n | n in store.pods :: store.pods[n].name == n)
      && (forall d | d in store.deployments :: store.deployments[d].name == d)
  {
    hide ClusterRuns.Step, Sensible;
    RunHealthy(states, ops, i);
  }
}
