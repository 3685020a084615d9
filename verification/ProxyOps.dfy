/**
 The four operations of the proxy as functions on its state, the properties of whole runs of them, and
 what a packet experiences in any state they reach.
 */
module ProxyOps {
  import opened Sequences
  import opened Iptables
  import opened ServiceMeta
  import opened ProxyState
  import opened ProxyInvariants
  import opened NthBalancer

  /** The first k members join a service chain one after the other. */
  ghost function AttachAll(px: Proxy, service: string, e: ServiceEntry, ms: seq<Member>, k: nat): (r: Proxy)
    requires Refines(px) && InService(px.meta, service, e) && k <= |ms|
    ensures Refines(r) && InService(r.meta, service, e)
    ensures r.meta.serviceChains == px.meta.serviceChains && r.meta.clusterIPs == px.meta.clusterIPs
    ensures r.host == px.host && |r.drawn| >= |px.drawn|
  {
    if k == 0 then px
    else
      var before := AttachAll(px, service, e, ms, k - 1);
      AttachRefines(before, service, e, ms[k - 1]);
      Attach(before, e, ms[k - 1])
  }

  /** The first k port mappings of a service, each with all its members. */
  ghost function CreatePorts(px: Proxy, service: string, ports: seq<ServicePort>, ms: seq<Member>, k: nat): (r: Proxy)
    requires Refines(px) && service in px.meta.clusterIPs && k <= |ports|
    ensures Refines(r) && r.meta.clusterIPs == px.meta.clusterIPs && r.host == px.host
    ensures |r.drawn| >= |px.drawn|
  {
    if k == 0 then px
    else
      var before := CreatePorts(px, service, ports, ms, k - 1);
      var open := OpenPort(before, service, ports[k - 1]);
      AttachAll(open, service, Opened(before, ports[k - 1]), ms, |ms|)
  }

  function Opened(px: Proxy, port: ServicePort): ServiceEntry {
    ServiceEntry(Chain.ServiceChain(|px.drawn|), port)
  }

  ghost function OpenPort(px: Proxy, service: string, port: ServicePort): (r: Proxy)
    requires Refines(px) && service in px.meta.clusterIPs
    ensures Refines(r) && InService(r.meta, service, Opened(px, port))
    ensures r.meta.clusterIPs == px.meta.clusterIPs && r.host == px.host && |r.drawn| > |px.drawn|
  {
    OpenRefines(px, service, port);
    OpenKeeps(px, service, px.meta.clusterIPs[service], port);
    Open(px, service, px.meta.clusterIPs[service], port)
  }

  ghost function Create(px: Proxy, service: string, clusterIP: string, ports: seq<ServicePort>, ms: seq<Member>): (r: Proxy)
    requires Refines(px)
    ensures Refines(r)
  {
    if service in px.meta.clusterIPs then px
    else
      AnnounceRefines(px, service, clusterIP);
      CreatePorts(Announce(px, service, clusterIP), service, ports, ms, |ports|)
  }

  /** The pod joins the first k chains of a service. */
  ghost function AttachEach(px: Proxy, service: string, m: Member, k: nat): (r: Proxy)
    requires Refines(px) && k <= |px.meta.Chains(service)|
    ensures Refines(r)
    ensures r.meta.serviceChains == px.meta.serviceChains && r.meta.clusterIPs == px.meta.clusterIPs
    ensures r.host == px.host
  {
    if k == 0 then px
    else
      var before := AttachEach(px, service, m, k - 1);
      var e := px.meta.Chains(service)[k - 1];
      assert InService(before.meta, service, e);
      AttachRefines(before, service, e, m);
      Attach(before, e, m)
  }

  /** The pod joins the first k services, as far as they exist. */
  ghost function AddTo(px: Proxy, services: seq<string>, m: Member, k: nat): (r: Proxy)
    requires Refines(px) && k <= |services|
    ensures Refines(r)
    ensures r.meta.serviceChains == px.meta.serviceChains && r.meta.clusterIPs == px.meta.clusterIPs
    ensures r.host == px.host
  {
    if k == 0 then px
    else
      var before := AddTo(px, services, m, k - 1);
      var s := services[k - 1];
      if s in before.meta.clusterIPs then AttachEach(before, s, m, |before.meta.Chains(s)|) else before
  }

  /** A detach keeps names distinct; it is only done to chains with distinct names. */
  lemma DetachDistinct(px: Proxy, service: string, e: ServiceEntry, pod: string)
    requires Refines(px) && DistinctPods(px) && InService(px.meta, service, e)
    ensures Occurrences(px.meta.Pods(e.chain), pod) <= 1
    ensures Refines(Detach(px, e, pod)) && DistinctPods(Detach(px, e, pod))
  {
    assert DistinctNames(px.meta.Pods(e.chain));
    DistinctOccurOnce(px.meta.Pods(e.chain), pod);
    DetachRefines(px, service, e, pod);
    OthersIsRemoveIff(px.meta.Pods(e.chain), pod);
    OthersDistinct(px.meta.Pods(e.chain), pod);
  }

  lemma {:induction false} OthersDistinct(pods: seq<PodEntry>, pod: string)
    requires DistinctNames(pods)
    ensures DistinctNames(Others(pods, pod))
  {
    if pods != [] {
      var n := |pods|;
      assert DistinctNames(pods[..n - 1]);
      OthersDistinct(pods[..n - 1], pod);
      assert forall p | p in pods[..n - 1] :: p.pod != pods[n - 1].pod;
    }
  }

  /** The pod leaves the first k chains of a service. */
  ghost function DetachEach(px: Proxy, service: string, pod: string, k: nat): (r: Proxy)
    requires Refines(px) && DistinctPods(px) && k <= |px.meta.Chains(service)|
    ensures Refines(r) && DistinctPods(r)
    ensures r.meta.serviceChains == px.meta.serviceChains && r.meta.clusterIPs == px.meta.clusterIPs
    ensures r.host == px.host
  {
    if k == 0 then px
    else
      var before := DetachEach(px, service, pod, k - 1);
      var e := px.meta.Chains(service)[k - 1];
      assert InService(before.meta, service, e);
      DetachDistinct(before, service, e, pod);
      Detach(before, e, pod)
  }

  /** The pod leaves the first k services, as far as they exist. */
  ghost function RemoveFrom(px: Proxy, services: seq<string>, pod: string, k: nat): (r: Proxy)
    requires Refines(px) && DistinctPods(px) && k <= |services|
    ensures Refines(r) && DistinctPods(r)
    ensures r.meta.serviceChains == px.meta.serviceChains && r.meta.clusterIPs == px.meta.clusterIPs
    ensures r.host == px.host
  {
    if k == 0 then px
    else
      var before := RemoveFrom(px, services, pod, k - 1);
      var s := services[k - 1];
      if s in before.meta.clusterIPs then DetachEach(before, s, pod, |before.meta.Chains(s)|) else before
  }

  ghost function Delete(px: Proxy, service: string): (r: Proxy)
    requires Refines(px)
    ensures Refines(r)
  {
    if service !in px.meta.clusterIPs then px
    else
      DropRefines(px, service);
      Drop(px, service)
  }
}
