/**
 Which pods, with which addresses, the operations of the proxy put on record.
 */
module ProxyEntries {
  import opened Sequences
  import opened Iptables
  import opened ServiceMeta
  import opened ProxyState
  import opened ProxyInvariants
  import opened ProxyOps
  import opened ProxyListing

  /** The entry is that of one of the members, and `here` says whether it runs on this node. */
  ghost predicate From(ms: seq<Member>, p: PodEntry, here: bool) {
    exists m | m in ms :: m.pod == p.pod && m.ip == p.ip && m.sameHost == here
  }

  /** Every entry was there before, and as local as it was, or is that of a member. */
  ghost predicate Gains(px: Proxy, r: Proxy, ms: seq<Member>) {
    forall c, p | InChain(r.meta, c, p) :: (InChain(px.meta, c, p) && Here(r, p) == Here(px, p)) || From(ms, p, Here(r, p))
  }

  lemma GainsTwice(px: Proxy, mid: Proxy, r: Proxy, ms: seq<Member>)
    requires Gains(px, mid, ms) && Gains(mid, r, ms)
    ensures Gains(px, r, ms)
  {
    hide From, Here;
  }

  lemma AttachGains(px: Proxy, service: string, e: ServiceEntry, m: Member, ms: seq<Member>)
    requires Refines(px) && InService(px.meta, service, e) && m in ms
    ensures e.chain in px.table && Gains(px, Attach(px, e, m), ms)
  {
    hide ServicesRefine, PodsRefine, EntriesRefine, JumpsSound;
    AttachRefines(px, service, e, m);
    AttachKeeps(px, e, m);
    var r := Attach(px, e, m);
    var made := PodEntry(Chain.PodChain(|px.drawn|), m.pod, m.ip);
    assert Here(r, made) == m.sameHost && From(ms, made, m.sameHost);
    forall c, p | InChain(r.meta, c, p) ensures (InChain(px.meta, c, p) && Here(r, p) == Here(px, p)) || From(ms, p, Here(r, p)) {
    }
  }

  lemma {:induction false} AttachAllGains(px: Proxy, service: string, e: ServiceEntry, ms: seq<Member>, k: nat)
    requires Refines(px) && InService(px.meta, service, e) && k <= |ms|
    ensures Gains(px, AttachAll(px, service, e, ms, k), ms)
  {
    hide Refines, Attach, From, Here;
    if k > 0 {
      AttachAllGains(px, service, e, ms, k - 1);
      var before := AttachAll(px, service, e, ms, k - 1);
      AttachRefines(before, service, e, ms[k - 1]);
      AttachGains(before, service, e, ms[k - 1], ms);
      GainsTwice(px, before, AttachAll(px, service, e, ms, k), ms);
    }
  }

  lemma OpenGains(px: Proxy, service: string, port: ServicePort, ms: seq<Member>)
    requires Refines(px) && service in px.meta.clusterIPs
    ensures Gains(px, OpenPort(px, service, port), ms)
  {
    hide ServicesRefine, PodsRefine, JumpsSound, Undrawn, From, Entry;
    OpenRefines(px, service, port);
    OpenKeeps(px, service, px.meta.clusterIPs[service], port);
  }

  lemma {:induction false} CreatePortsGains(px: Proxy, service: string, ports: seq<ServicePort>, ms: seq<Member>, k: nat)
    requires Refines(px) && service in px.meta.clusterIPs && k <= |ports|
    ensures Gains(px, CreatePorts(px, service, ports, ms, k), ms)
  {
    hide Refines, OpenPort, AttachAll, From, InService, Here;
    if k > 0 {
      CreatePortsGains(px, service, ports, ms, k - 1);
      var before := CreatePorts(px, service, ports, ms, k - 1);
      var open := OpenPort(before, service, ports[k - 1]);
      OpenGains(before, service, ports[k - 1], ms);
      AttachAllGains(open, service, Opened(before, ports[k - 1]), ms, |ms|);
      GainsTwice(before, open, CreatePorts(px, service, ports, ms, k), ms);
      GainsTwice(px, before, CreatePorts(px, service, ports, ms, k), ms);
    }
  }

  /** A new service has entries of its members only. */
  lemma CreateGains(px: Proxy, service: string, clusterIP: string, ports: seq<ServicePort>, ms: seq<Member>)
    requires Refines(px)
    ensures Gains(px, Create(px, service, clusterIP, ports, ms), ms)
  {
    hide Refines, CreatePorts, From;
    if service !in px.meta.clusterIPs {
      AnnounceRefines(px, service, clusterIP);
      CreatePortsGains(Announce(px, service, clusterIP), service, ports, ms, |ports|);
    }
  }

  lemma {:induction false} AttachEachGains(px: Proxy, service: string, m: Member, k: nat)
    requires Refines(px) && k <= |px.meta.Chains(service)|
    ensures Gains(px, AttachEach(px, service, m, k), [m])
  {
    hide Refines, Attach, AttachEach, From, Here;
    if k == 0 {
      AttachNone(px, service, m);
    } else {
      AttachEachNext(px, service, m, k);
      AttachEachGains(px, service, m, k - 1);
      var before := AttachEach(px, service, m, k - 1);
      AttachGains(before, service, px.meta.Chains(service)[k - 1], m, [m]);
      GainsTwice(px, before, AttachEach(px, service, m, k), [m]);
    }
  }

  lemma {:induction false} AddToGains(px: Proxy, services: seq<string>, m: Member, k: nat)
    requires Refines(px) && k <= |services|
    ensures Gains(px, AddTo(px, services, m, k), [m])
  {
    hide Refines, AttachEach, From;
    if k > 0 {
      AddToGains(px, services, m, k - 1);
      var before := AddTo(px, services, m, k - 1);
      if services[k - 1] in before.meta.clusterIPs {
        AttachEachGains(before, services[k - 1], m, |before.meta.Chains(services[k - 1])|);
        GainsTwice(px, before, AddTo(px, services, m, k), [m]);
      }
    }
  }

  lemma {:induction false} RemovePodKeeps(pods: seq<PodEntry>, pod: string)
    ensures forall p | p in RemovePod(pods, pod) :: p in pods
  {
    if pods != [] {
      RemovePodKeeps(pods[1..], pod);
    }
  }

  lemma DetachGains(px: Proxy, e: ServiceEntry, pod: string)
    ensures Gains(px, Detach(px, e, pod), [])
  {
    RemovePodKeeps(px.meta.Pods(e.chain), pod);
  }

  lemma {:induction false} DetachEachGains(px: Proxy, service: string, pod: string, k: nat)
    requires Refines(px) && DistinctPods(px) && k <= |px.meta.Chains(service)|
    ensures Gains(px, DetachEach(px, service, pod, k), [])
  {
    hide Refines, DistinctPods, Detach, DetachEach, From;
    if k == 0 {
      DetachNone(px, service, pod);
    } else {
      DetachEachNext(px, service, pod, k);
      DetachEachGains(px, service, pod, k - 1);
      var before := DetachEach(px, service, pod, k - 1);
      DetachGains(before, px.meta.Chains(service)[k - 1], pod);
      GainsTwice(px, before, DetachEach(px, service, pod, k), []);
    }
  }

  lemma {:induction false} RemoveFromGains(px: Proxy, services: seq<string>, pod: string, k: nat)
    requires Refines(px) && DistinctPods(px) && k <= |services|
    ensures Gains(px, RemoveFrom(px, services, pod, k), [])
  {
    hide Refines, DistinctPods, RemoveFrom, DetachEach, From;
    if k == 0 {
      RemoveNone(px, services, pod);
    } else {
      RemoveFromNext(px, services, pod, k);
      RemoveFromGains(px, services, pod, k - 1);
      var before := RemoveFrom(px, services, pod, k - 1);
      if services[k - 1] in before.meta.clusterIPs {
        DetachEachGains(before, services[k - 1], pod, |before.meta.Chains(services[k - 1])|);
        GainsTwice(px, before, RemoveFrom(px, services, pod, k), []);
      }
    }
  }

  lemma DeleteGains(px: Proxy, service: string)
    requires Refines(px)
    ensures Gains(px, Delete(px, service), [])
  {
  }
}
