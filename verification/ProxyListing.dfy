/**
 Which pods the chains of a service list, and how the operations change that.
 */
module ProxyListing {
  import opened Sequences
  import opened Iptables
  import opened ServiceMeta
  import opened ProxyState
  import opened ProxyInvariants
  import opened ProxyOps

  function Names(pods: seq<PodEntry>): (names: seq<string>)
    ensures |names| == |pods|
  {
    if pods == [] then [] else Names(pods[..|pods| - 1]) + [pods[|pods| - 1].pod]
  }

  lemma NamesAppend(pods: seq<PodEntry>, p: PodEntry)
    ensures Names(pods + [p]) == Names(pods) + [p.pod]
  {
    assert (pods + [p])[..|pods|] == pods;
  }

  lemma {:induction false} NameAt(pods: seq<PodEntry>, i: nat)
    requires i < |pods|
    ensures Names(pods)[i] == pods[i].pod
  {
    if i < |pods| - 1 {
      NameAt(pods[..|pods| - 1], i);
    }
  }

  function MemberNames(ms: seq<Member>): (names: seq<string>)
    ensures |names| == |ms|
  {
    if ms == [] then [] else MemberNames(ms[..|ms| - 1]) + [ms[|ms| - 1].pod]
  }

  /** Every chain of the service lists exactly these pods, in this order. */
  ghost predicate Lists(px: Proxy, service: string, names: seq<string>) {
    forall e | InService(px.meta, service, e) :: Names(px.meta.Pods(e.chain)) == names
  }

  lemma DistinctByNames(pods: seq<PodEntry>)
    ensures DistinctNames(pods) <==> NoDup(Names(pods))
  {
    forall i, j | 0 <= i < j < |pods|
      ensures pods[i].pod != pods[j].pod <==> Names(pods)[i] != Names(pods)[j]
    {
      NameAt(pods, i);
      NameAt(pods, j);
    }
  }

  /** Different entries of one service have different chains. */
  lemma ChainsDiffer(px: Proxy, service: string, i: nat, j: nat)
    requires Refines(px) && i < j < |px.meta.Chains(service)|
    ensures px.meta.Chains(service)[i].chain != px.meta.Chains(service)[j].chain
  {
    var es := px.meta.Chains(service);
    assert InService(px.meta, service, es[i]) && InService(px.meta, service, es[j]);
    assert es[i] != es[j];
  }

  lemma OtherService(px: Proxy, s: string, e: ServiceEntry, t: string, x: ServiceEntry)
    requires Refines(px) && InService(px.meta, s, e) && InService(px.meta, t, x) && s != t
    ensures e.chain != x.chain
  {
  }

  // ---- joining ----

  lemma AttachStep(px: Proxy, e: ServiceEntry, m: Member)
    requires e.chain in px.table
    ensures var r := Attach(px, e, m);
      && Names(r.meta.Pods(e.chain)) == Names(px.meta.Pods(e.chain)) + [m.pod]
      && forall c | c != e.chain :: r.meta.Pods(c) == px.meta.Pods(c)
  {
    NamesAppend(px.meta.Pods(e.chain), PodEntry(Chain.PodChain(|px.drawn|), m.pod, m.ip));
  }

  lemma MemberNamesStep(ms: seq<Member>, k: nat)
    requires 0 < k <= |ms|
    ensures MemberNames(ms[..k]) == MemberNames(ms[..k - 1]) + [ms[k - 1].pod]
  {
    assert ms[..k][..k - 1] == ms[..k - 1];
  }

  lemma {:induction false} AttachAllLists(px: Proxy, service: string, e: ServiceEntry, ms: seq<Member>, k: nat)
    requires Refines(px) && InService(px.meta, service, e) && k <= |ms|
    ensures var r := AttachAll(px, service, e, ms, k);
      && Names(r.meta.Pods(e.chain)) == Names(px.meta.Pods(e.chain)) + MemberNames(ms[..k])
      && forall c | c != e.chain :: r.meta.Pods(c) == px.meta.Pods(c)
  {
    hide Refines, Attach, Names, InService;
    if k == 0 {
      assert Names(px.meta.Pods(e.chain)) + [] == Names(px.meta.Pods(e.chain));
    } else {
      AttachAllLists(px, service, e, ms, k - 1);
      var before := AttachAll(px, service, e, ms, k - 1);
      AttachRefines(before, service, e, ms[k - 1]);
      AttachStep(before, e, ms[k - 1]);
      MemberNamesStep(ms, k);
    }
  }

  lemma OpenStep(px: Proxy, service: string, port: ServicePort)
    requires Refines(px) && service in px.meta.clusterIPs
    ensures var r := OpenPort(px, service, port);
      && r.meta.Chains(service) == px.meta.Chains(service) + [Opened(px, port)]
      && (forall s | s != service :: r.meta.Chains(s) == px.meta.Chains(s))
      && (forall c :: r.meta.Pods(c) == px.meta.Pods(c))
      && r.meta.Pods(Opened(px, port).chain) == []
      && (forall s, e | InService(px.meta, s, e) :: e.chain != Opened(px, port).chain)
  {
    hide ServicesRefine, PodsRefine, EntriesRefine, JumpsSound, Undrawn, Entry;
    var c := Opened(px, port).chain;
    assert c in px.meta.podChains ==> OnRecord(px, c);
  }

  /** What one more port mapping of a service does to the lists. */
  lemma PortFrame(px: Proxy, service: string, port: ServicePort, ms: seq<Member>)
    requires Refines(px) && service in px.meta.clusterIPs
    ensures var open := OpenPort(px, service, port);
      var r := AttachAll(open, service, Opened(px, port), ms, |ms|);
      && Names(r.meta.Pods(Opened(px, port).chain)) == MemberNames(ms)
      && r.meta.Chains(service) == px.meta.Chains(service) + [Opened(px, port)]
      && (forall s | s != service :: r.meta.Chains(s) == px.meta.Chains(s))
      && (forall c | c != Opened(px, port).chain :: r.meta.Pods(c) == px.meta.Pods(c))
  {
    hide Refines, AttachAll, OpenPort, MemberNames, Names;
    var open := OpenPort(px, service, port);
    OpenStep(px, service, port);
    AttachAllLists(open, service, Opened(px, port), ms, |ms|);
    assert ms[..|ms|] == ms;
    NoNames(MemberNames(ms));
  }

  lemma ListsExtend(px: Proxy, r: Proxy, service: string, e: ServiceEntry, names: seq<string>)
    requires Lists(px, service, names) && Names(r.meta.Pods(e.chain)) == names
    requires r.meta.Chains(service) == px.meta.Chains(service) + [e]
    requires forall c | c != e.chain :: r.meta.Pods(c) == px.meta.Pods(c)
    ensures Lists(r, service, names)
  {
  }

  lemma NoNames(names: seq<string>)
    ensures Names([]) + names == names
  {
  }

  lemma {:induction false} CreatePortsLists(px: Proxy, service: string, ports: seq<ServicePort>, ms: seq<Member>, k: nat)
    requires Refines(px) && service in px.meta.clusterIPs && k <= |ports|
    requires px.meta.Chains(service) == []
    ensures var r := CreatePorts(px, service, ports, ms, k);
      && Lists(r, service, MemberNames(ms))
      && |r.meta.Chains(service)| == k
      && (forall i | 0 <= i < k :: r.meta.Chains(service)[i].port == ports[i])
      && (forall s | s != service :: r.meta.Chains(s) == px.meta.Chains(s))
      && (forall c: Chain | c.ServiceChain? && c.id < |px.drawn| :: r.meta.Pods(c) == px.meta.Pods(c))
  {
    hide Refines, AttachAll, OpenPort, MemberNames, Names, Lists;
    if k == 0 {
      NothingListed(px, service, MemberNames(ms));
    } else {
      CreatePortsLists(px, service, ports, ms, k - 1);
      var before := CreatePorts(px, service, ports, ms, k - 1);
      PortFrame(before, service, ports[k - 1], ms);
      ListsExtend(before, CreatePorts(px, service, ports, ms, k), service, Opened(before, ports[k - 1]), MemberNames(ms));
    }
  }

  lemma NothingListed(px: Proxy, service: string, names: seq<string>)
    requires px.meta.Chains(service) == []
    ensures Lists(px, service, names)
  {
  }

  lemma DrawnBefore(px: Proxy, s: string, e: ServiceEntry)
    requires Refines(px) && InService(px.meta, s, e)
    ensures e.chain.ServiceChain? && e.chain.id < |px.drawn|
  {
  }

  /** A new service lists the given members on each of its ports; the other services keep their chains. */
  lemma CreateLists(px: Proxy, service: string, clusterIP: string, ports: seq<ServicePort>, ms: seq<Member>)
    requires Refines(px) && service !in px.meta.clusterIPs
    ensures var r := Create(px, service, clusterIP, ports, ms);
      && Lists(r, service, MemberNames(ms))
      && r.meta.clusterIPs == px.meta.clusterIPs[service := clusterIP]
      && |r.meta.Chains(service)| == |ports|
      && (forall i | 0 <= i < |ports| :: r.meta.Chains(service)[i].port == ports[i])
      && (forall s | s != service :: r.meta.Chains(s) == px.meta.Chains(s))
      && (forall c: Chain | c.ServiceChain? && c.id < |px.drawn| :: r.meta.Pods(c) == px.meta.Pods(c))
  {
    hide Refines, CreatePorts, MemberNames, Names, Lists;
    NoChainsYet(px, service);
    AnnounceRefines(px, service, clusterIP);
    CreatePortsLists(Announce(px, service, clusterIP), service, ports, ms, |ports|);
  }

  lemma NoChainsYet(px: Proxy, service: string)
    requires Refines(px) && service !in px.meta.clusterIPs
    ensures service !in px.meta.serviceChains
  {
  }

  lemma CreateOtherLists(px: Proxy, service: string, clusterIP: string, ports: seq<ServicePort>, ms: seq<Member>,
                         s: string, names: seq<string>)
    requires Refines(px) && service !in px.meta.clusterIPs && s != service && Lists(px, s, names)
    ensures Lists(Create(px, service, clusterIP, ports, ms), s, names)
  {
    CreateLists(px, service, clusterIP, ports, ms);
    hide Refines, Create, MemberNames, Names;
    var r := Create(px, service, clusterIP, ports, ms);
    forall e | InService(r.meta, s, e) ensures Names(r.meta.Pods(e.chain)) == names {
      assert InService(px.meta, s, e);
      DrawnBefore(px, s, e);
    }
  }

  lemma AttachNone(px: Proxy, service: string, m: Member)
    requires Refines(px)
    ensures AttachEach(px, service, m, 0) == px
  {
  }

  lemma AttachEachNext(px: Proxy, service: string, m: Member, k: nat)
    requires Refines(px) && 0 < k <= |px.meta.Chains(service)|
    ensures var before := AttachEach(px, service, m, k - 1);
      && px.meta.Chains(service)[k - 1].chain in before.table
      && AttachEach(px, service, m, k) == Attach(before, px.meta.Chains(service)[k - 1], m)
  {
    hide Refines, Attach;
    var before := AttachEach(px, service, m, k - 1);
    assert InService(before.meta, service, px.meta.Chains(service)[k - 1]);
    AttachRefines(before, service, px.meta.Chains(service)[k - 1], m);
  }

  lemma {:induction false} AttachEachLists(px: Proxy, service: string, m: Member, k: nat)
    requires Refines(px) && k <= |px.meta.Chains(service)|
    ensures var r := AttachEach(px, service, m, k);
      && (forall i | 0 <= i < k :: Names(r.meta.Pods(px.meta.Chains(service)[i].chain)) ==
                                   Names(px.meta.Pods(px.meta.Chains(service)[i].chain)) + [m.pod])
      && (forall c | (forall i | 0 <= i < k :: px.meta.Chains(service)[i].chain != c) ::
            r.meta.Pods(c) == px.meta.Pods(c))
  {
    hide Refines, Attach, AttachEach, Names;
    if k == 0 {
      AttachNone(px, service, m);
    } else {
      AttachEachNext(px, service, m, k);
      AttachEachLists(px, service, m, k - 1);
      var before := AttachEach(px, service, m, k - 1);
      var e := px.meta.Chains(service)[k - 1];
      assert InService(before.meta, service, e);
      AttachRefines(before, service, e, m);
      AttachStep(before, e, m);
      forall i | 0 <= i < k - 1 ensures px.meta.Chains(service)[i].chain != e.chain {
        ChainsDiffer(px, service, i, k - 1);
      }
    }
  }

  /** A pod joins all chains of a service, at the end. */
  lemma AttachServiceLists(px: Proxy, service: string, m: Member)
    requires Refines(px)
    ensures var r := AttachEach(px, service, m, |px.meta.Chains(service)|);
      && (forall names | Lists(px, service, names) :: Lists(r, service, names + [m.pod]))
      && (forall s, names | s != service && Lists(px, s, names) :: Lists(r, s, names))
  {
    hide Refines, AttachEach, Names;
    var es := px.meta.Chains(service);
    AttachEachLists(px, service, m, |es|);
    var r := AttachEach(px, service, m, |es|);
    forall names | Lists(px, service, names) ensures Lists(r, service, names + [m.pod]) {
      forall e | InService(r.meta, service, e) ensures Names(r.meta.Pods(e.chain)) == names + [m.pod] {
        var i :| 0 <= i < |es| && es[i] == e;
        assert InService(px.meta, service, e);
      }
    }
    forall s, names | s != service && Lists(px, s, names) ensures Lists(r, s, names) {
      forall e | InService(r.meta, s, e) ensures Names(r.meta.Pods(e.chain)) == names {
        assert InService(px.meta, s, e);
        forall i | 0 <= i < |es| ensures es[i].chain != e.chain {
          assert InService(px.meta, service, es[i]);
          OtherService(px, service, es[i], s, e);
        }
      }
    }
  }

  /** A pod is added at the end of the lists of the named services and nowhere else. */
  lemma {:induction false} AddToLists(px: Proxy, services: seq<string>, m: Member, k: nat, s: string, names: seq<string>)
    requires Refines(px) && k <= |services| && NoDup(services)
    requires s in px.meta.clusterIPs && Lists(px, s, names)
    ensures Lists(AddTo(px, services, m, k), s, names + if s in services[..k] then [m.pod] else [])
  {
    hide Refines;
    if k == 0 {
      assert names + [] == names;
    } else {
      AddToLists(px, services, m, k - 1, s, names);
      var before := AddTo(px, services, m, k - 1);
      assert services[..k] == services[..k - 1] + [services[k - 1]];
      if services[k - 1] in before.meta.clusterIPs {
        AttachServiceLists(before, services[k - 1], m);
      }
      assert names + [] == names;
    }
  }

  // ---- leaving ----

  lemma {:induction false} OthersNames(pods: seq<PodEntry>, pod: string)
    ensures Names(Others(pods, pod)) == Without(Names(pods), {pod})
  {
    if pods != [] {
      var front, last := pods[..|pods| - 1], pods[|pods| - 1];
      OthersNames(front, pod);
      OthersNamesStep(Names(front), Others(front, pod), last, pod);
    }
  }

  lemma OthersNamesStep(names: seq<string>, others: seq<PodEntry>, last: PodEntry, pod: string)
    requires Names(others) == Without(names, {pod})
    ensures Names(others + if last.pod == pod then [] else [last]) == Without(names + [last.pod], {pod})
  {
    WithoutAppend(names, [last.pod], {pod});
    if last.pod == pod {
      assert others + [] == others;
    } else {
      NamesAppend(others, last);
    }
  }

  lemma DetachStep(px: Proxy, service: string, e: ServiceEntry, pod: string)
    requires Refines(px) && DistinctPods(px) && InService(px.meta, service, e)
    ensures var r := Detach(px, e, pod);
      && Names(r.meta.Pods(e.chain)) == Without(Names(px.meta.Pods(e.chain)), {pod})
      && forall c | c != e.chain :: r.meta.Pods(c) == px.meta.Pods(c)
  {
    hide Refines, Names, Others;
    DetachDistinct(px, service, e, pod);
    OthersIsRemoveIff(px.meta.Pods(e.chain), pod);
    OthersNames(px.meta.Pods(e.chain), pod);
  }

  lemma DetachNone(px: Proxy, service: string, pod: string)
    requires Refines(px) && DistinctPods(px)
    ensures DetachEach(px, service, pod, 0) == px
  {
  }

  lemma DetachEachNext(px: Proxy, service: string, pod: string, k: nat)
    requires Refines(px) && DistinctPods(px) && 0 < k <= |px.meta.Chains(service)|
    ensures DetachEach(px, service, pod, k) ==
      Detach(DetachEach(px, service, pod, k - 1), px.meta.Chains(service)[k - 1], pod)
  {
    hide Refines, Detach, DistinctPods;
  }

  lemma {:induction false} DetachEachLists(px: Proxy, service: string, pod: string, k: nat)
    requires Refines(px) && DistinctPods(px) && k <= |px.meta.Chains(service)|
    ensures var r := DetachEach(px, service, pod, k);
      && (forall i | 0 <= i < k :: Names(r.meta.Pods(px.meta.Chains(service)[i].chain)) ==
                                   Without(Names(px.meta.Pods(px.meta.Chains(service)[i].chain)), {pod}))
      && (forall c | (forall i | 0 <= i < k :: px.meta.Chains(service)[i].chain != c) ::
            r.meta.Pods(c) == px.meta.Pods(c))
  {
    hide Refines, Detach, DetachEach, Names, DistinctPods, Without;
    if k == 0 {
      DetachNone(px, service, pod);
    } else {
      DetachEachNext(px, service, pod, k);
      DetachEachLists(px, service, pod, k - 1);
      var before := DetachEach(px, service, pod, k - 1);
      var e := px.meta.Chains(service)[k - 1];
      assert InService(before.meta, service, e);
      DetachDistinct(before, service, e, pod);
      DetachStep(before, service, e, pod);
      forall i | 0 <= i < k - 1 ensures px.meta.Chains(service)[i].chain != e.chain {
        ChainsDiffer(px, service, i, k - 1);
      }
    }
  }

  lemma DetachServiceLists(px: Proxy, service: string, pod: string)
    requires Refines(px) && DistinctPods(px)
    ensures var r := DetachEach(px, service, pod, |px.meta.Chains(service)|);
      && (forall names | Lists(px, service, names) :: Lists(r, service, Without(names, {pod})))
      && (forall s, names | s != service && Lists(px, s, names) :: Lists(r, s, names))
  {
    hide Refines, DetachEach, Names, DistinctPods, Without;
    var es := px.meta.Chains(service);
    DetachEachLists(px, service, pod, |es|);
    var r := DetachEach(px, service, pod, |es|);
    forall names | Lists(px, service, names) ensures Lists(r, service, Without(names, {pod})) {
      forall e | InService(r.meta, service, e) ensures Names(r.meta.Pods(e.chain)) == Without(names, {pod}) {
        var i :| 0 <= i < |es| && es[i] == e;
        assert InService(px.meta, service, e);
      }
    }
    forall s, names | s != service && Lists(px, s, names) ensures Lists(r, s, names) {
      forall e | InService(r.meta, s, e) ensures Names(r.meta.Pods(e.chain)) == names {
        assert InService(px.meta, s, e);
        forall i | 0 <= i < |es| ensures es[i].chain != e.chain {
          assert InService(px.meta, service, es[i]);
          OtherService(px, service, es[i], s, e);
        }
      }
    }
  }

  lemma RemoveNone(px: Proxy, services: seq<string>, pod: string)
    requires Refines(px) && DistinctPods(px)
    ensures RemoveFrom(px, services, pod, 0) == px
  {
  }

  lemma RemoveFromNext(px: Proxy, services: seq<string>, pod: string, k: nat)
    requires Refines(px) && DistinctPods(px) && 0 < k <= |services|
    ensures var before := RemoveFrom(px, services, pod, k - 1);
      RemoveFrom(px, services, pod, k) ==
      if services[k - 1] in before.meta.clusterIPs
      then DetachEach(before, services[k - 1], pod, |before.meta.Chains(services[k - 1])|) else before
  {
    hide Refines, DetachEach, DistinctPods;
  }

  /** A pod vanishes from the lists of the named services and from no other list. */
  lemma {:induction false} RemoveFromLists(px: Proxy, services: seq<string>, pod: string, k: nat, s: string, names: seq<string>)
    requires Refines(px) && DistinctPods(px) && k <= |services|
    requires s in px.meta.clusterIPs && Lists(px, s, names)
    ensures Lists(RemoveFrom(px, services, pod, k), s, Without(names, if s in services[..k] then {pod} else {}))
  {
    hide Refines, RemoveFrom, DetachEach, DistinctPods, Lists, Without;
    if k == 0 {
      WithoutNothing(names, {});
      RemoveNone(px, services, pod);
    } else {
      RemoveFromLists(px, services, pod, k - 1, s, names);
      RemoveFromNext(px, services, pod, k);
      var before := RemoveFrom(px, services, pod, k - 1);
      var sofar := if s in services[..k - 1] then {pod} else {};
      assert services[..k] == services[..k - 1] + [services[k - 1]];
      if services[k - 1] in before.meta.clusterIPs {
        DetachServiceLists(before, services[k - 1], pod);
        if services[k - 1] == s {
          WithoutTwice(names, sofar, {pod});
          assert sofar + {pod} == {pod};
        }
      }
    }
  }

  lemma DeleteLists(px: Proxy, service: string, s: string, names: seq<string>)
    requires Refines(px) && service in px.meta.clusterIPs && s != service && Lists(px, s, names)
    ensures Lists(Delete(px, service), s, names)
  {
  }
}
