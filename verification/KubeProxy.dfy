/**
 The proxy of one node (pkg/kubelet/kube_proxy.go): its four operations edit the nat table and the record in
 nested loops. Each is proved to do what the corresponding function on the proxy state does.
 */
module KubeProxy {
  import opened Sequences
  import opened Iptables
  import opened ServiceMeta
  import opened ProxyState
  import opened ProxyInvariants
  import opened ProxyOps
  import opened ProxyLoops
  import opened ProxyEviction

  class KubeProxyInner {
    const iptables: IptablesClient
    const record: MetaManager
    /** Whether an address parses. */
    const parses: string -> bool
    /** The pods of this node. */
    var local: set<string>
    /** What each chain number was drawn for. */
    ghost var drawn: seq<Home>

    ghost function View(): Proxy
      reads this, iptables, record
    {
      Proxy(iptables.hostIP, iptables.table, record.View(), drawn)
    }

    ghost predicate Valid()
      reads this, iptables, record
    {
      Refines(View()) && iptables.next == |drawn|
    }

    /** Since there were `before` numbers, the pods that numbers were drawn for were noted as local when they are. */
    ghost predicate Placed(before: seq<Home>)
      reads this
    {
      before <= drawn &&
      forall i | |before| <= i < |drawn| && drawn[i].ForPod? :: drawn[i].here <==> drawn[i].pod in local
    }

    constructor (iptables: IptablesClient, record: MetaManager, parses: string -> bool)
      requires record.View() == Meta(map[], map[], map[]) && iptables.next == 0
      requires Refines(Proxy(iptables.hostIP, iptables.table, record.View(), []))
      ensures Valid() && this.iptables == iptables && this.record == record && this.parses == parses
      ensures View() == Proxy(iptables.hostIP, iptables.table, Meta(map[], map[], map[]), [])
    {
      this.iptables, this.record, this.parses := iptables, record, parses;
      this.local := {};
      this.drawn := [];
    }

    function MemberOf(pod: string, ip: string): Member
      reads this
    {
      Member(pod, ip, pod in local)
    }

    function MembersOf(pods: seq<string>, ips: seq<string>): (ms: seq<Member>)
      requires |pods| == |ips|
      reads this
      ensures |ms| == |pods| && forall i | 0 <= i < |ms| :: ms[i] == MemberOf(pods[i], ips[i])
    {
      seq(|pods|, i requires 0 <= i < |pods| reads this => MemberOf(pods[i], ips[i]))
    }

    /** A fresh pod chain, filled, jumped to and recorded; left empty when the address does not parse. */
    method Join(e: ServiceEntry, pod: string, ip: string, num: int) returns (ok: bool)
      requires e.chain in iptables.table && e.chain.ServiceChain? && iptables.next == |drawn|
      requires num == |record.View().Pods(e.chain)| + 1
      requires Chain.PodChain(iptables.next) !in iptables.table
      requires MarkMasq in iptables.table && HostMarkMasq in iptables.table
      modifies this`drawn, iptables, record
      ensures iptables.next == |drawn| && Placed(old(drawn))
      ensures ok <==> parses(ip)
      ensures View() == if ok then Attach(old(View()), e, old(MemberOf(pod, ip)))
                              else Litter(old(View()), e, old(MemberOf(pod, ip)))
    {
      hide Filled, PodRules;
      ghost var m := MemberOf(pod, ip);
      var c := iptables.CreatePodChain();
      drawn := drawn + [ForPod(e.chain, pod, ip, pod in local)];
      var sameHost := pod in local;
      FilledEmpty(iptables.table, c, ip, e.port.targetPort, iptables.hostIP, sameHost);
      ok := iptables.ApplyPodChainRules(c, ip, parses(ip), e.port.targetPort, sameHost);
      if !ok {
        return;
      }
      ok := iptables.ApplyPodChain(e.chain, pod, c, num);
      record.AddPodChain(e.chain, PodEntry(c, pod, ip));
      assert iptables.table == Attach(old(View()), e, m).table;
    }

    /** Creates the chains of a service. When a pod address does not parse the call stops where it is, in the first
        port mapping; an address of the service that does not parse only costs the entry rules. */
    method CreateService(service: string, clusterIP: string, ports: seq<ServicePort>,
                         pods: seq<string>, ips: seq<string>) returns (ok: bool)
      requires Valid() && |pods| == |ips|
      modifies this`drawn, iptables, record
      ensures iptables.next == |drawn| && Placed(old(drawn))
      ensures var px, ms, bad := old(View()), old(MembersOf(pods, ips)), FirstBad(ips, parses);
        && Services in px.table
        && (ok <==> service !in px.meta.clusterIPs && (ports == [] || bad == |ips|))
        && (service in px.meta.clusterIPs ==> View() == px && Valid())
        && (service !in px.meta.clusterIPs && !ok ==> View() == Aborted(px, service, ports[0], ms, bad))
        && (ok ==>
              View() == Announce(MappedEach(px, service, clusterIP, parses(clusterIP), ports, ms, |ports|), service, clusterIP))
        && (ok && parses(clusterIP) ==> Valid() && View() == Create(px, service, clusterIP, ports, ms))
    {
      hide Refines, MappedEach, Aborted, Fresh, FirstBad;
      ghost var start, ms := View(), MembersOf(pods, ips);
      RefinesFresh(start);
      FreshParts(start);
      if record.ServiceExists(service) {
        return false;
      }
      MappedZero(start, service, clusterIP, parses(clusterIP), ports, ms);
      var k := 0;
      while k < |ports|
        invariant 0 <= k <= |ports| && iptables.next == |drawn| && ms == MembersOf(pods, ips) && Placed(old(drawn))
        invariant Fresh(View())
        invariant k > 0 ==> FirstBad(ips, parses) == |ips|
        invariant View() == MappedEach(start, service, clusterIP, parses(clusterIP), ports, ms, k)
      {
        ok := CreatePort(service, clusterIP, ports[k], pods, ips);
        if !ok {
          return;
        }
        MappedNext(start, service, clusterIP, parses(clusterIP), ports, ms, k);
        k := k + 1;
      }
      record.AddServiceClusterIP(service, clusterIP);
      if parses(clusterIP) {
        MappedCreates(start, service, clusterIP, ports, ms);
      }
      ok := true;
    }

    /** One port mapping of a new service. The entry rule and the record of the service chain come last. */
    method CreatePort(service: string, clusterIP: string, port: ServicePort, pods: seq<string>, ips: seq<string>)
      returns (ok: bool)
      requires |pods| == |ips| && iptables.next == |drawn| && Fresh(View())
      modifies this`drawn, iptables, record
      ensures iptables.next == |drawn| && Placed(old(drawn))
      ensures var px, ms, bad := old(View()), old(MembersOf(pods, ips)), FirstBad(ips, parses);
        && Services in px.table && (ok <==> bad == |ips|) && (ok ==> Fresh(View()))
        && View() == if ok then Mapped(px, service, clusterIP, parses(clusterIP), port, ms)
                     else Aborted(px, service, port, ms, bad)
    {
      hide Fresh, JoinedBy, Litter, FirstBad;
      ghost var px, ms := View(), MembersOf(pods, ips);
      FreshParts(px);
      SproutedFresh(px, service, port);
      var c := iptables.CreateServiceChain();
      drawn := drawn + [ForService(service, port)];
      var e := ServiceEntry(c, port);
      assert MembersOf(pods, ips) == ms && View() == Sprouted(px, service, port);
      ok := JoinAll(e, pods, ips);
      if !ok {
        return;
      }
      ghost var joined := View();
      NotedFresh(joined, service, clusterIP, parses(clusterIP), e);
      FreshParts(joined);
      var entered := iptables.ApplyServiceChain(service, clusterIP, parses(clusterIP), c, port.port);
      record.AddServiceChain(service, e);
      assert View() == Noted(joined, service, clusterIP, parses(clusterIP), e);
    }

    /** The pods join a new service chain, up to the first whose address does not parse. */
    method JoinAll(e: ServiceEntry, pods: seq<string>, ips: seq<string>) returns (ok: bool)
      requires |pods| == |ips| && iptables.next == |drawn| && Fresh(View())
      requires e.chain.ServiceChain? && e.chain in iptables.table && record.View().Pods(e.chain) == []
      modifies this`drawn, iptables, record
      ensures iptables.next == |drawn| && Placed(old(drawn))
      ensures var px, ms, bad := old(View()), old(MembersOf(pods, ips)), FirstBad(ips, parses);
        && (ok <==> bad == |ips|) && (ok ==> Fresh(View()) && e.chain in iptables.table)
        && View() == if ok then JoinedBy(px, e, ms, |ms|) else Litter(JoinedBy(px, e, ms, bad), e, ms[bad])
    {
      hide Fresh, Attach, Litter, JoinedBy;
      ghost var px, ms := View(), MembersOf(pods, ips);
      JoinedNone(px, e, ms);
      var i := 0;
      while i < |pods|
        invariant 0 <= i <= FirstBad(ips, parses) && iptables.next == |drawn| && ms == MembersOf(pods, ips) && Placed(old(drawn))
        invariant Fresh(View()) && View() == JoinedBy(px, e, ms, i)
      {
        FreshKept(View(), e, ms[i]);
        FreshParts(View());
        if i < FirstBad(ips, parses) {
          JoinedNext(px, e, ms, i);
        }
        ok := Join(e, pods[i], ips[i], i + 1);
        if !ok {
          return;
        }
        i := i + 1;
      }
      ok := true;
    }

    method AddPodToServices(serviceNames: seq<string>, pod: string, ip: string) returns (ok: bool)
      requires Valid()
      modifies this`drawn, iptables, record
      ensures Valid() && Placed(old(drawn))
      ensures View() == if parses(ip) then AddTo(old(View()), serviceNames, old(MemberOf(pod, ip)), |serviceNames|)
                                      else LitterTo(old(View()), serviceNames, old(MemberOf(pod, ip)), |serviceNames|)
      ensures ok <==> (forall s | s in serviceNames :: s in old(View()).meta.clusterIPs) &&
                      (parses(ip) || forall s | s in serviceNames :: old(View()).meta.Chains(s) == [])
    {
      hide Refines, Attach, LitterEach, AttachEach;
      ok := true;
      ghost var start, m := View(), MemberOf(pod, ip);
      var k := 0;
      while k < |serviceNames|
        invariant 0 <= k <= |serviceNames| && Valid() && m == MemberOf(pod, ip) && Placed(old(drawn))
        invariant View().meta.clusterIPs == start.meta.clusterIPs
        invariant View().meta.serviceChains == start.meta.serviceChains
        invariant View() == if parses(ip) then AddTo(start, serviceNames, m, k) else LitterTo(start, serviceNames, m, k)
        invariant ok <==> (forall s | s in serviceNames[..k] :: s in start.meta.clusterIPs) &&
                          (parses(ip) || forall s | s in serviceNames[..k] :: start.meta.Chains(s) == [])
      {
        var service := serviceNames[k];
        assert serviceNames[..k + 1] == serviceNames[..k] + [service];
        if !record.ServiceExists(service) {
          ok := false;
        } else {
          var added := AddPodToService(service, pod, ip);
          ok := ok && added;
        }
        k := k + 1;
      }
      assert serviceNames[..k] == serviceNames;
    }

    method AddPodToService(service: string, pod: string, ip: string) returns (ok: bool)
      requires Valid() && service in View().meta.clusterIPs
      modifies this`drawn, iptables, record
      ensures Valid() && Placed(old(drawn))
      ensures View().meta.clusterIPs == old(View()).meta.clusterIPs
      ensures View().meta.serviceChains == old(View()).meta.serviceChains
      ensures var px, m, es := old(View()), old(MemberOf(pod, ip)), old(View()).meta.Chains(service);
        View() == if parses(ip) then AttachEach(px, service, m, |es|) else LitterEach(px, es, m, |es|)
      ensures ok <==> parses(ip) || old(View()).meta.Chains(service) == []
    {
      hide Refines, Attach, Litter;
      ghost var before, m := View(), MemberOf(pod, ip);
      var serviceChains := record.GetServiceChains(service);
      ok := true;
      var i := 0;
      while i < |serviceChains|
        invariant 0 <= i <= |serviceChains| && Valid() && m == MemberOf(pod, ip) && Placed(old(drawn))
        invariant View().meta.clusterIPs == before.meta.clusterIPs
        invariant View().meta.serviceChains == before.meta.serviceChains
        invariant View() == if parses(ip) then AttachEach(before, service, m, i) else LitterEach(before, serviceChains, m, i)
        invariant ok <==> parses(ip) || i == 0
      {
        var e := serviceChains[i];
        var chainNum := |record.GetPodChains(e.chain)|;
        assert InService(View().meta, service, e);
        JoinReady(View(), service, e);
        AttachRefines(View(), service, e, m);
        LitterRefines(View(), e, m);
        MetaKept(View(), e, m);
        ok := Join(e, pod, ip, chainNum + 1);
        i := i + 1;
      }
    }

    /** The numbers drawn are the next ones, and the wiring is sound; records may be stale. */
    ghost predicate Operable()
      reads this, iptables, record
    {
      Wired(View()) && iptables.next == |drawn|
    }

    method DeletePodFromServices(serviceNames: seq<string>, pod: string) returns (ok: bool)
      requires Operable()
      modifies iptables, record
      ensures Operable() && View() == EvictFrom(old(View()), serviceNames, pod, |serviceNames|)
      ensures old(Valid()) && DistinctPods(old(View())) ==>
        Valid() && DistinctPods(View()) && View() == RemoveFrom(old(View()), serviceNames, pod, |serviceNames|) &&
        ToldFrom(old(View()), serviceNames, pod, |serviceNames|)
      ensures ok <==>
        && (forall s | s in serviceNames :: s in old(View()).meta.clusterIPs)
        && ToldFrom(old(View()), serviceNames, pod, |serviceNames|)
    {
      hide Refines, DistinctPods, Wired, Evict, EvictEach, ToldEach;
      var told, allExist := true, true;
      ghost var start := View();
      var k := 0;
      while k < |serviceNames|
        invariant 0 <= k <= |serviceNames| && Operable()
        invariant View() == EvictFrom(start, serviceNames, pod, k) && told == ToldFrom(start, serviceNames, pod, k)
        invariant allExist <==> forall s | s in serviceNames[..k] :: s in start.meta.clusterIPs
      {
        var service := serviceNames[k];
        assert serviceNames[..k + 1] == serviceNames[..k] + [service];
        if !record.ServiceExists(service) {
          allExist := false;
        } else {
          told := DeletePodFromService(service, pod, told);
        }
        k := k + 1;
      }
      assert serviceNames[..k] == serviceNames;
      ok := allExist && told;
      if Refines(start) && DistinctPods(start) {
        EvictFromRemoves(start, serviceNames, pod, k);
      }
    }

    method DeletePodFromService(service: string, pod: string, told: bool) returns (ok: bool)
      requires Operable() && service in View().meta.clusterIPs
      modifies iptables, record
      ensures Operable()
      ensures View() == EvictEach(old(View()), service, pod, |old(View()).meta.Chains(service)|)
      ensures ok == ToldEach(old(View()), service, pod, |old(View()).meta.Chains(service)|, told)
    {
      hide Wired, Evict, Told;
      ok := told;
      ghost var before := View();
      var serviceChains := record.GetServiceChains(service);
      var i := 0;
      while i < |serviceChains|
        invariant 0 <= i <= |serviceChains| && Operable()
        invariant View() == EvictEach(before, service, pod, i) && ok == ToldEach(before, service, pod, i, told)
      {
        assert InService(View().meta, service, serviceChains[i]);
        EvictWired(View(), service, serviceChains[i], pod);
        ok := Leave(service, serviceChains[i], pod, ok);
        i := i + 1;
      }
    }

    /** Flushes a service chain, deletes the chains of the leaving pod and renumbers the others; the kernel refuses
        rules for chains that are gone. Only the last rule decides what the caller is told. */
    method Leave(ghost service: string, e: ServiceEntry, pod: string, told: bool) returns (ok: bool)
      requires Operable() && InService(View().meta, service, e)
      modifies iptables, record
      ensures iptables.next == old(iptables.next) && View() == Evict(old(View()), e, pod)
      ensures ok == Told(old(View()), e, pod, told)
    {
      hide Wired, Leaving, Others, LiveRules;
      ok := told;
      ghost var before := View();
      LeavingEnds(before, e, pod);
      iptables.ClearServiceChain(e.chain);
      var podChains := record.GetPodChains(e.chain);
      var roundRobin := 0;
      var j := 0;
      OthersOfNone(podChains, pod);
      while j < |podChains|
        invariant 0 <= j <= |podChains| && podChains == before.meta.Pods(e.chain)
        invariant iptables.next == old(iptables.next) && record.View() == before.meta
        invariant iptables.table == Leaving(before, e, pod, j)
        invariant roundRobin == |Others(podChains[..j], pod)|
        invariant ok == ToldUpTo(before, e, pod, j, told)
      {
        var p := podChains[j];
        LeavingRecord(before, service, e, pod, j);
        if p.pod == pod {
          LeaverUnreferenced(before, service, e, pod, j);
          LeaverGone(before, e, pod, j);
          var deleted := iptables.DeletePodChain(p.chain);
        } else {
          roundRobin := roundRobin + 1;
          StayerRenumbered(before, e, pod, j);
          ok := iptables.ApplyPodChain(e.chain, p.pod, p.chain, roundRobin);
        }
        j := j + 1;
      }
      record.DeletePodChainFromServiceChain(pod, e.chain);
    }

    method DeleteService(service: string) returns (ok: bool)
      requires Valid()
      modifies iptables, record
      ensures Valid() && View() == Delete(old(View()), service)
      ensures ok <==> service in old(View()).meta.clusterIPs
    {
      hide Refines, Drop, Dropping;
      if !record.ServiceExists(service) {
        return false;
      }
      ghost var before := View();
      RefinesFresh(before);
      DroppingEnds(before, service);
      var clusterIP := record.serviceToClusterIP[service];
      var serviceChains := record.GetServiceChains(service);
      var k := 0;
      while k < |serviceChains|
        invariant 0 <= k <= |serviceChains| && iptables.next == old(iptables.next)
        invariant iptables.table == Dropping(before, service, k)
        invariant record.View() == before.meta.(podChains := DroppedRecords(before, service, k))
      {
        DeleteChain(before, service, clusterIP, k, serviceChains[k]);
        k := k + 1;
      }
      record.DeleteServiceChains(service);
      record.DeleteServiceClusterIP(service);
      DropRefines(before, service);
      DroppedAll(before, service);
      ok := true;
    }

    /** Deletes one service chain with its entry rule and its pod chains. */
    method DeleteChain(ghost before: Proxy, service: string, clusterIP: string, ghost k: nat, e: ServiceEntry)
      requires Refines(before) && service in before.meta.clusterIPs && clusterIP == before.meta.clusterIPs[service]
      requires k < |before.meta.Chains(service)| && e == before.meta.Chains(service)[k]
      requires Services in before.table && iptables.table == Dropping(before, service, k)
      requires record.View() == before.meta.(podChains := DroppedRecords(before, service, k))
      modifies iptables, record
      ensures iptables.next == old(iptables.next) && iptables.table == Dropping(before, service, k + 1)
      ensures record.View() == before.meta.(podChains := DroppedRecords(before, service, k + 1))
    {
      hide Refines, Dropping, DroppedRecords;
      DroppingChain(before, service, k);
      RecordKept(before, service, k);
      DroppingRound(before, service, k);
      var deleted := iptables.DeleteServiceChain(service, clusterIP, e.chain, e.port.port);
      var podChains := record.GetPodChains(e.chain);
      var j := 0;
      while j < |podChains|
        invariant 0 <= j <= |podChains| && podChains == before.meta.Pods(e.chain)
        invariant iptables.next == old(iptables.next) && record.View() == old(record.View())
        invariant iptables.table == DroppingPods(before, service, k, j)
      {
        DroppingPod(before, service, k, j);
        var gone := iptables.DeletePodChain(podChains[j].chain);
        j := j + 1;
      }
      record.DeletePodChains(e.chain);
    }
  }
}
