/**
 The proxy's own record of what it has put in the nat table (pkg/kubelet/proxy/service_manager.go).
 */
module ServiceMeta {
  import opened Iptables
  import Core

  type ServicePort = Core.ServicePort

  /** A pod chain, the pod it stands for and the address it rewrites to. */
  datatype PodEntry = PodEntry(chain: Chain, pod: string, ip: string)

  /** A service chain and the port mapping it serves. */
  datatype ServiceEntry = ServiceEntry(chain: Chain, port: ServicePort)

  datatype Meta = Meta(
    clusterIPs: map<string, string>,
    serviceChains: map<string, seq<ServiceEntry>>,
    podChains: map<Chain, seq<PodEntry>>)
  {
    /** A missing key reads as the empty slice. */
    function Chains(service: string): seq<ServiceEntry> {
      if service in serviceChains then serviceChains[service] else []
    }

    function Pods(c: Chain): seq<PodEntry> {
      if c in podChains then podChains[c] else []
    }
  }

  /** The entries without the first one for `pod`. */
  function RemovePod(entries: seq<PodEntry>, pod: string): seq<PodEntry> {
    if entries == [] then []
    else if entries[0].pod == pod then entries[1..]
    else [entries[0]] + RemovePod(entries[1..], pod)
  }

  lemma {:induction false} RemovePodSplit(entries: seq<PodEntry>, pod: string, i: nat)
    requires i < |entries| && entries[i].pod == pod
    requires forall k | 0 <= k < i :: entries[k].pod != pod
    ensures RemovePod(entries, pod) == entries[..i] + entries[i + 1..]
  {
    if i == 0 {
      assert entries[..0] + entries[1..] == entries[1..];
    } else {
      var rest := entries[1..];
      assert rest[i - 1] == entries[i];
      assert forall k | 0 <= k < i - 1 :: rest[k] == entries[k + 1];
      RemovePodSplit(rest, pod, i - 1);
      assert [entries[0]] + rest[..i - 1] == entries[..i];
      assert rest[i..] == entries[i + 1..];
      assert [entries[0]] + (rest[..i - 1] + rest[i..]) == ([entries[0]] + rest[..i - 1]) + rest[i..];
    }
  }

  lemma {:induction false} RemovePodAbsent(entries: seq<PodEntry>, pod: string)
    requires forall p | p in entries :: p.pod != pod
    ensures RemovePod(entries, pod) == entries
  {
    if entries != [] {
      assert entries[0] in entries;
      assert forall p | p in entries[1..] :: p in entries;
      RemovePodAbsent(entries[1..], pod);
    }
  }

  class MetaManager {
    var serviceToClusterIP: map<string, string>
    var serviceChains: map<string, seq<ServiceEntry>>
    var podChains: map<Chain, seq<PodEntry>>

    ghost function View(): Meta
      reads this
    {
      Meta(serviceToClusterIP, serviceChains, podChains)
    }

    constructor ()
      ensures View() == Meta(map[], map[], map[])
    {
      serviceToClusterIP, serviceChains, podChains := map[], map[], map[];
    }

    method AddServiceClusterIP(service: string, clusterIP: string)
      modifies this
      ensures View() == old(View()).(clusterIPs := old(serviceToClusterIP)[service := clusterIP])
    {
      serviceToClusterIP := serviceToClusterIP[service := clusterIP];
    }

    method AddServiceChain(service: string, e: ServiceEntry)
      modifies this
      ensures View() == old(View()).(serviceChains :=
        old(serviceChains)[service := old(View()).Chains(service) + [e]])
    {
      serviceChains := serviceChains[service := GetServiceChains(service) + [e]];
    }

    method AddPodChain(c: Chain, p: PodEntry)
      modifies this
      ensures View() == old(View()).(podChains := old(podChains)[c := old(View()).Pods(c) + [p]])
    {
      podChains := podChains[c := GetPodChains(c) + [p]];
    }

    function GetServiceChains(service: string): (es: seq<ServiceEntry>)
      reads this
      ensures es == View().Chains(service)
    {
      if service in serviceChains then serviceChains[service] else []
    }

    function GetPodChains(c: Chain): (ps: seq<PodEntry>)
      reads this
      ensures ps == View().Pods(c)
    {
      if c in podChains then podChains[c] else []
    }

    method DeleteServiceClusterIP(service: string)
      modifies this
      ensures View() == old(View()).(clusterIPs := old(serviceToClusterIP) - {service})
    {
      serviceToClusterIP := serviceToClusterIP - {service};
    }

    method DeleteServiceChains(service: string)
      modifies this
      ensures View() == old(View()).(serviceChains := old(serviceChains) - {service})
    {
      serviceChains := serviceChains - {service};
    }

    method DeletePodChains(c: Chain)
      modifies this
      ensures View() == old(View()).(podChains := old(podChains) - {c})
    {
      podChains := podChains - {c};
    }

    /** Cuts the first entry of the pod out of the slice and writes the slice back, found or not. */
    method DeletePodChainFromServiceChain(pod: string, c: Chain)
      modifies this
      ensures View() == old(View()).(podChains := old(podChains)[c := RemovePod(old(View()).Pods(c), pod)])
    {
      var entries := GetPodChains(c);
      var i := 0;
      while i < |entries|
        invariant 0 <= i <= |entries| && entries == old(View()).Pods(c)
        invariant forall k | 0 <= k < i :: entries[k].pod != pod
      {
        if entries[i].pod == pod {
          break;
        }
        i := i + 1;
      }
      if i < |entries| {
        RemovePodSplit(entries, pod, i);
        entries := entries[..i] + entries[i + 1..];
      } else {
        RemovePodAbsent(entries, pod);
      }
      podChains := podChains[c := entries];
    }

    predicate ServiceExists(service: string)
      reads this
    {
      service in serviceToClusterIP
    }
  }
}
