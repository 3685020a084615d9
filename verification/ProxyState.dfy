/**
 The state of one node's proxy as a value, and what the four operations of pkg/kubelet/kube_proxy.go do to
 it. KubeProxy.dfy proves that the imperative operations do exactly this.
 */
module ProxyState {
  import opened Sequences
  import opened Iptables
  import opened ServiceMeta

  /** What a drawn chain number was drawn for; a pod runs on this node or on another. */
  datatype Home =
    | ForService(service: string, port: ServicePort)
    | ForPod(serviceChain: Chain, pod: string, ip: string, here: bool)

  /** Proxy state: the address of the host, the nat table, the record, and the log of all chain numbers
      drawn so far. */
  datatype Proxy = Proxy(host: string, table: Table, meta: Meta, drawn: seq<Home>)

  /** A pod offered to a service, and whether it runs on this node. */
  datatype Member = Member(pod: string, ip: string, sameHost: bool)

  /** The rules of a service chain: the last pod's rule comes first and carries the highest number. */
  function ServiceRules(pods: seq<PodEntry>): (rules: seq<Rule>)
    ensures |rules| == |pods|
  {
    if pods == [] then []
    else
      var n := |pods|;
      [ToPod(pods[n - 1].pod, n, pods[n - 1].chain)] + ServiceRules(pods[..n - 1])
  }

  function Entry(service: string, clusterIP: string, e: ServiceEntry): Rule {
    ToService(clusterIP, e.port.port, service, e.chain)
  }

  /** The cluster address is recorded. */
  function Announce(px: Proxy, service: string, clusterIP: string): Proxy {
    px.(meta := px.meta.(clusterIPs := px.meta.clusterIPs[service := clusterIP]))
  }

  /** A service chain gets its entry rule and its record. */
  function Register(px: Proxy, service: string, clusterIP: string, e: ServiceEntry): Proxy
    requires Services in px.table
  {
    px.(table := px.table[Services := [Entry(service, clusterIP, e)] + px.table[Services]],
        meta := px.meta.(serviceChains := px.meta.serviceChains[service := px.meta.Chains(service) + [e]]))
  }

  /** A fresh, empty service chain for one port mapping, registered. */
  function Open(px: Proxy, service: string, clusterIP: string, port: ServicePort): (r: Proxy)
    requires Services in px.table
  {
    var c := Chain.ServiceChain(|px.drawn|);
    Register(px.(table := px.table[c := []], drawn := px.drawn + [ForService(service, port)]),
             service, clusterIP, ServiceEntry(c, port))
  }

  /** A pod joins a service chain. */
  function Attach(px: Proxy, e: ServiceEntry, m: Member): Proxy
    requires e.chain in px.table
  {
    var c := Chain.PodChain(|px.drawn|);
    var pods := px.meta.Pods(e.chain);
    px.(table := px.table[c := PodRules(m.ip, e.port.targetPort, px.host, m.sameHost)]
                         [e.chain := [ToPod(m.pod, |pods| + 1, c)] + px.table[e.chain]],
        drawn := px.drawn + [ForPod(e.chain, m.pod, m.ip, m.sameHost)],
        meta := px.meta.(podChains := px.meta.podChains[e.chain := pods + [PodEntry(c, m.pod, m.ip)]]))
  }

  /** The entries of other pods. */
  function Others(pods: seq<PodEntry>, pod: string): (r: seq<PodEntry>)
    ensures forall p | p in r :: p in pods && p.pod != pod
    ensures forall p | p in pods && p.pod != pod :: p in r
  {
    if pods == [] then []
    else
      var n := |pods|;
      Others(pods[..n - 1], pod) + if pods[n - 1].pod == pod then [] else [pods[n - 1]]
  }

  function ChainsOf(pods: seq<PodEntry>, pod: string): set<Chain> {
    set p | p in pods && p.pod == pod :: p.chain
  }

  /** A pod leaves a service chain: its chain is deleted and the rules of the others are renumbered. */
  function Detach(px: Proxy, e: ServiceEntry, pod: string): Proxy {
    var pods := px.meta.Pods(e.chain);
    px.(table := (px.table - ChainsOf(pods, pod))[e.chain := ServiceRules(Others(pods, pod))],
        meta := px.meta.(podChains := px.meta.podChains[e.chain := RemovePod(pods, pod)]))
  }

  function ServiceChainsOf(es: seq<ServiceEntry>): set<Chain> {
    set e | e in es :: e.chain
  }

  function PodChainsOf(meta: Meta, es: seq<ServiceEntry>): set<Chain> {
    set e, p | e in es && p in meta.Pods(e.chain) :: p.chain
  }

  function EntriesOf(meta: Meta, service: string, es: seq<ServiceEntry>): set<Rule>
    requires service in meta.clusterIPs
  {
    set e | e in es :: Entry(service, meta.clusterIPs[service], e)
  }

  /** A service disappears with everything that was made for it. */
  function Drop(px: Proxy, service: string): Proxy
    requires Services in px.table && service in px.meta.clusterIPs
  {
    var es := px.meta.Chains(service);
    var entries := Without(px.table[Services], EntriesOf(px.meta, service, es));
    px.(table := (px.table - ServiceChainsOf(es) - PodChainsOf(px.meta, es))[Services := entries],
        meta := Meta(px.meta.clusterIPs - {service}, px.meta.serviceChains - {service},
                     px.meta.podChains - ServiceChainsOf(es)))
  }

  // ---- invariants ----

  predicate InService(meta: Meta, service: string, e: ServiceEntry) {
    e in meta.Chains(service)
  }

  predicate InChain(meta: Meta, c: Chain, p: PodEntry) {
    p in meta.Pods(c)
  }

  /** The service chain `c` is on record, for the service and port it was drawn for. */
  predicate OnRecord(px: Proxy, c: Chain) {
    c.ServiceChain? && c.id < |px.drawn| && px.drawn[c.id].ForService? &&
    InService(px.meta, px.drawn[c.id].service, ServiceEntry(c, px.drawn[c.id].port))
  }

  /** The number was drawn for this entry of this service chain. */
  predicate DrawnFor(h: Home, c: Chain, p: PodEntry) {
    h.ForPod? && h.serviceChain == c && h.pod == p.pod && h.ip == p.ip
  }

  /** Every recorded chain carries a number drawn for exactly that purpose, so no chain has two records. */
  ghost predicate Separate(px: Proxy) {
    && (forall s, e | InService(px.meta, s, e) ::
          e.chain.ServiceChain? && e.chain.id < |px.drawn| && px.drawn[e.chain.id] == ForService(s, e.port))
    && (forall c, p | InChain(px.meta, c, p) ::
          p.chain.PodChain? && p.chain.id < |px.drawn| && DrawnFor(px.drawn[p.chain.id], c, p))
    && (forall c | c in px.meta.podChains :: OnRecord(px, c) && NoDup(px.meta.podChains[c]))
    && (forall s | s in px.meta.serviceChains :: s in px.meta.clusterIPs && NoDup(px.meta.serviceChains[s]))
  }

  /** Chains that are not drawn yet are not in the table. */
  ghost predicate Undrawn(px: Proxy) {
    forall c | c in px.table && (c.ServiceChain? || c.PodChain?) :: c.id < |px.drawn|
  }

  /** The rules of every service chain are its recorded pods in reverse, numbered n, ..., 1. */
  ghost predicate ServicesRefine(px: Proxy) {
    forall s, e | InService(px.meta, s, e) ::
      e.chain in px.table && px.table[e.chain] == ServiceRules(px.meta.Pods(e.chain))
  }

  /** Whether the pod ran on this node when its chain was drawn. */
  predicate Here(px: Proxy, p: PodEntry) {
    p.chain.PodChain? && p.chain.id < |px.drawn| && px.drawn[p.chain.id].ForPod? && px.drawn[p.chain.id].here
  }

  predicate Fills(px: Proxy, p: PodEntry, targetPort: int) {
    p.chain in px.table && px.table[p.chain] == PodRules(p.ip, targetPort, px.host, Here(px, p))
  }

  /** Every recorded pod chain rewrites to that pod's address and the target port of its service chain. */
  ghost predicate PodsRefine(px: Proxy) {
    forall c, p | InChain(px.meta, c, p) :: OnRecord(px, c) && Fills(px, p, px.drawn[c.id].port.targetPort)
  }

  /** An entry rule that belongs to a recorded service chain. */
  predicate EntryOnRecord(px: Proxy, r: Rule) {
    r.ToService? && OnRecord(px, r.target) && r.service in px.meta.clusterIPs &&
    var port := px.drawn[r.target.id].port;
    px.drawn[r.target.id].service == r.service &&
    r == Entry(r.service, px.meta.clusterIPs[r.service], ServiceEntry(r.target, port))
  }

  /** The entry rules are those of the recorded service chains, one each. */
  ghost predicate EntriesRefine(px: Proxy) {
    && Services in px.table
    && NoDup(px.table[Services])
    && (forall r | r in px.table[Services] :: EntryOnRecord(px, r))
    && (forall s, e | InService(px.meta, s, e) ::
          s in px.meta.clusterIPs && Entry(s, px.meta.clusterIPs[s], e) in px.table[Services])
  }

  /** The jump does not dangle; only recorded service chains jump to pod chains and only the entry chain
      jumps to service chains. */
  predicate JumpSound(px: Proxy, c: Chain, r: Rule) {
    r.HasTarget() ==>
      && r.target in px.table
      && (r.target.PodChain? ==> OnRecord(px, c))
      && (r.target.ServiceChain? ==> c == Services)
  }

  ghost predicate JumpsSound(px: Proxy) {
    && MarkMasq in px.table && px.table[MarkMasq] == [XMark(MasqBit, true)]
    && HostMarkMasq in px.table && px.table[HostMarkMasq] == [XMark(HostBit, true)]
    && forall c, r | c in px.table && r in px.table[c] :: JumpSound(px, c, r)
  }

  ghost predicate Refines(px: Proxy) {
    Separate(px) && Undrawn(px) && ServicesRefine(px) && PodsRefine(px) && EntriesRefine(px) && JumpsSound(px)
  }

  ghost predicate DistinctNames(pods: seq<PodEntry>) {
    forall i, j | 0 <= i < j < |pods| :: pods[i].pod != pods[j].pod
  }

  ghost predicate DistinctPods(px: Proxy) {
    forall c | c in px.meta.podChains :: DistinctNames(px.meta.podChains[c])
  }
}
