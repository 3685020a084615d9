/**
 What the loops of the proxy have done halfway through, as functions on the proxy state.
 */
module ProxyLoops {
  import opened Sequences
  import opened Iptables
  import opened ServiceMeta
  import opened ProxyState
  import opened ProxyInvariants
  import opened ProxyOps

  // ---- creating ----

  /** A pod chain that was created for a pod whose address does not parse: drawn, empty, not recorded. */
  function Litter(px: Proxy, e: ServiceEntry, m: Member): Proxy {
    Spare(px, Chain.PodChain(|px.drawn|), ForPod(e.chain, m.pod, m.ip, m.sameHost))
  }

  /** An empty chain with the next number that nothing jumps to and no one has recorded. */
  function Spare(px: Proxy, c: Chain, home: Home): Proxy {
    px.(table := px.table[c := []], drawn := px.drawn + [home])
  }

  lemma SpareKeeps(px: Proxy, c: Chain, home: Home)
    ensures var r := Spare(px, c, home);
      && (forall d | OnRecord(px, d) :: OnRecord(r, d))
      && (forall s, e :: InService(r.meta, s, e) == InService(px.meta, s, e))
      && (forall d, p :: InChain(r.meta, d, p) == InChain(px.meta, d, p))
  {
  }

  lemma SpareRefines(px: Proxy, c: Chain, home: Home)
    requires Refines(px) && (c.ServiceChain? || c.PodChain?) && c.id == |px.drawn|
    ensures Refines(Spare(px, c, home))
  {
    hide ServiceRules, Fills;
    var r := Spare(px, c, home);
    SpareKeeps(px, c, home);
    assert forall rule | rule in px.table[Services] :: EntryOnRecord(px, rule) && EntryOnRecord(r, rule);
    SpareSeparate(px, c, home);
    SpareServices(px, c, home);
    SparePods(px, c, home);
    forall d, rule | d in r.table && rule in r.table[d] ensures JumpSound(r, d, rule) {
      assert JumpSound(px, d, rule);
    }
  }

  lemma SpareSeparate(px: Proxy, c: Chain, home: Home)
    requires Separate(px)
    ensures Separate(Spare(px, c, home))
  {
    SpareKeeps(px, c, home);
  }

  lemma SpareServices(px: Proxy, c: Chain, home: Home)
    requires Separate(px) && ServicesRefine(px) && (c.ServiceChain? || c.PodChain?) && c.id == |px.drawn|
    ensures ServicesRefine(Spare(px, c, home))
  {
    hide ServiceRules;
    SpareKeeps(px, c, home);
  }

  lemma SparePods(px: Proxy, c: Chain, home: Home)
    requires Separate(px) && PodsRefine(px) && (c.ServiceChain? || c.PodChain?) && c.id == |px.drawn|
    ensures PodsRefine(Spare(px, c, home))
  {
    hide PodRules;
    var r := Spare(px, c, home);
    SpareKeeps(px, c, home);
    forall d, p | InChain(r.meta, d, p) ensures OnRecord(r, d) && Fills(r, p, r.drawn[d.id].port.targetPort) {
      assert OnRecord(px, d) && Fills(px, p, px.drawn[d.id].port.targetPort);
    }
  }

  lemma LitterRefines(px: Proxy, e: ServiceEntry, m: Member)
    requires Refines(px)
    ensures Refines(Litter(px, e, m))
  {
    hide Refines;
    SpareRefines(px, Chain.PodChain(|px.drawn|), ForPod(e.chain, m.pod, m.ip, m.sameHost));
  }

  /** One empty chain for each of the first k chains of a service. */
  function LitterEach(px: Proxy, es: seq<ServiceEntry>, m: Member, k: nat): (r: Proxy)
    requires k <= |es|
    ensures r.meta == px.meta
  {
    if k == 0 then px else Litter(LitterEach(px, es, m, k - 1), es[k - 1], m)
  }

  /** Empty chains with the next numbers, and nothing else. */
  ghost predicate Littered(px: Proxy, r: Proxy) {
    && r.meta == px.meta && r.host == px.host && px.drawn <= r.drawn
    && (forall c | c in px.table && !(c.PodChain? && c.id >= |px.drawn|) :: c in r.table && r.table[c] == px.table[c])
    && (forall c | c in r.table && c !in px.table :: c.PodChain? && |px.drawn| <= c.id < |r.drawn|)
    && (forall n: nat | |px.drawn| <= n < |r.drawn| :: Chain.PodChain(n) in r.table && r.table[Chain.PodChain(n)] == [])
  }

  lemma {:induction false} LitterEachMeans(px: Proxy, es: seq<ServiceEntry>, m: Member, k: nat)
    requires k <= |es|
    ensures var r := LitterEach(px, es, m, k); Littered(px, r) && |r.drawn| == |px.drawn| + k
  {
    if k > 0 {
      LitterEachMeans(px, es, m, k - 1);
    }
  }

  function ChainCount(px: Proxy, services: seq<string>, k: nat): nat
    requires k <= |services|
  {
    if k == 0 then 0
    else ChainCount(px, services, k - 1) + if services[k - 1] in px.meta.clusterIPs then |px.meta.Chains(services[k - 1])| else 0
  }

  /** A pod whose address does not parse leaves one empty chain for each chain of the services, and nothing else. */
  lemma {:induction false} LitterToMeans(px: Proxy, services: seq<string>, m: Member, k: nat)
    requires k <= |services|
    ensures var r := LitterTo(px, services, m, k); Littered(px, r) && |r.drawn| == |px.drawn| + ChainCount(px, services, k)
  {
    if k > 0 {
      LitterToMeans(px, services, m, k - 1);
      var before, s := LitterTo(px, services, m, k - 1), services[k - 1];
      if s in px.meta.clusterIPs {
        LitterEachMeans(before, px.meta.Chains(s), m, |px.meta.Chains(s)|);
      }
    }
  }

  /** What is left of adding a pod whose address does not parse to the first k services. */
  function LitterTo(px: Proxy, services: seq<string>, m: Member, k: nat): (r: Proxy)
    requires k <= |services|
    ensures r.meta == px.meta
  {
    if k == 0 then px
    else
      var before, s := LitterTo(px, services, m, k - 1), services[k - 1];
      if s in px.meta.clusterIPs then LitterEach(before, px.meta.Chains(s), m, |px.meta.Chains(s)|) else before
  }

  /** The fixed chains are there, and numbers in use are below the next one. */
  ghost predicate Fresh(px: Proxy) {
    && Services in px.table && MarkMasq in px.table && HostMarkMasq in px.table
    && Undrawn(px)
    && forall c | c in px.meta.podChains :: c.ServiceChain? && c.id < |px.drawn|
  }

  lemma RefinesFresh(px: Proxy)
    requires Refines(px)
    ensures Fresh(px)
  {
    assert forall c | c in px.meta.podChains :: OnRecord(px, c);
  }

  /** A service chain before anyone has joined it; it is not recorded yet. */
  function Sprouted(px: Proxy, service: string, port: ServicePort): Proxy {
    Spare(px, Opened(px, port).chain, ForService(service, port))
  }

  /** The first k members join one after the other. */
  function JoinedBy(px: Proxy, e: ServiceEntry, ms: seq<Member>, k: nat): (r: Proxy)
    requires e.chain in px.table && k <= |ms|
    ensures e.chain in r.table
    ensures |r.meta.Pods(e.chain)| == |px.meta.Pods(e.chain)| + k
    ensures Services in px.table ==> Services in r.table
  {
    if k == 0 then px else Attach(JoinedBy(px, e, ms, k - 1), e, ms[k - 1])
  }

  lemma JoinedNone(px: Proxy, e: ServiceEntry, ms: seq<Member>)
    requires e.chain in px.table
    ensures JoinedBy(px, e, ms, 0) == px
  {
  }

  lemma JoinedNext(px: Proxy, e: ServiceEntry, ms: seq<Member>, k: nat)
    requires e.chain in px.table && k < |ms|
    ensures JoinedBy(px, e, ms, k + 1) == Attach(JoinedBy(px, e, ms, k), e, ms[k])
  {
  }

  /** The service chain is recorded, and entered if the cluster address parses. */
  function Noted(px: Proxy, service: string, clusterIP: string, valid: bool, e: ServiceEntry): (r: Proxy)
    requires Services in px.table
    ensures Services in r.table
  {
    if valid then Register(px, service, clusterIP, e)
    else px.(meta := px.meta.(serviceChains := px.meta.serviceChains[service := px.meta.Chains(service) + [e]]))
  }

  /** One port mapping of a service whose cluster address is not recorded yet. */
  function Mapped(px: Proxy, service: string, clusterIP: string, valid: bool, port: ServicePort, ms: seq<Member>): (r: Proxy)
    requires Services in px.table
    ensures Services in r.table
  {
    Noted(JoinedBy(Sprouted(px, service, port), Opened(px, port), ms, |ms|), service, clusterIP, valid, Opened(px, port))
  }

  function MappedEach(px: Proxy, service: string, clusterIP: string, valid: bool, ports: seq<ServicePort>, ms: seq<Member>,
                      k: nat): (r: Proxy)
    requires Services in px.table && k <= |ports|
    ensures Services in r.table
  {
    if k == 0 then px else Mapped(MappedEach(px, service, clusterIP, valid, ports, ms, k - 1), service, clusterIP, valid, ports[k - 1], ms)
  }

  /** Where creating a service stops when the address of member i does not parse: the first service chain is made and
      the members before i have joined it, but it is neither entered nor recorded. */
  function Aborted(px: Proxy, service: string, port: ServicePort, ms: seq<Member>, i: nat): Proxy
    requires i < |ms|
  {
    Litter(JoinedBy(Sprouted(px, service, port), Opened(px, port), ms, i), Opened(px, port), ms[i])
  }

  /** The first address that does not parse. */
  function FirstBad(ips: seq<string>, parses: string -> bool): (i: nat)
    ensures i <= |ips| && (i < |ips| ==> !parses(ips[i])) && forall j | 0 <= j < i :: parses(ips[j])
    ensures i == |ips| <==> forall ip | ip in ips :: parses(ip)
  {
    if ips == [] || !parses(ips[0]) then 0 else 1 + FirstBad(ips[1..], parses)
  }

  lemma FreshParts(px: Proxy)
    requires Fresh(px)
    ensures Services in px.table && MarkMasq in px.table && HostMarkMasq in px.table
  {
  }

  lemma MappedZero(px: Proxy, service: string, clusterIP: string, valid: bool, ports: seq<ServicePort>, ms: seq<Member>)
    requires Services in px.table
    ensures MappedEach(px, service, clusterIP, valid, ports, ms, 0) == px
  {
  }

  lemma MappedNext(px: Proxy, service: string, clusterIP: string, valid: bool, ports: seq<ServicePort>, ms: seq<Member>, k: nat)
    requires Services in px.table && k < |ports|
    ensures MappedEach(px, service, clusterIP, valid, ports, ms, k + 1) ==
      Mapped(MappedEach(px, service, clusterIP, valid, ports, ms, k), service, clusterIP, valid, ports[k], ms)
  {
  }

  lemma SproutedFresh(px: Proxy, service: string, port: ServicePort)
    requires Fresh(px)
    ensures Fresh(Sprouted(px, service, port)) && px.meta.Pods(Opened(px, port).chain) == []
  {
  }

  lemma NotedFresh(px: Proxy, service: string, clusterIP: string, valid: bool, e: ServiceEntry)
    requires Fresh(px)
    ensures Fresh(Noted(px, service, clusterIP, valid, e))
  {
  }

  lemma FreshKept(px: Proxy, e: ServiceEntry, m: Member)
    requires Fresh(px) && e.chain in px.table && e.chain.ServiceChain?
    ensures Fresh(Attach(px, e, m)) && Fresh(Litter(px, e, m))
    ensures Chain.PodChain(|px.drawn|) !in px.table
  {
  }

  // ---- with a valid cluster address and parsing pod addresses this is Create ----

  /** The state with the records that CreateService writes at the end already in place. */
  function Recorded(px: Proxy, service: string, clusterIP: string, e: ServiceEntry): (r: Proxy)
    requires Services in px.table
    ensures e.chain in px.table ==> e.chain in r.table
  {
    Announce(Register(px, service, clusterIP, e), service, clusterIP)
  }

  lemma RecordedOpen(px: Proxy, service: string, clusterIP: string, port: ServicePort)
    requires Services in px.table && Refines(Announce(px, service, clusterIP))
    ensures Recorded(Sprouted(px, service, port), service, clusterIP, Opened(px, port)) ==
      OpenPort(Announce(px, service, clusterIP), service, port)
  {
    hide Refines;
  }

  /** Joining does not touch what CreateService records at the end. */
  lemma RecordedAttach(px: Proxy, service: string, clusterIP: string, e: ServiceEntry, m: Member)
    requires Services in px.table && e.chain in px.table && e.chain != Services
    ensures Recorded(Attach(px, e, m), service, clusterIP, e) == Attach(Recorded(px, service, clusterIP, e), e, m)
  {
    var a := Recorded(Attach(px, e, m), service, clusterIP, e);
    var b := Attach(Recorded(px, service, clusterIP, e), e, m);
    assert a.table == b.table;
  }

  lemma {:induction false} RecordedJoined(px: Proxy, service: string, clusterIP: string, e: ServiceEntry, ms: seq<Member>, k: nat)
    requires Services in px.table && e.chain in px.table && e.chain != Services && k <= |ms|
    ensures Recorded(JoinedBy(px, e, ms, k), service, clusterIP, e) == JoinedBy(Recorded(px, service, clusterIP, e), e, ms, k)
  {
    hide Recorded, Attach;
    if k > 0 {
      RecordedJoined(px, service, clusterIP, e, ms, k - 1);
      RecordedAttach(JoinedBy(px, e, ms, k - 1), service, clusterIP, e, ms[k - 1]);
    }
  }

  lemma {:induction false} JoinedIsAttached(px: Proxy, service: string, e: ServiceEntry, ms: seq<Member>, k: nat)
    requires Refines(px) && InService(px.meta, service, e) && e.chain in px.table && k <= |ms|
    ensures JoinedBy(px, e, ms, k) == AttachAll(px, service, e, ms, k)
  {
    hide Refines, Attach;
    if k > 0 {
      JoinedIsAttached(px, service, e, ms, k - 1);
      AttachRefines(AttachAll(px, service, e, ms, k - 1), service, e, ms[k - 1]);
    }
  }

  lemma MappedIs(px: Proxy, service: string, clusterIP: string, port: ServicePort, ms: seq<Member>)
    requires Services in px.table && Refines(Announce(px, service, clusterIP))
    ensures var before := Announce(px, service, clusterIP);
      Announce(Mapped(px, service, clusterIP, true, port, ms), service, clusterIP) ==
      AttachAll(OpenPort(before, service, port), service, Opened(before, port), ms, |ms|)
  {
    hide Refines, Attach, OpenPort, JoinedBy, AttachAll;
    var before, e, sprouted := Announce(px, service, clusterIP), Opened(px, port), Sprouted(px, service, port);
    RecordedOpen(px, service, clusterIP, port);
    RecordedJoined(sprouted, service, clusterIP, e, ms, |ms|);
    JoinedIsAttached(OpenPort(before, service, port), service, e, ms, |ms|);
  }

  lemma {:induction false} MappedEachIs(px: Proxy, service: string, clusterIP: string, ports: seq<ServicePort>, ms: seq<Member>, k: nat)
    requires Services in px.table && Refines(Announce(px, service, clusterIP)) && k <= |ports|
    ensures Announce(MappedEach(px, service, clusterIP, true, ports, ms, k), service, clusterIP) ==
      CreatePorts(Announce(px, service, clusterIP), service, ports, ms, k)
  {
    hide Refines, Mapped, OpenPort, AttachAll, Announce;
    if k > 0 {
      MappedEachIs(px, service, clusterIP, ports, ms, k - 1);
      MappedIs(MappedEach(px, service, clusterIP, true, ports, ms, k - 1), service, clusterIP, ports[k - 1], ms);
      AnnouncedHere(px, service, clusterIP);
    }
  }

  lemma AnnouncedHere(px: Proxy, service: string, clusterIP: string)
    ensures service in Announce(px, service, clusterIP).meta.clusterIPs
  {
  }

  /** The loops create what Create does, when the cluster address parses. */
  lemma MappedCreates(px: Proxy, service: string, clusterIP: string, ports: seq<ServicePort>, ms: seq<Member>)
    requires Refines(px) && service !in px.meta.clusterIPs
    ensures Services in px.table
    ensures Announce(MappedEach(px, service, clusterIP, true, ports, ms, |ports|), service, clusterIP) ==
      Create(px, service, clusterIP, ports, ms)
  {
    RefinesFresh(px);
    AnnounceRefines(px, service, clusterIP);
    MappedEachIs(px, service, clusterIP, ports, ms, |ports|);
  }

  /** A recorded service chain can take another pod. */
  lemma JoinReady(px: Proxy, service: string, e: ServiceEntry)
    requires Refines(px) && InService(px.meta, service, e)
    ensures e.chain.ServiceChain? && e.chain in px.table && Chain.PodChain(|px.drawn|) !in px.table
    ensures MarkMasq in px.table && HostMarkMasq in px.table
  {
  }

  lemma MetaKept(px: Proxy, e: ServiceEntry, m: Member)
    requires e.chain in px.table
    ensures Attach(px, e, m).meta.clusterIPs == px.meta.clusterIPs
    ensures Attach(px, e, m).meta.serviceChains == px.meta.serviceChains
    ensures Litter(px, e, m).meta == px.meta
  {
  }

  // ---- deleting a service ----

  /** The first k service chains are gone, with their entry rules and pod chains; of the next one the
      entry rule, the chain and the first j pod chains are gone. */
  function Dropping(px: Proxy, service: string, k: nat): Table
    requires Services in px.table && service in px.meta.clusterIPs && k <= |px.meta.Chains(service)|
  {
    var es := px.meta.Chains(service)[..k];
    (px.table - ServiceChainsOf(es) - PodChainsOf(px.meta, es))
      [Services := Without(px.table[Services], EntriesOf(px.meta, service, es))]
  }

  lemma DroppingEnds(px: Proxy, service: string)
    requires Services in px.table && service in px.meta.clusterIPs
    ensures Dropping(px, service, 0) == px.table
    ensures Dropping(px, service, |px.meta.Chains(service)|) == Drop(px, service).table
  {
    var es := px.meta.Chains(service);
    assert es[..0] == [] && es[..|es|] == es;
    assert ServiceChainsOf([]) == {} && PodChainsOf(px.meta, []) == {} && EntriesOf(px.meta, service, []) == {};
    WithoutNothing(px.table[Services], {});
    assert (px.table - {} - {})[Services := px.table[Services]] == px.table;
  }

  /** A table in which only deletions have happened: what is left is as it was, and entries are old ones. */
  ghost predicate Shrunk(px: Proxy, t: Table)
    requires Services in px.table
  {
    && Services in t
    && (forall r | r in t[Services] :: r in px.table[Services])
    && forall c | c in t && c != Services :: c in px.table && t[c] == px.table[c]
  }

  /** Once the entry rule is gone, nothing jumps to the service chain. */
  lemma ServiceChainUnreferenced(px: Proxy, service: string, e: ServiceEntry, t: Table)
    requires Refines(px) && InService(px.meta, service, e) && Services in px.table
    requires Shrunk(px, t) && service in px.meta.clusterIPs
    requires Entry(service, px.meta.clusterIPs[service], e) !in t[Services]
    ensures !Referenced(t[e.chain := []], e.chain)
  {
    forall c: Chain, i | c in t && 0 <= i < |t[c]| && c != e.chain ensures !t[c][i].JumpsTo(e.chain) {
      assert c == Services ==> EntryOnRecord(px, t[c][i]);
      assert c != Services ==> JumpSound(px, c, px.table[c][i]);
    }
  }

  /** Once a service chain is gone, nothing jumps to its pod chains. */
  lemma PodChainUnreferenced(px: Proxy, service: string, e: ServiceEntry, p: PodEntry, t: Table)
    requires Refines(px) && InService(px.meta, service, e) && Services in px.table
    requires Shrunk(px, t) && e.chain !in t && p in px.meta.Pods(e.chain)
    ensures !Referenced(t[p.chain := []], p.chain)
  {
    assert InChain(px.meta, e.chain, p);
    forall c: Chain, i | c in t && 0 <= i < |t[c]| && c != p.chain ensures !t[c][i].JumpsTo(p.chain) {
      assert c == Services ==> EntryOnRecord(px, t[c][i]);
      if c != Services {
        assert JumpSound(px, c, px.table[c][i]);
        if t[c][i].JumpsTo(p.chain) {
          JumperLists(px, c, px.table[c][i], p.chain);
          var q :| q in px.meta.Pods(c) && q.chain == p.chain;
          assert InChain(px.meta, c, q);
        }
      }
    }
  }

  lemma JumperLists(px: Proxy, c: Chain, r: Rule, target: Chain)
    requires Refines(px) && OnRecord(px, c) && c in px.table && r in px.table[c] && r.JumpsTo(target)
    ensures exists q :: q in px.meta.Pods(c) && q.chain == target
  {
    assert InService(px.meta, px.drawn[c.id].service, ServiceEntry(c, px.drawn[c.id].port));
    ServiceRuleTarget(px.meta.Pods(c), r);
  }

  /** The records of pod chains after k service chains are gone. */
  function DroppedRecords(px: Proxy, service: string, k: nat): map<Chain, seq<PodEntry>>
    requires k <= |px.meta.Chains(service)|
  {
    px.meta.podChains - ServiceChainsOf(px.meta.Chains(service)[..k])
  }

  lemma DroppedAll(px: Proxy, service: string)
    requires Services in px.table && service in px.meta.clusterIPs
    ensures var es := px.meta.Chains(service);
      && Dropping(px, service, |es|) == Drop(px, service).table
      && Drop(px, service) == px.(table := Dropping(px, service, |es|),
           meta := Meta(px.meta.clusterIPs - {service}, px.meta.serviceChains - {service}, DroppedRecords(px, service, |es|)))
  {
    DroppingEnds(px, service);
    var es := px.meta.Chains(service);
    assert es[..|es|] == es;
  }

  /** The k-th service chain is gone with its entry rule, and j of its pod chains. */
  function DroppingPods(px: Proxy, service: string, k: nat, j: nat): Table
    requires Services in px.table && service in px.meta.clusterIPs && k < |px.meta.Chains(service)|
    requires j <= |px.meta.Pods(px.meta.Chains(service)[k].chain)|
  {
    var e := px.meta.Chains(service)[k];
    var entry := Entry(service, px.meta.clusterIPs[service], e);
    var t := Dropping(px, service, k);
    t[Services := Without(t[Services], {entry})] - {e.chain} - ChainSet(px.meta.Pods(e.chain)[..j])
  }

  function ChainSet(pods: seq<PodEntry>): set<Chain> {
    set p | p in pods :: p.chain
  }

  lemma ChainNotBefore(px: Proxy, service: string, k: nat)
    requires Refines(px) && k < |px.meta.Chains(service)|
    ensures var e := px.meta.Chains(service)[k];
      && e.chain !in ServiceChainsOf(px.meta.Chains(service)[..k]) && e.chain.ServiceChain?
      && e !in px.meta.Chains(service)[..k]
      && InService(px.meta, service, e)
  {
    var es := px.meta.Chains(service);
    assert InService(px.meta, service, es[k]);
    forall e | e in es[..k] ensures e != es[k] && e.chain != es[k].chain {
      assert InService(px.meta, service, e);
    }
  }

  lemma PodsArePodChains(px: Proxy, service: string, es: seq<ServiceEntry>)
    requires Refines(px) && forall e | e in es :: InService(px.meta, service, e)
    ensures forall c | c in PodChainsOf(px.meta, es) :: c.PodChain?
    ensures forall c | c in ServiceChainsOf(es) :: c.ServiceChain?
  {
    forall c | c in PodChainsOf(px.meta, es) ensures c.PodChain? {
      var e, q :| e in es && q in px.meta.Pods(e.chain) && q.chain == c;
      assert InChain(px.meta, e.chain, q);
    }
  }

  lemma DroppingShrinks(px: Proxy, service: string, k: nat)
    requires Refines(px) && service in px.meta.clusterIPs && k <= |px.meta.Chains(service)|
    ensures Services in px.table && Shrunk(px, Dropping(px, service, k)) && NoDup(Dropping(px, service, k)[Services])
  {
    hide NoDup;
    EntriesNoDup(px);
    WithoutNoDup(px.table[Services], EntriesOf(px.meta, service, px.meta.Chains(service)[..k]));
  }

  lemma EntriesNoDup(px: Proxy)
    requires Refines(px)
    ensures Services in px.table && NoDup(px.table[Services])
  {
  }

  /** The next service chain can go. */
  lemma DroppingChain(px: Proxy, service: string, k: nat)
    requires Refines(px) && service in px.meta.clusterIPs && k < |px.meta.Chains(service)|
    ensures var e := px.meta.Chains(service)[k];
      var entry := Entry(service, px.meta.clusterIPs[service], e);
      && Services in px.table
      && (var t := Dropping(px, service, k);
          && Services in t && e.chain in t && e.chain != Services
          && RemoveFirst(t[Services], entry) == Without(t[Services], {entry})
          && !Referenced(t[Services := Without(t[Services], {entry})][e.chain := []], e.chain)
          && t[Services := Without(t[Services], {entry})] - {e.chain} == DroppingPods(px, service, k, 0))
  {
    hide Refines, Without, NoDup;
    var e := px.meta.Chains(service)[k];
    var entry := Entry(service, px.meta.clusterIPs[service], e);
    DroppingShrinks(px, service, k);
    ChainNotBefore(px, service, k);
    ChainKept(px, service, k);
    var t := Dropping(px, service, k);
    RemoveFirstIsWithout(t[Services], entry);
    var bare := t[Services := Without(t[Services], {entry})];
    assert Shrunk(px, bare);
    ServiceChainUnreferenced(px, service, e, bare);
    assert ChainSet(px.meta.Pods(e.chain)[..0]) == {};
    assert bare - {e.chain} - {} == bare - {e.chain};
  }

  lemma ChainKept(px: Proxy, service: string, k: nat)
    requires Refines(px) && service in px.meta.clusterIPs && k < |px.meta.Chains(service)|
    ensures Services in px.table && px.meta.Chains(service)[k].chain in Dropping(px, service, k)
  {
    var es := px.meta.Chains(service);
    ChainNotBefore(px, service, k);
    assert forall e | e in es[..k] :: e in es;
    PodsArePodChains(px, service, es[..k]);
  }

  /** The record of the next service chain is still there. */
  lemma RecordKept(px: Proxy, service: string, k: nat)
    requires Refines(px) && service in px.meta.clusterIPs && k < |px.meta.Chains(service)|
    ensures var e := px.meta.Chains(service)[k];
      && px.meta.(podChains := DroppedRecords(px, service, k)).Pods(e.chain) == px.meta.Pods(e.chain)
      && DroppedRecords(px, service, k + 1) == DroppedRecords(px, service, k) - {e.chain}
  {
    hide Refines;
    ChainNotBefore(px, service, k);
    var es := px.meta.Chains(service);
    assert es[..k + 1] == es[..k] + [es[k]];
    assert ServiceChainsOf(es[..k + 1]) == ServiceChainsOf(es[..k]) + {es[k].chain};
  }

  /** All pod chains of the service chain are gone: the next round may begin. */
  lemma DroppingRound(px: Proxy, service: string, k: nat)
    requires Refines(px) && service in px.meta.clusterIPs && k < |px.meta.Chains(service)|
    ensures Services in px.table
    ensures DroppingPods(px, service, k, |px.meta.Pods(px.meta.Chains(service)[k].chain)|) == Dropping(px, service, k + 1)
  {
    var es := px.meta.Chains(service);
    var e := es[k];
    var pods := px.meta.Pods(e.chain);
    var entry := Entry(service, px.meta.clusterIPs[service], e);
    ServicesThere(px);
    hide Refines, Without;
    assert es[..k + 1] == es[..k] + [e];
    assert pods[..|pods|] == pods;
    assert ServiceChainsOf(es[..k + 1]) == ServiceChainsOf(es[..k]) + {e.chain};
    assert PodChainsOf(px.meta, es[..k + 1]) == PodChainsOf(px.meta, es[..k]) + ChainSet(pods);
    assert EntriesOf(px.meta, service, es[..k + 1]) == EntriesOf(px.meta, service, es[..k]) + {entry};
    WithoutTwice(px.table[Services], EntriesOf(px.meta, service, es[..k]), {entry});
    ChainNotBefore(px, service, k);
    PodsArePodChains(px, service, es[..k + 1]);
    DroppingTables(px.table, ServiceChainsOf(es[..k]), PodChainsOf(px.meta, es[..k]), e.chain, ChainSet(pods),
                   Without(px.table[Services], EntriesOf(px.meta, service, es[..k])),
                   Without(px.table[Services], EntriesOf(px.meta, service, es[..k + 1])));
  }

  lemma ServicesThere(px: Proxy)
    requires Refines(px)
    ensures Services in px.table
  {
  }

  lemma DroppingTables(t: Table, a: set<Chain>, b: set<Chain>, c: Chain, d: set<Chain>, x: seq<Rule>, y: seq<Rule>)
    requires Services !in a + b + d && Services != c
    ensures (t - a - b)[Services := x][Services := y] - {c} - d == (t - (a + {c}) - (b + d))[Services := y]
  {
  }

  /** The next pod chain can go. */
  lemma DroppingPod(px: Proxy, service: string, k: nat, j: nat)
    requires Refines(px) && service in px.meta.clusterIPs && k < |px.meta.Chains(service)|
    requires j < |px.meta.Pods(px.meta.Chains(service)[k].chain)|
    ensures Services in px.table
    ensures var p := px.meta.Pods(px.meta.Chains(service)[k].chain)[j];
      var t := DroppingPods(px, service, k, j);
      && (p.chain in t ==> !Referenced(t[p.chain := []], p.chain))
      && DroppingPods(px, service, k, j + 1) == t - {p.chain}
  {
    hide Refines, Without, NoDup;
    var es := px.meta.Chains(service);
    var e := es[k];
    var pods := px.meta.Pods(e.chain);
    var p := pods[j];
    DroppingShrinks(px, service, k);
    ChainNotBefore(px, service, k);
    var t := DroppingPods(px, service, k, j);
    assert pods[..j + 1] == pods[..j] + [p];
    assert ChainSet(pods[..j + 1]) == ChainSet(pods[..j]) + {p.chain};
    assert DroppingPods(px, service, k, j + 1) == t - {p.chain};
    PodSetSpares(px, e, pods[..j]);
    assert Shrunk(px, t);
    PodChainUnreferenced(px, service, e, p, t);
  }

  lemma PodSetSpares(px: Proxy, e: ServiceEntry, pods: seq<PodEntry>)
    requires Refines(px) && forall p | p in pods :: p in px.meta.Pods(e.chain)
    ensures Services !in ChainSet(pods)
  {
    assert forall p | p in pods :: InChain(px.meta, e.chain, p);
  }
}
