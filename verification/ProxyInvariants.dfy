/**
 Every step of the proxy keeps the nat table a refinement of its record.
 */
module ProxyInvariants {
  import opened Sequences
  import opened Iptables
  import opened ServiceMeta
  import opened ProxyState

  // ---- the record of a cluster address ----

  lemma AnnounceRefines(px: Proxy, service: string, clusterIP: string)
    requires Refines(px) && service !in px.meta.clusterIPs
    ensures Refines(Announce(px, service, clusterIP))
  {
    hide ServiceRules, Fills;
    var r := Announce(px, service, clusterIP);
    FillsAnnounced(px, service, clusterIP);
    assert forall s, e :: InService(r.meta, s, e) == InService(px.meta, s, e);
    assert forall c, p :: InChain(r.meta, c, p) == InChain(px.meta, c, p);
    assert forall c :: OnRecord(r, c) == OnRecord(px, c);
    forall rule | rule in r.table[Services] ensures EntryOnRecord(r, rule) {
      assert EntryOnRecord(px, rule);
    }
    assert forall c, rule | c in r.table && rule in r.table[c] :: JumpSound(px, c, rule) ==> JumpSound(r, c, rule);
  }

  lemma FillsAnnounced(px: Proxy, service: string, clusterIP: string)
    ensures forall p, port :: Fills(Announce(px, service, clusterIP), p, port) == Fills(px, p, port)
  {
  }

  // ---- a new service chain ----

  lemma OpenKeeps(px: Proxy, service: string, clusterIP: string, port: ServicePort)
    requires Services in px.table
    ensures var r := Open(px, service, clusterIP, port);
      var made := ServiceEntry(Chain.ServiceChain(|px.drawn|), port);
      && (forall s, e :: InService(r.meta, s, e) == (InService(px.meta, s, e) || (s == service && e == made)))
      && (forall c, p :: InChain(r.meta, c, p) == InChain(px.meta, c, p))
      && (forall c | OnRecord(px, c) :: OnRecord(r, c))
      && OnRecord(r, made.chain)
  {
  }

  lemma OpenSeparate(px: Proxy, service: string, port: ServicePort)
    requires Separate(px) && Services in px.table && service in px.meta.clusterIPs
    ensures Separate(Open(px, service, px.meta.clusterIPs[service], port))
  {
    var r := Open(px, service, px.meta.clusterIPs[service], port);
    OpenKeeps(px, service, px.meta.clusterIPs[service], port);
    assert forall e | e in px.meta.Chains(service) :: InService(px.meta, service, e);
    assert NoDup(r.meta.serviceChains[service]);
  }

  lemma OpenRefines(px: Proxy, service: string, port: ServicePort)
    requires Refines(px) && service in px.meta.clusterIPs
    ensures Refines(Open(px, service, px.meta.clusterIPs[service], port))
  {
    OpenSeparate(px, service, port);
    OpenTables(px, service, port);
    OpenEntries(px, service, port);
    OpenJumps(px, service, port);
  }

  lemma OpenTables(px: Proxy, service: string, port: ServicePort)
    requires Separate(px) && Undrawn(px) && ServicesRefine(px) && PodsRefine(px)
    requires Services in px.table && service in px.meta.clusterIPs
    ensures var r := Open(px, service, px.meta.clusterIPs[service], port);
      Undrawn(r) && ServicesRefine(r) && PodsRefine(r)
  {
    var r := Open(px, service, px.meta.clusterIPs[service], port);
    OpenKeeps(px, service, px.meta.clusterIPs[service], port);
    var c := Chain.ServiceChain(|px.drawn|);
    assert r.meta.Pods(c) == [] by {
      assert c in px.meta.podChains ==> OnRecord(px, c);
    }
    forall s, e | InService(r.meta, s, e)
      ensures e.chain in r.table && r.table[e.chain] == ServiceRules(r.meta.Pods(e.chain))
    {
      if InService(px.meta, s, e) {
        assert e.chain in px.table && px.table[e.chain] == ServiceRules(px.meta.Pods(e.chain));
      }
    }
    forall d, p | InChain(r.meta, d, p) ensures OnRecord(r, d) && Fills(r, p, r.drawn[d.id].port.targetPort) {
      assert OnRecord(px, d) && Fills(px, p, px.drawn[d.id].port.targetPort);
    }
  }

  lemma OpenEntries(px: Proxy, service: string, port: ServicePort)
    requires Separate(px) && EntriesRefine(px) && service in px.meta.clusterIPs
    ensures EntriesRefine(Open(px, service, px.meta.clusterIPs[service], port))
  {
    var r := Open(px, service, px.meta.clusterIPs[service], port);
    OpenKeeps(px, service, px.meta.clusterIPs[service], port);
    var made := Entry(service, px.meta.clusterIPs[service], ServiceEntry(Chain.ServiceChain(|px.drawn|), port));
    forall rule | rule in px.table[Services] ensures EntryOnRecord(r, rule) && rule != made {
      assert EntryOnRecord(px, rule);
    }
    NoDupAdd(px.table[Services], made);
    assert r.table[Services] == [made] + px.table[Services];
    assert EntryOnRecord(r, made);
  }

  lemma OpenJumps(px: Proxy, service: string, port: ServicePort)
    requires Refines(px) && service in px.meta.clusterIPs
    ensures JumpsSound(Open(px, service, px.meta.clusterIPs[service], port))
  {
    var r := Open(px, service, px.meta.clusterIPs[service], port);
    OpenKeeps(px, service, px.meta.clusterIPs[service], port);
    forall c, rule | c in r.table && rule in r.table[c] ensures JumpSound(r, c, rule) {
      if c in px.table && rule in px.table[c] {
        assert JumpSound(px, c, rule);
      }
    }
  }

  // ---- a pod joins ----

  lemma AttachKeeps(px: Proxy, e: ServiceEntry, m: Member)
    requires e.chain in px.table
    ensures var r := Attach(px, e, m);
      var made := PodEntry(Chain.PodChain(|px.drawn|), m.pod, m.ip);
      && (forall s, x :: InService(r.meta, s, x) == InService(px.meta, s, x))
      && (forall c, p :: InChain(r.meta, c, p) == (InChain(px.meta, c, p) || (c == e.chain && p == made)))
      && (forall c | OnRecord(px, c) :: OnRecord(r, c))
  {
  }

  lemma AttachRefines(px: Proxy, service: string, e: ServiceEntry, m: Member)
    requires Refines(px) && InService(px.meta, service, e)
    ensures e.chain in px.table && Refines(Attach(px, e, m))
  {
    AttachSeparate(px, service, e, m);
    AttachServices(px, service, e, m);
    AttachPods(px, service, e, m);
    AttachEntries(px, service, e, m);
    AttachJumps(px, service, e, m);
  }

  lemma AttachSeparate(px: Proxy, service: string, e: ServiceEntry, m: Member)
    requires Separate(px) && Undrawn(px) && InService(px.meta, service, e) && e.chain in px.table
    ensures Separate(Attach(px, e, m)) && Undrawn(Attach(px, e, m))
  {
    var r := Attach(px, e, m);
    var made := PodEntry(Chain.PodChain(|px.drawn|), m.pod, m.ip);
    AttachKeeps(px, e, m);
    assert OnRecord(px, e.chain);
    assert made !in px.meta.Pods(e.chain) by {
      assert made in px.meta.Pods(e.chain) ==> InChain(px.meta, e.chain, made);
    }
    NoDupAdd(px.meta.Pods(e.chain), made);
    forall c, p | InChain(r.meta, c, p)
      ensures p.chain.PodChain? && p.chain.id < |r.drawn| && DrawnFor(r.drawn[p.chain.id], c, p)
    {
      if !InChain(px.meta, c, p) {
        assert c == e.chain && p == made;
      }
    }
  }

  lemma AttachServices(px: Proxy, service: string, e: ServiceEntry, m: Member)
    requires Separate(px) && ServicesRefine(px) && InService(px.meta, service, e) && e.chain in px.table
    ensures ServicesRefine(Attach(px, e, m))
  {
    var r := Attach(px, e, m);
    var pods := px.meta.Pods(e.chain);
    var made := PodEntry(Chain.PodChain(|px.drawn|), m.pod, m.ip);
    assert (pods + [made])[..|pods|] == pods;
    forall s, x | InService(r.meta, s, x)
      ensures x.chain in r.table && r.table[x.chain] == ServiceRules(r.meta.Pods(x.chain))
    {
      assert InService(px.meta, s, x);
    }
  }

  lemma AttachPods(px: Proxy, service: string, e: ServiceEntry, m: Member)
    requires Separate(px) && PodsRefine(px) && InService(px.meta, service, e) && e.chain in px.table
    ensures PodsRefine(Attach(px, e, m))
  {
    hide Attach, Fills, PodRules;
    var r := Attach(px, e, m);
    AttachKeeps(px, e, m);
    assert OnRecord(px, e.chain);
    forall c, p | InChain(r.meta, c, p) ensures OnRecord(r, c) && Fills(r, p, r.drawn[c.id].port.targetPort) {
      if InChain(px.meta, c, p) {
        assert OnRecord(px, c);
        AttachFills(px, e, m, c, p);
      } else {
        AttachFillsNew(px, e, m);
      }
    }
  }

  /** A pod chain that was there is not touched. */
  lemma AttachFills(px: Proxy, e: ServiceEntry, m: Member, c: Chain, p: PodEntry)
    requires e.chain in px.table && e.chain.ServiceChain? && OnRecord(px, c)
    requires p.chain.PodChain? && p.chain.id < |px.drawn| && Fills(px, p, px.drawn[c.id].port.targetPort)
    ensures var r := Attach(px, e, m);
      c.id < |r.drawn| && r.drawn[c.id] == px.drawn[c.id] && Fills(r, p, px.drawn[c.id].port.targetPort)
  {
    hide PodRules;
  }

  lemma AttachFillsNew(px: Proxy, e: ServiceEntry, m: Member)
    requires e.chain in px.table && e.chain.ServiceChain? && e.chain.id < |px.drawn| && px.drawn[e.chain.id].ForService?
    requires px.drawn[e.chain.id].port == e.port
    ensures var r := Attach(px, e, m);
      && e.chain.id < |r.drawn| && r.drawn[e.chain.id] == px.drawn[e.chain.id]
      && Fills(r, PodEntry(Chain.PodChain(|px.drawn|), m.pod, m.ip), e.port.targetPort)
  {
    hide PodRules;
  }

  lemma AttachEntries(px: Proxy, service: string, e: ServiceEntry, m: Member)
    requires Refines(px) && InService(px.meta, service, e)
    ensures e.chain in px.table && EntriesRefine(Attach(px, e, m))
  {
    var r := Attach(px, e, m);
    AttachKeeps(px, e, m);
    forall rule | rule in r.table[Services] ensures EntryOnRecord(r, rule) {
      assert EntryOnRecord(px, rule);
    }
  }

  lemma AttachJumps(px: Proxy, service: string, e: ServiceEntry, m: Member)
    requires Refines(px) && InService(px.meta, service, e)
    ensures e.chain in px.table && JumpsSound(Attach(px, e, m))
  {
    assert e.chain in px.table;
    hide ServicesRefine, PodsRefine, EntriesRefine, Undrawn, PodRules;
    var r := Attach(px, e, m);
    AttachKeeps(px, e, m);
    assert OnRecord(px, e.chain);
    PodRulesTargets(m.ip, e.port.targetPort, px.host, m.sameHost);
    forall c, rule | c in r.table && rule in r.table[c] ensures JumpSound(r, c, rule) {
      if c in px.table && rule in px.table[c] {
        assert JumpSound(px, c, rule);
      }
    }
  }

  lemma PodRulesTargets(ip: string, targetPort: int, host: string, sameHost: bool)
    ensures forall rule | rule in PodRules(ip, targetPort, host, sameHost) :: rule.HasTarget() ==>
      rule.target == MarkMasq || rule.target == HostMarkMasq
  {
  }

  /** Different records of one service chain name different pod chains. */
  lemma PodChainsDiffer(px: Proxy, s: string, e: ServiceEntry)
    requires Refines(px) && InService(px.meta, s, e)
    ensures forall i, j | 0 <= i < j < |px.meta.Pods(e.chain)| ::
      px.meta.Pods(e.chain)[i].chain != px.meta.Pods(e.chain)[j].chain
  {
    var pods := px.meta.Pods(e.chain);
    forall i, j | 0 <= i < j < |pods| ensures pods[i].chain != pods[j].chain {
      assert InChain(px.meta, e.chain, pods[i]) && InChain(px.meta, e.chain, pods[j]);
      assert pods[i] != pods[j];
    }
  }

  // ---- a pod leaves ----

  /** How often the pod is recorded. */
  function Occurrences(pods: seq<PodEntry>, pod: string): (n: nat)
    ensures n == 0 <==> forall p | p in pods :: p.pod != pod
  {
    if pods == [] then 0 else (if pods[0].pod == pod then 1 else 0) + Occurrences(pods[1..], pod)
  }

  lemma {:induction false} OthersFromFront(pods: seq<PodEntry>, pod: string)
    requires pods != []
    ensures Others(pods, pod) == (if pods[0].pod == pod then [] else [pods[0]]) + Others(pods[1..], pod)
  {
    hide Others;
    assert [pods[0]] + pods[1..] == pods == [] + [pods[0]] + pods[1..];
    OthersAppend([pods[0]], pods[1..], pod);
    OthersLast([], pods[0], pod);
    OthersNone(pod);
  }

  lemma OthersNone(pod: string)
    ensures Others([], pod) == []
  {
  }

  lemma OthersLast(xs: seq<PodEntry>, x: PodEntry, pod: string)
    ensures Others(xs + [x], pod) == Others(xs, pod) + if x.pod == pod then [] else [x]
  {
    assert (xs + [x])[..|xs|] == xs;
  }

  lemma {:induction false} OthersAppend(a: seq<PodEntry>, b: seq<PodEntry>, pod: string)
    ensures Others(a + b, pod) == Others(a, pod) + Others(b, pod)
    decreases |b|
  {
    hide Others;
    if b == [] {
      assert a + b == a;
      OthersNone(pod);
    } else {
      var m := |b| - 1;
      OthersAppend(a, b[..m], pod);
      SplitLast(a, b);
      OthersLast(a + b[..m], b[m], pod);
      OthersLast(b[..m], b[m], pod);
    }
  }

  lemma {:induction false} OthersAbsent(pods: seq<PodEntry>, pod: string)
    requires Occurrences(pods, pod) == 0
    ensures Others(pods, pod) == pods
  {
    if pods != [] {
      assert pods[0] in pods;
      OthersFromFront(pods, pod);
      OthersAbsent(pods[1..], pod);
    }
  }

  lemma {:induction false} OthersLength(pods: seq<PodEntry>, pod: string)
    ensures |Others(pods, pod)| == |pods| - Occurrences(pods, pod)
    ensures |RemovePod(pods, pod)| == |pods| - if Occurrences(pods, pod) == 0 then 0 else 1
  {
    if pods != [] {
      OthersFromFront(pods, pod);
      OthersLength(pods[1..], pod);
    }
  }

  /** Renumbering every other pod and cutting one record agree exactly when the pod is recorded at most once. */
  lemma {:induction false} OthersIsRemoveIff(pods: seq<PodEntry>, pod: string)
    ensures Others(pods, pod) == RemovePod(pods, pod) <==> Occurrences(pods, pod) <= 1
  {
    OthersLength(pods, pod);
    if Occurrences(pods, pod) <= 1 && pods != [] {
      OthersFromFront(pods, pod);
      if pods[0].pod == pod {
        OthersAbsent(pods[1..], pod);
      } else {
        OthersIsRemoveIff(pods[1..], pod);
      }
    }
  }

  lemma {:induction false} DistinctOccurOnce(pods: seq<PodEntry>, pod: string)
    requires DistinctNames(pods)
    ensures Occurrences(pods, pod) <= 1
  {
    if pods != [] {
      assert DistinctNames(pods[1..]);
      DistinctOccurOnce(pods[1..], pod);
      assert forall p | p in pods[1..] :: p.pod != pods[0].pod;
    }
  }

  lemma {:induction false} OthersNoDup(pods: seq<PodEntry>, pod: string)
    requires NoDup(pods)
    ensures NoDup(Others(pods, pod))
  {
    if pods != [] {
      var n := |pods|;
      OthersNoDup(pods[..n - 1], pod);
      if pods[n - 1].pod != pod {
        NoDupAdd(Others(pods[..n - 1], pod), pods[n - 1]);
      }
    }
  }

  /** A rule of a service chain jumps to the chain of a recorded pod. */
  lemma {:induction false} ServiceRuleTarget(pods: seq<PodEntry>, r: Rule)
    requires r in ServiceRules(pods)
    ensures r.ToPod? && exists p :: p in pods && p.chain == r.target
  {
    var n := |pods|;
    if r == ToPod(pods[n - 1].pod, n, pods[n - 1].chain) {
      assert pods[n - 1] in pods;
    } else {
      ServiceRuleTarget(pods[..n - 1], r);
      var p :| p in pods[..n - 1] && p.chain == r.target;
      assert p in pods;
    }
  }

  lemma DetachKeeps(px: Proxy, e: ServiceEntry, pod: string)
    requires Occurrences(px.meta.Pods(e.chain), pod) <= 1
    ensures var r := Detach(px, e, pod);
      && (forall s, x :: InService(r.meta, s, x) == InService(px.meta, s, x))
      && (forall c, p :: InChain(r.meta, c, p) == (InChain(px.meta, c, p) && !(c == e.chain && p.pod == pod)))
      && (forall c :: OnRecord(px, c) == OnRecord(r, c))
      && r.meta.Pods(e.chain) == Others(px.meta.Pods(e.chain), pod)
  {
    OthersIsRemoveIff(px.meta.Pods(e.chain), pod);
  }

  lemma DetachRefines(px: Proxy, service: string, e: ServiceEntry, pod: string)
    requires Refines(px) && InService(px.meta, service, e)
    requires Occurrences(px.meta.Pods(e.chain), pod) <= 1
    ensures Refines(Detach(px, e, pod))
  {
    DetachSeparate(px, service, e, pod);
    DetachServices(px, service, e, pod);
    DetachPods(px, service, e, pod);
    DetachEntries(px, service, e, pod);
    DetachJumps(px, service, e, pod);
  }

  lemma DetachSeparate(px: Proxy, service: string, e: ServiceEntry, pod: string)
    requires Separate(px) && Undrawn(px) && InService(px.meta, service, e)
    requires Occurrences(px.meta.Pods(e.chain), pod) <= 1
    ensures Separate(Detach(px, e, pod)) && Undrawn(Detach(px, e, pod))
  {
    var r := Detach(px, e, pod);
    DetachKeeps(px, e, pod);
    assert OnRecord(px, e.chain);
    OthersNoDup(px.meta.Pods(e.chain), pod);
  }

  lemma DetachServices(px: Proxy, service: string, e: ServiceEntry, pod: string)
    requires Separate(px) && ServicesRefine(px) && InService(px.meta, service, e)
    requires Occurrences(px.meta.Pods(e.chain), pod) <= 1
    ensures ServicesRefine(Detach(px, e, pod))
  {
    var r := Detach(px, e, pod);
    DetachKeeps(px, e, pod);
    forall s, x | InService(r.meta, s, x)
      ensures x.chain in r.table && r.table[x.chain] == ServiceRules(r.meta.Pods(x.chain))
    {
      assert InService(px.meta, s, x);
      if x.chain in ChainsOf(px.meta.Pods(e.chain), pod) {
        var p :| p in px.meta.Pods(e.chain) && p.chain == x.chain;
        assert InChain(px.meta, e.chain, p);
      }
    }
  }

  /** A recorded chain that stays is not one of the deleted ones. */
  lemma DetachSpares(px: Proxy, e: ServiceEntry, pod: string, c: Chain, p: PodEntry)
    requires Separate(px) && InChain(px.meta, c, p) && !(c == e.chain && p.pod == pod)
    ensures p.chain !in ChainsOf(px.meta.Pods(e.chain), pod)
  {
    if p.chain in ChainsOf(px.meta.Pods(e.chain), pod) {
      var q :| q in px.meta.Pods(e.chain) && q.pod == pod && q.chain == p.chain;
      assert InChain(px.meta, e.chain, q);
    }
  }

  lemma DetachPods(px: Proxy, service: string, e: ServiceEntry, pod: string)
    requires Separate(px) && PodsRefine(px) && InService(px.meta, service, e)
    requires Occurrences(px.meta.Pods(e.chain), pod) <= 1
    ensures PodsRefine(Detach(px, e, pod))
  {
    var r := Detach(px, e, pod);
    DetachKeeps(px, e, pod);
    assert OnRecord(px, e.chain);
    forall c, p | InChain(r.meta, c, p) ensures OnRecord(r, c) && Fills(r, p, r.drawn[c.id].port.targetPort) {
      assert OnRecord(px, c) && Fills(px, p, px.drawn[c.id].port.targetPort);
      DetachSpares(px, e, pod, c, p);
      assert p.chain.PodChain?;
    }
  }

  lemma DetachEntries(px: Proxy, service: string, e: ServiceEntry, pod: string)
    requires Separate(px) && EntriesRefine(px) && InService(px.meta, service, e)
    requires Occurrences(px.meta.Pods(e.chain), pod) <= 1
    ensures EntriesRefine(Detach(px, e, pod))
  {
    var r := Detach(px, e, pod);
    DetachKeeps(px, e, pod);
    assert OnRecord(px, e.chain);
    assert Services !in ChainsOf(px.meta.Pods(e.chain), pod) by {
      if Services in ChainsOf(px.meta.Pods(e.chain), pod) {
        var q :| q in px.meta.Pods(e.chain) && q.chain == Services;
        assert InChain(px.meta, e.chain, q);
      }
    }
    forall rule | rule in r.table[Services] ensures EntryOnRecord(r, rule) {
      assert EntryOnRecord(px, rule);
    }
  }

  lemma DeletedArePodChains(px: Proxy, e: ServiceEntry, pod: string)
    requires Separate(px)
    ensures forall c | c in ChainsOf(px.meta.Pods(e.chain), pod) :: c.PodChain?
  {
    forall c | c in ChainsOf(px.meta.Pods(e.chain), pod) ensures c.PodChain? {
      var q :| q in px.meta.Pods(e.chain) && q.chain == c;
      assert InChain(px.meta, e.chain, q);
    }
  }

  lemma DetachJumps(px: Proxy, service: string, e: ServiceEntry, pod: string)
    requires Separate(px) && ServicesRefine(px) && PodsRefine(px) && JumpsSound(px) && InService(px.meta, service, e)
    requires Occurrences(px.meta.Pods(e.chain), pod) <= 1
    ensures JumpsSound(Detach(px, e, pod))
  {
    var r := Detach(px, e, pod);
    DetachKeeps(px, e, pod);
    DeletedArePodChains(px, e, pod);
    assert OnRecord(px, e.chain);
    forall c, rule | c in r.table && rule in r.table[c] ensures JumpSound(r, c, rule) {
      if c == e.chain {
        ServiceRuleTarget(Others(px.meta.Pods(e.chain), pod), rule);
        var p :| p in Others(px.meta.Pods(e.chain), pod) && p.chain == rule.target;
        assert InChain(px.meta, e.chain, p);
        assert Fills(px, p, px.drawn[e.chain.id].port.targetPort);
        DetachSpares(px, e, pod, e.chain, p);
      } else {
        assert JumpSound(px, c, rule);
        if rule.HasTarget() && rule.target.PodChain? {
          RuleOfOther(px, e, pod, c, rule);
        }
      }
    }
  }

  /** Rules of other service chains do not jump to a deleted chain. */
  lemma RuleOfOther(px: Proxy, e: ServiceEntry, pod: string, c: Chain, rule: Rule)
    requires Separate(px) && ServicesRefine(px) && c != e.chain && OnRecord(px, c)
    requires c in px.table && rule in px.table[c] && rule.HasTarget()
    ensures rule.target !in ChainsOf(px.meta.Pods(e.chain), pod)
  {
    assert InService(px.meta, px.drawn[c.id].service, ServiceEntry(c, px.drawn[c.id].port));
    ServiceRuleTarget(px.meta.Pods(c), rule);
    var p :| p in px.meta.Pods(c) && p.chain == rule.target;
    assert InChain(px.meta, c, p);
    DetachSpares(px, e, pod, c, p);
  }

  // ---- a service disappears ----

  lemma DropRefines(px: Proxy, service: string)
    requires Refines(px) && service in px.meta.clusterIPs
    ensures Refines(Drop(px, service))
  {
    DropSeparate(px, service);
    DropServices(px, service);
    DropPods(px, service);
    DropEntries(px, service);
    DropJumps(px, service);
  }

  lemma DropKeeps(px: Proxy, service: string)
    requires Separate(px) && Services in px.table && service in px.meta.clusterIPs
    ensures var r := Drop(px, service);
      && (forall s, x :: InService(r.meta, s, x) == (InService(px.meta, s, x) && s != service))
      && (forall c, p | InChain(r.meta, c, p) :: InChain(px.meta, c, p))
      && (forall c | OnRecord(px, c) && px.drawn[c.id].service != service :: OnRecord(r, c) && r.meta.Pods(c) == px.meta.Pods(c))
      && (forall c | c in r.meta.podChains :: OnRecord(r, c))
      && (forall c | OnRecord(r, c) :: OnRecord(px, c) && px.drawn[c.id].service != service)
  {
    var r := Drop(px, service);
    var es := px.meta.Chains(service);
    forall c | OnRecord(px, c)
      ensures c in ServiceChainsOf(es) <==> px.drawn[c.id].service == service
    {
      if c in ServiceChainsOf(es) {
        var e :| e in es && e.chain == c;
        assert InService(px.meta, service, e);
      }
      if px.drawn[c.id].service == service {
        var e := ServiceEntry(c, px.drawn[c.id].port);
        assert e in es && e.chain in ServiceChainsOf(es);
      }
    }
  }

  lemma DropSeparate(px: Proxy, service: string)
    requires Separate(px) && Undrawn(px) && Services in px.table && service in px.meta.clusterIPs
    ensures Separate(Drop(px, service)) && Undrawn(Drop(px, service))
  {
    DropKeeps(px, service);
  }

  /** What belongs to another service is not deleted. */
  lemma DropSpares(px: Proxy, service: string, c: Chain)
    requires Separate(px) && OnRecord(px, c) && px.drawn[c.id].service != service
    ensures c !in ServiceChainsOf(px.meta.Chains(service)) && c !in PodChainsOf(px.meta, px.meta.Chains(service))
    ensures forall p | InChain(px.meta, c, p) ::
      p.chain !in ServiceChainsOf(px.meta.Chains(service)) && p.chain !in PodChainsOf(px.meta, px.meta.Chains(service))
  {
    DropOnlyOwn(px, service);
    forall p | InChain(px.meta, c, p) && p.chain in PodChainsOf(px.meta, px.meta.Chains(service)) ensures false {
      var e, q :| e in px.meta.Chains(service) && q in px.meta.Pods(e.chain) && q.chain == p.chain;
      assert InService(px.meta, service, e) && InChain(px.meta, e.chain, q);
    }
  }

  lemma DropOnlyOwn(px: Proxy, service: string)
    requires Separate(px)
    ensures forall c | c in ServiceChainsOf(px.meta.Chains(service)) ::
      c.ServiceChain? && OnRecord(px, c) && px.drawn[c.id].service == service
    ensures forall c | c in PodChainsOf(px.meta, px.meta.Chains(service)) :: c.PodChain?
  {
    forall c | c in ServiceChainsOf(px.meta.Chains(service))
      ensures c.ServiceChain? && OnRecord(px, c) && px.drawn[c.id].service == service
    {
      var e :| e in px.meta.Chains(service) && e.chain == c;
      assert InService(px.meta, service, e);
    }
    forall c | c in PodChainsOf(px.meta, px.meta.Chains(service)) ensures c.PodChain? {
      var e, q :| e in px.meta.Chains(service) && q in px.meta.Pods(e.chain) && q.chain == c;
      assert InChain(px.meta, e.chain, q);
    }
  }

  lemma DropServices(px: Proxy, service: string)
    requires Separate(px) && ServicesRefine(px) && Services in px.table && service in px.meta.clusterIPs
    ensures ServicesRefine(Drop(px, service))
  {
    var r := Drop(px, service);
    DropKeeps(px, service);
    forall s, e | InService(r.meta, s, e)
      ensures e.chain in r.table && r.table[e.chain] == ServiceRules(r.meta.Pods(e.chain))
    {
      assert InService(px.meta, s, e) && OnRecord(px, e.chain);
      DropSpares(px, service, e.chain);
    }
  }

  lemma DropPods(px: Proxy, service: string)
    requires Separate(px) && PodsRefine(px) && Services in px.table && service in px.meta.clusterIPs
    ensures PodsRefine(Drop(px, service))
  {
    var r := Drop(px, service);
    DropKeeps(px, service);
    forall c, p | InChain(r.meta, c, p) ensures OnRecord(r, c) && Fills(r, p, r.drawn[c.id].port.targetPort) {
      assert InChain(px.meta, c, p);
      assert OnRecord(r, c) && Fills(px, p, px.drawn[c.id].port.targetPort);
      DropSpares(px, service, c);
      assert p.chain != Services;
    }
  }

  lemma DropEntries(px: Proxy, service: string)
    requires Separate(px) && EntriesRefine(px) && service in px.meta.clusterIPs
    ensures EntriesRefine(Drop(px, service))
  {
    var r := Drop(px, service);
    DropKeeps(px, service);
    var gone := EntriesOf(px.meta, service, px.meta.Chains(service));
    WithoutNoDup(px.table[Services], gone);
    forall rule | rule in px.table[Services] && rule.ToService? && rule.service == service ensures rule in gone {
      assert EntryOnRecord(px, rule);
      assert ServiceEntry(rule.target, px.drawn[rule.target.id].port) in px.meta.Chains(service);
    }
    forall rule | rule in r.table[Services] ensures EntryOnRecord(r, rule) {
      assert EntryOnRecord(px, rule);
    }
    forall s, e | InService(r.meta, s, e)
      ensures s in r.meta.clusterIPs && Entry(s, r.meta.clusterIPs[s], e) in r.table[Services]
    {
      assert InService(px.meta, s, e);
    }
  }

  lemma DropJumps(px: Proxy, service: string)
    requires Separate(px) && ServicesRefine(px) && EntriesRefine(px) && JumpsSound(px) && service in px.meta.clusterIPs
    ensures JumpsSound(Drop(px, service))
  {
    var r := Drop(px, service);
    DropKeeps(px, service);
    DropOnlyOwn(px, service);
    DropEntries(px, service);
    forall c, rule | c in r.table && rule in r.table[c] ensures JumpSound(r, c, rule) {
      if c == Services {
        assert EntryOnRecord(r, rule) && JumpSound(px, c, rule);
        DropSpares(px, service, rule.target);
      } else {
        assert JumpSound(px, c, rule);
        if rule.HasTarget() && rule.target.PodChain? {
          DropJump(px, service, c, rule);
        }
      }
    }
  }

  lemma DropJump(px: Proxy, service: string, c: Chain, rule: Rule)
    requires Separate(px) && ServicesRefine(px) && OnRecord(px, c) && c !in ServiceChainsOf(px.meta.Chains(service))
    requires c in px.table && rule in px.table[c] && rule.HasTarget()
    ensures rule.target !in PodChainsOf(px.meta, px.meta.Chains(service))
    ensures px.drawn[c.id].service != service
  {
    var e := ServiceEntry(c, px.drawn[c.id].port);
    assert InService(px.meta, px.drawn[c.id].service, e);
    ServiceRuleTarget(px.meta.Pods(c), rule);
    var p :| p in px.meta.Pods(c) && p.chain == rule.target;
    assert InChain(px.meta, c, p);
    DropSpares(px, service, c);
  }
}
