/**
 A pod leaves service chains that may list it more than once. Only one record goes with all the rules, so a record
 may outlive its chain; what the kernel needs to accept every later call still holds.
 */
module ProxyEviction {
  import opened Sequences
  import opened Iptables
  import opened ServiceMeta
  import opened ProxyState
  import opened ProxyInvariants
  import opened ProxyOps

  /** The rules of the recorded pods whose chains exist; the numbers count the others too. */
  function LiveRules(t: Table, pods: seq<PodEntry>): (rules: seq<Rule>)
    ensures |rules| <= |pods|
  {
    if pods == [] then []
    else
      var n := |pods|;
      (if pods[n - 1].chain in t then [ToPod(pods[n - 1].pod, n, pods[n - 1].chain)] else []) +
      LiveRules(t, pods[..n - 1])
  }

  /** The pod at index i of the list keeps the number i + 1 when it is still there. */
  lemma {:induction false} LiveRulesIff(t: Table, pods: seq<PodEntry>, r: Rule)
    ensures r in LiveRules(t, pods) <==>
      exists i :: 0 <= i < |pods| && pods[i].chain in t && r == ToPod(pods[i].pod, i + 1, pods[i].chain)
  {
    if pods != [] {
      var n := |pods|;
      LiveRulesIff(t, pods[..n - 1], r);
      if i :| 0 <= i < n && pods[i].chain in t && r == ToPod(pods[i].pod, i + 1, pods[i].chain) {
        assert i < n - 1 ==> pods[..n - 1][i] == pods[i];
      }
    }
  }

  lemma {:induction false} LiveAll(t: Table, pods: seq<PodEntry>)
    requires forall p | p in pods :: p.chain in t
    ensures LiveRules(t, pods) == ServiceRules(pods)
  {
    if pods != [] {
      assert pods[|pods| - 1] in pods;
      assert forall p | p in pods[..|pods| - 1] :: p in pods;
      LiveAll(t, pods[..|pods| - 1]);
    }
  }

  lemma {:induction false} LiveRuleTarget(t: Table, pods: seq<PodEntry>, r: Rule)
    requires r in LiveRules(t, pods)
    ensures r.ToPod? && r.target in t && exists p :: p in pods && p.chain == r.target
  {
    var n := |pods|;
    if r in LiveRules(t, pods[..n - 1]) {
      LiveRuleTarget(t, pods[..n - 1], r);
      var p :| p in pods[..n - 1] && p.chain == r.target;
      assert p in pods;
    } else {
      assert pods[n - 1] in pods;
    }
  }

  /** A pod leaves a service chain: the chains of all its entries are deleted, the rules of the others are inserted
      again as far as their chains exist, and one record is cut. */
  function Evict(px: Proxy, e: ServiceEntry, pod: string): Proxy {
    var pods := px.meta.Pods(e.chain);
    px.(table := (px.table - ChainsOf(pods, pod))[e.chain := LiveRules(px.table, Others(pods, pod))],
        meta := px.meta.(podChains := px.meta.podChains[e.chain := RemovePod(pods, pod)]))
  }

  ghost predicate Listed(meta: Meta, c: Chain, target: Chain) {
    exists p :: InChain(meta, c, p) && p.chain == target
  }

  /** What holds with stale records too: records are told apart, the rules of a service chain jump to pods recorded
      for it, and no jump dangles. */
  ghost predicate Wired(px: Proxy) {
    && Separate(px) && JumpsSound(px)
    && forall s, e | InService(px.meta, s, e) ::
         e.chain in px.table && forall r | r in px.table[e.chain] :: r.ToPod? && Listed(px.meta, e.chain, r.target)
  }

  lemma RefinesWired(px: Proxy)
    requires Refines(px)
    ensures Wired(px)
  {
    RulesListed(px);
  }

  lemma RulesListed(px: Proxy)
    requires ServicesRefine(px)
    ensures forall s, e | InService(px.meta, s, e) ::
      e.chain in px.table && forall r | r in px.table[e.chain] :: r.ToPod? && Listed(px.meta, e.chain, r.target)
  {
    hide ServiceRules;
    forall s, e, r | InService(px.meta, s, e) && r in px.table[e.chain] ensures r.ToPod? && Listed(px.meta, e.chain, r.target) {
      ServiceRuleTarget(px.meta.Pods(e.chain), r);
      var p :| p in px.meta.Pods(e.chain) && p.chain == r.target;
      assert InChain(px.meta, e.chain, p);
    }
  }

  /** In a refined state with the pod listed, evicting is detaching. */
  lemma EvictIsDetach(px: Proxy, service: string, e: ServiceEntry, pod: string)
    requires Refines(px) && InService(px.meta, service, e)
    ensures Evict(px, e, pod) == Detach(px, e, pod)
  {
    var others := Others(px.meta.Pods(e.chain), pod);
    forall p | p in others ensures p.chain in px.table {
      assert InChain(px.meta, e.chain, p);
      assert Fills(px, p, px.drawn[e.chain.id].port.targetPort);
    }
    LiveAll(px.table, others);
  }

  // ---- what evicting keeps ----

  lemma {:induction false} RemovePodKeeps(pods: seq<PodEntry>, pod: string)
    requires NoDup(pods)
    ensures NoDup(RemovePod(pods, pod))
    ensures forall p | p in RemovePod(pods, pod) :: p in pods
    ensures forall p | p in pods && p.pod != pod :: p in RemovePod(pods, pod)
  {
    if pods != [] && pods[0].pod != pod {
      RemovePodKeeps(pods[1..], pod);
    }
  }

  lemma EvictKeeps(px: Proxy, service: string, e: ServiceEntry, pod: string)
    requires Separate(px) && InService(px.meta, service, e)
    ensures var r := Evict(px, e, pod);
      && (forall s, x :: InService(r.meta, s, x) == InService(px.meta, s, x))
      && (forall c, p | InChain(r.meta, c, p) :: InChain(px.meta, c, p))
      && (forall c, p | InChain(px.meta, c, p) && !(c == e.chain && p.pod == pod) :: InChain(r.meta, c, p))
      && (forall c :: OnRecord(px, c) == OnRecord(r, c))
      && Separate(r)
  {
    hide LiveRules, RemovePod;
    assert OnRecord(px, e.chain);
    var pods := px.meta.Pods(e.chain);
    assert NoDup<PodEntry>([]);
    RemovePodKeeps(pods, pod);
  }

  /** A rule of another service chain does not jump to a chain of the pod that leaves. */
  lemma OtherRules(px: Proxy, e: ServiceEntry, pod: string, c: Chain, rule: Rule)
    requires Wired(px) && c != e.chain && OnRecord(px, c) && c in px.table && rule in px.table[c]
    ensures rule.target !in ChainsOf(px.meta.Pods(e.chain), pod)
  {
    assert InService(px.meta, px.drawn[c.id].service, ServiceEntry(c, px.drawn[c.id].port));
    var p :| InChain(px.meta, c, p) && p.chain == rule.target;
    DetachSpares(px, e, pod, c, p);
  }

  lemma EvictedRule(px: Proxy, e: ServiceEntry, pod: string, rule: Rule)
    requires Separate(px) && rule in LiveRules(px.table, Others(px.meta.Pods(e.chain), pod))
    ensures rule.ToPod? && rule.target in px.table - ChainsOf(px.meta.Pods(e.chain), pod)
    ensures exists p :: InChain(px.meta, e.chain, p) && p.pod != pod && p.chain == rule.target
  {
    LiveRuleTarget(px.table, Others(px.meta.Pods(e.chain), pod), rule);
    var p :| p in Others(px.meta.Pods(e.chain), pod) && p.chain == rule.target;
    assert InChain(px.meta, e.chain, p);
    DetachSpares(px, e, pod, e.chain, p);
  }

  /** Evicting keeps the wiring, however often the chain lists the pod. */
  lemma EvictWired(px: Proxy, service: string, e: ServiceEntry, pod: string)
    requires Wired(px) && InService(px.meta, service, e)
    ensures Wired(Evict(px, e, pod))
  {
    hide LiveRules, RemovePod, Separate, Others;
    var r := Evict(px, e, pod);
    EvictKeeps(px, service, e, pod);
    DeletedArePodChains(px, e, pod);
    ServiceChainsAre(px);
    forall s, x | InService(r.meta, s, x)
      ensures x.chain in r.table
      ensures forall rule | rule in r.table[x.chain] :: rule.ToPod? && Listed(r.meta, x.chain, rule.target)
    {
      assert InService(px.meta, s, x);
      forall rule | rule in r.table[x.chain] ensures rule.ToPod? && Listed(r.meta, x.chain, rule.target) {
        if x.chain == e.chain {
          EvictedRule(px, e, pod, rule);
        } else {
          assert rule.ToPod? && Listed(px.meta, x.chain, rule.target);
          var p :| InChain(px.meta, x.chain, p) && p.chain == rule.target;
          assert InChain(r.meta, x.chain, p);
        }
      }
    }
    EvictJumps(px, service, e, pod);
  }

  lemma ServiceChainsAre(px: Proxy)
    requires Separate(px)
    ensures forall s, e | InService(px.meta, s, e) :: e.chain.ServiceChain? && OnRecord(px, e.chain)
  {
  }

  lemma EvictJumps(px: Proxy, service: string, e: ServiceEntry, pod: string)
    requires Wired(px) && InService(px.meta, service, e)
    ensures JumpsSound(Evict(px, e, pod))
  {
    hide LiveRules, RemovePod, Separate, Others;
    var r := Evict(px, e, pod);
    EvictKeeps(px, service, e, pod);
    DeletedArePodChains(px, e, pod);
    ServiceChainsAre(px);
    forall c, rule | c in r.table && rule in r.table[c] ensures JumpSound(r, c, rule) {
      if c == e.chain {
        EvictedRule(px, e, pod, rule);
        var p :| InChain(px.meta, e.chain, p) && p.chain == rule.target;
        RecordedPod(px, e.chain, p);
      } else {
        assert JumpSound(px, c, rule);
        if rule.HasTarget() && rule.target.PodChain? {
          OtherRules(px, e, pod, c, rule);
        }
      }
    }
  }

  lemma RecordedPod(px: Proxy, c: Chain, p: PodEntry)
    requires Separate(px) && InChain(px.meta, c, p)
    ensures p.chain.PodChain? && c.ServiceChain?
  {
  }

  // ---- the loop of one service chain ----

  /** The chain has been flushed and its first j records have been handled. */
  function Leaving(px: Proxy, e: ServiceEntry, pod: string, j: nat): Table
    requires j <= |px.meta.Pods(e.chain)|
  {
    var pods := px.meta.Pods(e.chain)[..j];
    (px.table - ChainsOf(pods, pod))[e.chain := LiveRules(px.table, Others(pods, pod))]
  }

  lemma LeavingEnds(px: Proxy, e: ServiceEntry, pod: string)
    ensures Leaving(px, e, pod, 0) == px.table[e.chain := []]
    ensures Leaving(px, e, pod, |px.meta.Pods(e.chain)|) == Evict(px, e, pod).table
  {
    var pods := px.meta.Pods(e.chain);
    assert pods[..0] == [] && pods[..|pods|] == pods;
    assert ChainsOf([], pod) == {};
  }

  lemma OthersOfNone(pods: seq<PodEntry>, pod: string)
    ensures Others(pods[..0], pod) == []
    ensures pods[..|pods|] == pods
  {
  }

  /** The entry that is handled next: its own chain has not been deleted yet. */
  lemma LeavingRecord(px: Proxy, service: string, e: ServiceEntry, pod: string, j: nat)
    requires Wired(px) && InService(px.meta, service, e) && j < |px.meta.Pods(e.chain)|
    ensures var p, t := px.meta.Pods(e.chain)[j], Leaving(px, e, pod, j);
      && p.chain != e.chain && (p.chain in t <==> p.chain in px.table) && e.chain in t
      && t[e.chain] == LiveRules(px.table, Others(px.meta.Pods(e.chain)[..j], pod))
  {
    hide LiveRules, Others;
    var pods := px.meta.Pods(e.chain);
    assert InChain(px.meta, e.chain, pods[j]);
    ServiceChainsAre(px);
    forall q | q in pods[..j] ensures q.chain != pods[j].chain {
      assert InChain(px.meta, e.chain, q) && q != pods[j];
    }
  }

  /** Nothing jumps to the chain of a leaving pod once its service chain has been flushed. */
  lemma LeaverUnreferenced(px: Proxy, service: string, e: ServiceEntry, pod: string, j: nat)
    requires Wired(px) && InService(px.meta, service, e) && j < |px.meta.Pods(e.chain)|
    requires px.meta.Pods(e.chain)[j].pod == pod
    ensures var c := px.meta.Pods(e.chain)[j].chain;
      !Referenced(Leaving(px, e, pod, j)[c := []], c)
  {
    hide LiveRules, Separate;
    var pods := px.meta.Pods(e.chain);
    var p := pods[j];
    var t: Table := Leaving(px, e, pod, j);
    assert InChain(px.meta, e.chain, p);
    RecordedPod(px, e.chain, p);
    forall c: Chain, i | c in t && 0 <= i < |t[c]| && c != p.chain ensures !t[c][i].JumpsTo(p.chain) {
      if c == e.chain {
        StayersOnly(px, e, pod, j, t[c][i]);
      } else if t[c][i].JumpsTo(p.chain) {
        assert JumpSound(px, c, px.table[c][i]);
        OtherRules(px, e, pod, c, px.table[c][i]);
      }
    }
  }

  /** The rules written so far jump to pods that stay. */
  lemma StayersOnly(px: Proxy, e: ServiceEntry, pod: string, j: nat, r: Rule)
    requires Separate(px) && j < |px.meta.Pods(e.chain)| && px.meta.Pods(e.chain)[j].pod == pod
    requires r in LiveRules(px.table, Others(px.meta.Pods(e.chain)[..j], pod))
    ensures !r.JumpsTo(px.meta.Pods(e.chain)[j].chain)
  {
    var pods := px.meta.Pods(e.chain);
    LiveRuleTarget(px.table, Others(pods[..j], pod), r);
    var q :| q in Others(pods[..j], pod) && q.chain == r.target;
    assert InChain(px.meta, e.chain, q) && InChain(px.meta, e.chain, pods[j]);
  }

  lemma LeaverGone(px: Proxy, e: ServiceEntry, pod: string, j: nat)
    requires j < |px.meta.Pods(e.chain)| && px.meta.Pods(e.chain)[j].pod == pod
    requires px.meta.Pods(e.chain)[j].chain != e.chain
    ensures Leaving(px, e, pod, j + 1) == Leaving(px, e, pod, j) - {px.meta.Pods(e.chain)[j].chain}
    ensures Others(px.meta.Pods(e.chain)[..j + 1], pod) == Others(px.meta.Pods(e.chain)[..j], pod)
  {
    hide LiveRules;
    var pods := px.meta.Pods(e.chain);
    assert pods[..j + 1][..j] == pods[..j];
    assert pods[..j + 1] == pods[..j] + [pods[j]];
    assert ChainsOf(pods[..j + 1], pod) == ChainsOf(pods[..j], pod) + {pods[j].chain};
    assert Others(pods[..j + 1], pod) == Others(pods[..j], pod) + [];
    assert Others(pods[..j], pod) + [] == Others(pods[..j], pod);
    TableMinus(px.table, ChainsOf(pods[..j], pod), e.chain, LiveRules(px.table, Others(pods[..j], pod)), pods[j].chain);
  }

  lemma TableMinus(t: Table, gone: set<Chain>, c: Chain, rules: seq<Rule>, d: Chain)
    requires c != d
    ensures (t - (gone + {d}))[c := rules] == (t - gone)[c := rules] - {d}
  {
  }

  lemma StayerRenumbered(px: Proxy, e: ServiceEntry, pod: string, j: nat)
    requires j < |px.meta.Pods(e.chain)| && px.meta.Pods(e.chain)[j].pod != pod
    ensures var p := px.meta.Pods(e.chain)[j];
      var kept := Others(px.meta.Pods(e.chain)[..j], pod);
      && Others(px.meta.Pods(e.chain)[..j + 1], pod) == kept + [p]
      && Leaving(px, e, pod, j + 1) ==
         if p.chain in px.table
         then Leaving(px, e, pod, j)[e.chain := [ToPod(p.pod, |kept| + 1, p.chain)] + LiveRules(px.table, kept)]
         else Leaving(px, e, pod, j)
  {
    var pods := px.meta.Pods(e.chain);
    assert pods[..j + 1][..j] == pods[..j];
    assert pods[..j + 1] == pods[..j] + [pods[j]];
    assert ChainsOf(pods[..j + 1], pod) == ChainsOf(pods[..j], pod);
    var kept := Others(pods[..j], pod);
    assert (kept + [pods[j]])[..|kept|] == kept;
    assert [] + LiveRules(px.table, kept) == LiveRules(px.table, kept);
  }

  // ---- all chains of a service, and all services ----

  ghost function EvictEach(px: Proxy, service: string, pod: string, k: nat): (r: Proxy)
    requires Wired(px) && k <= |px.meta.Chains(service)|
    ensures Wired(r)
    ensures r.meta.serviceChains == px.meta.serviceChains && r.meta.clusterIPs == px.meta.clusterIPs
  {
    if k == 0 then px
    else
      var before := EvictEach(px, service, pod, k - 1);
      var e := px.meta.Chains(service)[k - 1];
      assert InService(before.meta, service, e);
      EvictWired(before, service, e, pod);
      Evict(before, e, pod)
  }

  ghost function EvictFrom(px: Proxy, services: seq<string>, pod: string, k: nat): (r: Proxy)
    requires Wired(px) && k <= |services|
    ensures Wired(r)
    ensures r.meta.serviceChains == px.meta.serviceChains && r.meta.clusterIPs == px.meta.clusterIPs
  {
    if k == 0 then px
    else
      var before := EvictFrom(px, services, pod, k - 1);
      var s := services[k - 1];
      if s in before.meta.clusterIPs then EvictEach(before, s, pod, |before.meta.Chains(s)|) else before
  }

  // ---- what the caller is told ----

  /** The error left by the first j records of a service chain: that of the last rule inserted again, if there is one. */
  function ToldUpTo(px: Proxy, e: ServiceEntry, pod: string, j: nat, before: bool): bool
    requires j <= |px.meta.Pods(e.chain)|
  {
    if j == 0 then before
    else if px.meta.Pods(e.chain)[j - 1].pod == pod then ToldUpTo(px, e, pod, j - 1, before)
    else px.meta.Pods(e.chain)[j - 1].chain in px.table
  }

  function Told(px: Proxy, e: ServiceEntry, pod: string, before: bool): bool {
    ToldUpTo(px, e, pod, |px.meta.Pods(e.chain)|, before)
  }

  ghost function ToldEach(px: Proxy, service: string, pod: string, k: nat, before: bool): bool
    requires Wired(px) && k <= |px.meta.Chains(service)|
  {
    if k == 0 then before
    else Told(EvictEach(px, service, pod, k - 1), px.meta.Chains(service)[k - 1], pod, ToldEach(px, service, pod, k - 1, before))
  }

  ghost function ToldFrom(px: Proxy, services: seq<string>, pod: string, k: nat): bool
    requires Wired(px) && k <= |services|
  {
    if k == 0 then true
    else
      var before, s := EvictFrom(px, services, pod, k - 1), services[k - 1];
      var told := ToldFrom(px, services, pod, k - 1);
      if s in before.meta.clusterIPs then ToldEach(before, s, pod, |before.meta.Chains(s)|, told) else told
  }

  lemma ToldWell(px: Proxy, service: string, e: ServiceEntry, pod: string)
    requires Refines(px) && InService(px.meta, service, e)
    ensures Told(px, e, pod, true)
  {
    ToldWellUpTo(px, service, e, pod, |px.meta.Pods(e.chain)|);
  }

  lemma {:induction false} ToldWellUpTo(px: Proxy, service: string, e: ServiceEntry, pod: string, j: nat)
    requires Refines(px) && InService(px.meta, service, e) && j <= |px.meta.Pods(e.chain)|
    ensures ToldUpTo(px, e, pod, j, true)
  {
    if j > 0 {
      ToldWellUpTo(px, service, e, pod, j - 1);
      var p := px.meta.Pods(e.chain)[j - 1];
      assert InChain(px.meta, e.chain, p);
      assert Fills(px, p, px.drawn[e.chain.id].port.targetPort);
    }
  }

  lemma {:induction false} EvictEachDetaches(px: Proxy, service: string, pod: string, k: nat)
    requires Refines(px) && DistinctPods(px) && k <= |px.meta.Chains(service)|
    ensures Wired(px) && EvictEach(px, service, pod, k) == DetachEach(px, service, pod, k)
    ensures ToldEach(px, service, pod, k, true)
  {
    hide Refines, DistinctPods, Wired, Evict, Detach, Told;
    RefinesWired(px);
    if k > 0 {
      EvictEachDetaches(px, service, pod, k - 1);
      var before := DetachEach(px, service, pod, k - 1);
      var e := px.meta.Chains(service)[k - 1];
      assert InService(before.meta, service, e);
      EvictIsDetach(before, service, e, pod);
      ToldWell(before, service, e, pod);
    }
  }

  /** Where no chain lists a pod twice, evicting is removing, and no rule is refused. */
  lemma {:induction false} EvictFromRemoves(px: Proxy, services: seq<string>, pod: string, k: nat)
    requires Refines(px) && DistinctPods(px) && k <= |services|
    ensures Wired(px) && EvictFrom(px, services, pod, k) == RemoveFrom(px, services, pod, k)
    ensures ToldFrom(px, services, pod, k)
  {
    hide Refines, DistinctPods, Wired, EvictEach, DetachEach, ToldEach;
    RefinesWired(px);
    if k > 0 {
      EvictFromRemoves(px, services, pod, k - 1);
      var before := RemoveFrom(px, services, pod, k - 1);
      var s := services[k - 1];
      if s in before.meta.clusterIPs {
        EvictEachDetaches(before, s, pod, |before.meta.Chains(s)|);
      }
    }
  }
}
