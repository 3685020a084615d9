/**
 Whole runs of the proxy: the table refines the record in every state, packets are balanced exactly in
 every state, and deleting a service undoes everything done for it.
 */
module ProxyRuns {
  import opened Sequences
  import opened Iptables
  import opened ServiceMeta
  import opened ProxyState
  import opened ProxyInvariants
  import opened ProxyOps
  import opened ProxyListing
  import opened NthBalancer
  import opened Packets

  datatype Op =
    | CreateService(service: string, clusterIP: string, ports: seq<ServicePort>, members: seq<Member>)
    | DeleteService(service: string)
    | AddPod(services: seq<string>, member: Member)
    | DeletePod(services: seq<string>, pod: string)

  /** What the API server sends: the pods of a new service are distinct, a pod is added only to services
      that do not have it, and no service is named twice. */
  ghost predicate Sensible(px: Proxy, op: Op) {
    match op
    case CreateService(_, _, _, members) => NoDup(MemberNames(members))
    case AddPod(services, m) =>
      NoDup(services) &&
      forall s, e | s in services && InService(px.meta, s, e) :: m.pod !in Names(px.meta.Pods(e.chain))
    case _ => true
  }

  ghost function Step(px: Proxy, op: Op): (r: Proxy)
    requires Refines(px) && DistinctPods(px)
    ensures Refines(r)
  {
    match op
    case CreateService(s, ip, ports, ms) => Create(px, s, ip, ports, ms)
    case DeleteService(s) => Delete(px, s)
    case AddPod(services, m) => AddTo(px, services, m, |services|)
    case DeletePod(services, pod) => RemoveFrom(px, services, pod, |services|)
  }

  // ---- pod names stay distinct in every chain ----

  lemma DistinctAt(px: Proxy, s: string, e: ServiceEntry)
    requires DistinctPods(px) && InService(px.meta, s, e)
    ensures NoDup(Names(px.meta.Pods(e.chain)))
  {
    DistinctByNames(px.meta.Pods(e.chain));
  }

  lemma DistinctEverywhere(px: Proxy)
    requires Refines(px)
    requires forall s, e | InService(px.meta, s, e) :: NoDup(Names(px.meta.Pods(e.chain)))
    ensures DistinctPods(px)
  {
    forall c | c in px.meta.podChains ensures DistinctNames(px.meta.podChains[c]) {
      assert OnRecord(px, c);
      assert InService(px.meta, px.drawn[c.id].service, ServiceEntry(c, px.drawn[c.id].port));
      DistinctByNames(px.meta.Pods(c));
    }
  }

  lemma CreateDistinct(px: Proxy, service: string, clusterIP: string, ports: seq<ServicePort>, ms: seq<Member>)
    requires Refines(px) && DistinctPods(px) && NoDup(MemberNames(ms))
    ensures DistinctPods(Create(px, service, clusterIP, ports, ms))
  {
    hide Refines, Create, DistinctPods, Names, MemberNames;
    var r := Create(px, service, clusterIP, ports, ms);
    if service in px.meta.clusterIPs {
      CreateExisting(px, service, clusterIP, ports, ms);
    } else {
      CreateLists(px, service, clusterIP, ports, ms);
      forall s, e | InService(r.meta, s, e) ensures NoDup(Names(r.meta.Pods(e.chain))) {
        if s != service {
          assert InService(px.meta, s, e);
          DrawnBefore(px, s, e);
          DistinctAt(px, s, e);
        }
      }
      DistinctEverywhere(r);
    }
  }

  lemma CreateExisting(px: Proxy, service: string, clusterIP: string, ports: seq<ServicePort>, ms: seq<Member>)
    requires Refines(px) && service in px.meta.clusterIPs
    ensures Create(px, service, clusterIP, ports, ms) == px
  {
  }

  lemma AttachEachDistinct(px: Proxy, service: string, m: Member)
    requires Refines(px) && DistinctPods(px)
    requires forall e | InService(px.meta, service, e) :: m.pod !in Names(px.meta.Pods(e.chain))
    ensures var r := AttachEach(px, service, m, |px.meta.Chains(service)|);
      && DistinctPods(r)
      && (forall c | (forall e | InService(px.meta, service, e) :: e.chain != c) :: r.meta.Pods(c) == px.meta.Pods(c))
  {
    hide Refines, AttachEach, DistinctPods, Names;
    var es := px.meta.Chains(service);
    AttachEachLists(px, service, m, |es|);
    var r := AttachEach(px, service, m, |es|);
    forall s, e | InService(r.meta, s, e) ensures NoDup(Names(r.meta.Pods(e.chain))) {
      assert InService(px.meta, s, e);
      DistinctAt(px, s, e);
      if s == service {
        var i :| 0 <= i < |es| && es[i] == e;
        NoDupAdd(Names(px.meta.Pods(e.chain)), m.pod);
      } else {
        forall i | 0 <= i < |es| ensures es[i].chain != e.chain {
          assert InService(px.meta, service, es[i]);
          OtherService(px, service, es[i], s, e);
        }
      }
    }
    DistinctEverywhere(r);
  }

  lemma {:induction false} AddToDistinct(px: Proxy, services: seq<string>, m: Member, k: nat)
    requires Refines(px) && DistinctPods(px) && NoDup(services) && k <= |services|
    requires forall s, e | s in services && InService(px.meta, s, e) :: m.pod !in Names(px.meta.Pods(e.chain))
    ensures var r := AddTo(px, services, m, k);
      && DistinctPods(r)
      && (forall s, e | InService(px.meta, s, e) && s !in services[..k] :: r.meta.Pods(e.chain) == px.meta.Pods(e.chain))
  {
    hide Refines, AttachEach, DistinctPods, Names, NoDup;
    if k > 0 {
      AddToDistinct(px, services, m, k - 1);
      var before := AddTo(px, services, m, k - 1);
      var s := services[k - 1];
      NotBefore(services, k);
      assert services[..k] == services[..k - 1] + [s];
      if s in before.meta.clusterIPs {
        forall e | InService(before.meta, s, e) ensures m.pod !in Names(before.meta.Pods(e.chain)) {
          assert InService(px.meta, s, e);
        }
        AttachEachDistinct(before, s, m);
        forall t, e | InService(px.meta, t, e) && t !in services[..k]
          ensures AddTo(px, services, m, k).meta.Pods(e.chain) == px.meta.Pods(e.chain)
        {
          forall x | InService(before.meta, s, x) ensures x.chain != e.chain {
            OtherService(px, s, x, t, e);
          }
        }
      }
    }
  }

  lemma NotBefore(xs: seq<string>, k: nat)
    requires NoDup(xs) && 0 < k <= |xs|
    ensures xs[k - 1] !in xs[..k - 1]
  {
  }

  lemma DeleteDistinct(px: Proxy, service: string)
    requires Refines(px) && DistinctPods(px)
    ensures DistinctPods(Delete(px, service))
  {
  }

  lemma StepDistinct(px: Proxy, op: Op)
    requires Refines(px) && DistinctPods(px) && Sensible(px, op)
    ensures DistinctPods(Step(px, op))
  {
    hide Refines, DistinctPods, Create, Delete, AddTo, RemoveFrom, NoDup, Names, MemberNames;
    match op
    case CreateService(s, ip, ports, ms) => CreateDistinct(px, s, ip, ports, ms);
    case DeleteService(s) => DeleteDistinct(px, s);
    case AddPod(services, m) => AddToDistinct(px, services, m, |services|);
    case DeletePod(services, pod) =>
  }

  // ---- runs ----

  /** The states after each operation are reached by operations that make sense where they are applied. */
  ghost predicate IsRun(states: seq<Proxy>, ops: seq<Op>) {
    && |states| == |ops| + 1
    && Refines(states[0]) && DistinctPods(states[0])
    && forall i | 0 <= i < |ops| ::
         Refines(states[i]) && DistinctPods(states[i]) ==>
           Sensible(states[i], ops[i]) && states[i + 1] == Step(states[i], ops[i])
  }

  /** In every state of every run, the rule table refines the record. */
  lemma {:induction false} RunRefines(states: seq<Proxy>, ops: seq<Op>, i: nat)
    requires IsRun(states, ops) && i < |states|
    ensures Refines(states[i]) && DistinctPods(states[i])
    decreases i
  {
    hide Refines, DistinctPods, Sensible, Step;
    if i > 0 {
      RunRefines(states, ops, i - 1);
      StepDistinct(states[i - 1], ops[i - 1]);
    }
  }

  // ---- packets ----

  lemma {:induction false} ServiceRuleAt(pods: seq<PodEntry>, i: nat)
    requires i < |pods|
    ensures ServiceRules(pods)[i] == ToPod(pods[|pods| - 1 - i].pod, |pods| - i, pods[|pods| - 1 - i].chain)
  {
    if i > 0 {
      ServiceRuleAt(pods[..|pods| - 1], i - 1);
    }
  }

  lemma TargetsDiffer(pods: seq<PodEntry>)
    requires forall i, j | 0 <= i < j < |pods| :: pods[i].chain != pods[j].chain
    ensures Descending(ServiceRules(pods))
    ensures forall i, j | 0 <= i < j < |pods| :: ServiceRules(pods)[i].target != ServiceRules(pods)[j].target
  {
  }

  lemma RulesOnRecord(px: Proxy, s: string, e: ServiceEntry)
    requires Refines(px) && InService(px.meta, s, e)
    ensures e.chain in px.table && px.table[e.chain] == ServiceRules(px.meta.Pods(e.chain))
    ensures forall p | p in px.meta.Pods(e.chain) :: Fills(px, p, e.port.targetPort)
  {
  }

  /** Every packet in the chain of a recorded pod is delivered to that pod. */
  lemma PodDelivers(px: Proxy, s: string, e: ServiceEntry, p: PodEntry)
    requires Refines(px) && InService(px.meta, s, e) && p in px.meta.Pods(e.chain)
    ensures Delivers(px.table, p.chain, p.ip, e.port.targetPort, px.host, Here(px, p))
  {
    assert Fills(px, p, e.port.targetPort) by {
      RulesOnRecord(px, s, e);
    }
    assert MarksSet(px.table);
    hide Refines;
    PodRulesDeliver(px.table, p.chain, p.ip, e.port.targetPort, px.host, Here(px, p));
  }

  /** What `n` consecutive packets to a service port of `n` pods experience, whatever the counters were:
      each recorded pod's chain receives exactly one and delivers it to the pod's address and the target port, and
      no packet falls through. At any time the shares differ by at most one. */
  lemma ExactBalance(px: Proxy, s: string, e: ServiceEntry, seen: nat -> nat, i: nat, m: nat)
    requires Refines(px) && InService(px.meta, s, e) && i < |px.meta.Pods(e.chain)|
    requires forall n | n > 0 :: seen(n) < n
    ensures e.chain in px.table && Descending(px.table[e.chain])
    ensures var pods := px.meta.Pods(e.chain);
      var b := Load(px.table[e.chain], seen);
      && Length(b) == |pods|
      && Received(b, |pods|, Some(pods[i].chain)) == 1
      && Received(b, |pods|, None) == 0
      && Rounds(m, |pods|) <= Received(b, m, Some(pods[i].chain)) <= Rounds(m, |pods|) + 1
      && Delivers(px.table, pods[i].chain, pods[i].ip, e.port.targetPort, px.host, Here(px, pods[i]))
  {
    hide Refines, Delivers;
    PodDelivers(px, s, e, px.meta.Pods(e.chain)[i]);
    var pods := px.meta.Pods(e.chain);
    RulesOnRecord(px, s, e);
    PodChainsDiffer(px, s, e);
    TargetsDiffer(pods);
    var rules := ServiceRules(pods);
    var b := Load(rules, seen);
    LoadNumbered(rules, seen);
    LoadNames(rules, seen, pods[i].chain);
    ServiceRuleAt(pods, |pods| - 1 - i);
    assert rules[|pods| - 1 - i].target == pods[i].chain;
    RoundRobin(b, Some(pods[i].chain));
    FairShare(b, m, Some(pods[i].chain));
  }

  // ---- what duplicate names break ----

  /** Removing a pod from a service chain keeps the rules in step with the record exactly when the chain
      lists the pod at most once: the rules of all its occurrences go, but only one record does. */
  lemma DetachRefinesIff(px: Proxy, service: string, e: ServiceEntry, pod: string)
    requires Refines(px) && InService(px.meta, service, e)
    ensures Refines(Detach(px, e, pod)) <==> Occurrences(px.meta.Pods(e.chain), pod) <= 1
  {
    var pods := px.meta.Pods(e.chain);
    if Occurrences(pods, pod) <= 1 {
      DetachRefines(px, service, e, pod);
    } else {
      var r := Detach(px, e, pod);
      assert InService(r.meta, service, e);
      OthersLength(pods, pod);
      assert r.table[e.chain] == ServiceRules(Others(pods, pod));
      assert r.meta.Pods(e.chain) == RemovePod(pods, pod);
    }
  }
}
