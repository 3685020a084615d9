/**
 Services do not interfere: what is done to others while a service exists is what would be done to them without it.
 */
module ProxyFrame {
  import opened Sequences
  import opened Iptables
  import opened ServiceMeta
  import opened ProxyState
  import opened ProxyInvariants
  import opened ProxyOps
  import opened ProxyListing
  import opened ProxyRuns
  import opened ProxyUndo

  /** What deleting a service leaves untouched of another. */
  lemma OtherKept(px: Proxy, s: string, t: string)
    requires Refines(px) && s in px.meta.clusterIPs && t != s
    ensures Services in px.table
    ensures var r, es := Drop(px, s), px.meta.Chains(s);
      && r.drawn == px.drawn && r.meta.Chains(t) == px.meta.Chains(t)
      && (t in px.meta.clusterIPs ==> t in r.meta.clusterIPs && r.meta.clusterIPs[t] == px.meta.clusterIPs[t])
      && forall e | InService(px.meta, t, e) ::
           && e.chain.ServiceChain? && e.chain in r.table && r.table[e.chain] == px.table[e.chain] && e.chain in px.table
           && e.chain !in ServiceChainsOf(es) && r.meta.Pods(e.chain) == px.meta.Pods(e.chain)
  {
    DropKeeps(px, s);
    forall e | InService(px.meta, t, e)
      ensures e.chain.ServiceChain? && e.chain in px.table && e.chain !in ServiceChainsOf(px.meta.Chains(s))
      ensures e.chain !in PodChainsOf(px.meta, px.meta.Chains(s))
      ensures Drop(px, s).meta.Pods(e.chain) == px.meta.Pods(e.chain)
    {
      assert OnRecord(px, e.chain) && px.drawn[e.chain.id] == ForService(t, e.port);
      DropSpares(px, s, e.chain);
    }
  }

  /** The next number is not one of those that go. */
  lemma NextNotDropped(px: Proxy, s: string)
    requires Refines(px)
    ensures forall c | c in ServiceChainsOf(px.meta.Chains(s)) + PodChainsOf(px.meta, px.meta.Chains(s)) ::
      c in px.table && c != Services && (c.ServiceChain? || c.PodChain?) && c.id < |px.drawn|
  {
    DropOnlyOwn(px, s);
    forall c | c in PodChainsOf(px.meta, px.meta.Chains(s)) ensures c in px.table && c.PodChain? && c.id < |px.drawn| {
      var e, p :| e in px.meta.Chains(s) && p in px.meta.Pods(e.chain) && p.chain == c;
      assert InService(px.meta, s, e) && InChain(px.meta, e.chain, p);
      assert Fills(px, p, px.drawn[e.chain.id].port.targetPort);
    }
    forall c | c in ServiceChainsOf(px.meta.Chains(s)) ensures c in px.table && c.id < |px.drawn| {
      var e :| e in px.meta.Chains(s) && e.chain == c;
      assert InService(px.meta, s, e);
    }
  }

  lemma PodChainsElsewhere(a: Meta, b: Meta, es: seq<ServiceEntry>, c: Chain)
    requires c !in ServiceChainsOf(es) && forall d | d != c :: b.Pods(d) == a.Pods(d)
    ensures PodChainsOf(b, es) == PodChainsOf(a, es)
  {
    assert forall e | e in es :: e.chain in ServiceChainsOf(es);
  }

  lemma DropAnnounceOther(px: Proxy, s: string, t: string, clusterIP: string)
    requires Refines(px) && s in px.meta.clusterIPs && t != s
    ensures Services in px.table
    ensures Drop(Announce(px, t, clusterIP), s) == Announce(Drop(px, s), t, clusterIP)
  {
    OtherKept(px, s, t);
    hide Refines, Without, EntriesOf, ServiceChainsOf, PodChainsOf;
    var r, es := Announce(px, t, clusterIP), px.meta.Chains(s);
    EntriesSame(px.meta, r.meta, s, es);
    PodChainsSame(px.meta, r.meta, es);
    assert Drop(r, s).meta == Announce(Drop(px, s), t, clusterIP).meta;
  }

  /** What the deletion of a service takes away. */
  function Gone(px: Proxy, s: string): set<Chain> {
    ServiceChainsOf(px.meta.Chains(s)) + PodChainsOf(px.meta, px.meta.Chains(s))
  }

  lemma DropIs(px: Proxy, s: string)
    requires Services in px.table && s in px.meta.clusterIPs
    ensures var es := px.meta.Chains(s);
      Drop(px, s) == px.(table := (px.table - Gone(px, s))[Services := Without(px.table[Services], EntriesOf(px.meta, s, es))],
        meta := Meta(px.meta.clusterIPs - {s}, px.meta.serviceChains - {s}, px.meta.podChains - ServiceChainsOf(es)))
  {
    hide Without, EntriesOf, ServiceChainsOf, PodChainsOf;
    var es := px.meta.Chains(s);
    assert px.table - Gone(px, s) == px.table - ServiceChainsOf(es) - PodChainsOf(px.meta, es);
  }

  /** A chain of another service, and the next number, stay. */
  lemma StaysPut(px: Proxy, s: string, t: string, e: ServiceEntry)
    requires Refines(px) && s in px.meta.clusterIPs && t != s && InService(px.meta, t, e)
    ensures Services in px.table
    ensures e.chain.ServiceChain? && e.chain in px.table && e.chain !in Gone(px, s)
    ensures e.chain in Drop(px, s).table && Drop(px, s).table[e.chain] == px.table[e.chain]
    ensures Drop(px, s).meta.Pods(e.chain) == px.meta.Pods(e.chain)
  {
    OtherKept(px, s, t);
    DropOnlyOwn(px, s);
  }

  lemma NextStays(px: Proxy, s: string)
    requires Refines(px) && s in px.meta.clusterIPs
    ensures Services in px.table && Services !in Gone(px, s)
    ensures Chain.PodChain(|px.drawn|) !in Gone(px, s) && Chain.ServiceChain(|px.drawn|) !in Gone(px, s)
    ensures Drop(px, s).drawn == px.drawn
  {
    NextNotDropped(px, s);
  }

  lemma ChainsStay(px: Proxy, s: string, t: string)
    requires Refines(px) && s in px.meta.clusterIPs && t in px.meta.clusterIPs && t != s
    ensures Services in px.table && Refines(Drop(px, s)) && t in Drop(px, s).meta.clusterIPs
    ensures Drop(px, s).meta.clusterIPs[t] == px.meta.clusterIPs[t] && Drop(px, s).meta.Chains(t) == px.meta.Chains(t)
  {
    OtherKept(px, s, t);
    DropRefines(px, s);
  }

  lemma OpenTables(t: Table, gone: set<Chain>, c: Chain, rule: Rule, entries: seq<Rule>)
    requires Services in t && c !in gone && c != Services
    ensures (t[c := []][Services := [rule] + t[Services]] - gone)[Services := [rule] + entries] ==
      (t - gone)[Services := entries][c := []][Services := [rule] + entries]
  {
  }

  lemma DropOpenOther(px: Proxy, s: string, t: string, port: ServicePort)
    requires Refines(px) && s in px.meta.clusterIPs && t in px.meta.clusterIPs && t != s
    ensures Services in px.table && Refines(Drop(px, s)) && t in Drop(px, s).meta.clusterIPs
    ensures Services in OpenPort(px, t, port).table && s in OpenPort(px, t, port).meta.clusterIPs
    ensures Drop(OpenPort(px, t, port), s) == OpenPort(Drop(px, s), t, port)
  {
    hide Refines, Without, EntriesOf, ServiceChainsOf, PodChainsOf;
    ChainsStay(px, s, t);
    NextStays(px, s);
    var r, es, e := OpenPort(px, t, port), px.meta.Chains(s), Opened(px, port);
    var rule, gone := Entry(t, px.meta.clusterIPs[t], e), EntriesOf(px.meta, s, es);
    EntriesSame(px.meta, r.meta, s, es);
    PodChainsSame(px.meta, r.meta, es);
    EntryNotOf(px.meta, s, es, rule);
    WithoutCons(px.table[Services], gone, rule);
    DropIs(px, s);
    DropIs(r, s);
    OpenTables(px.table, Gone(px, s), e.chain, rule, Without(px.table[Services], gone));
    assert Drop(r, s).meta == OpenPort(Drop(px, s), t, port).meta;
  }

  lemma EntryNotOf(meta: Meta, s: string, es: seq<ServiceEntry>, r: Rule)
    requires s in meta.clusterIPs && r.ToService? && r.service != s
    ensures r !in EntriesOf(meta, s, es)
  {
  }

  lemma WithoutCons(xs: seq<Rule>, gone: set<Rule>, x: Rule)
    requires x !in gone
    ensures Without([x] + xs, gone) == [x] + Without(xs, gone)
  {
    assert ([x] + xs)[1..] == xs;
  }

  lemma AttachTables(t: Table, gone: set<Chain>, c: Chain, rules: seq<Rule>, d: Chain, rest: seq<Rule>, entries: seq<Rule>)
    requires c !in gone && d !in gone && c != Services && d != Services
    ensures (t[c := rules][d := rest] - gone)[Services := entries] == (t - gone)[Services := entries][c := rules][d := rest]
  {
  }

  lemma DropAttachOther(px: Proxy, s: string, t: string, e: ServiceEntry, m: Member)
    requires Refines(px) && s in px.meta.clusterIPs && t != s && InService(px.meta, t, e)
    ensures Services in px.table && e.chain in px.table && e.chain in Drop(px, s).table
    ensures Services in Attach(px, e, m).table
    ensures Drop(Attach(px, e, m), s) == Attach(Drop(px, s), e, m)
  {
    hide Refines, Without, EntriesOf, ServiceChainsOf, PodChainsOf, PodRules;
    StaysPut(px, s, t, e);
    NextStays(px, s);
    var r, es, c := Attach(px, e, m), px.meta.Chains(s), Chain.PodChain(|px.drawn|);
    EntriesSame(px.meta, r.meta, s, es);
    PodChainsElsewhere(px.meta, r.meta, es, e.chain);
    DropIs(px, s);
    DropIs(r, s);
    AttachTables(px.table, Gone(px, s), c, r.table[c], e.chain, r.table[e.chain],
                 Without(px.table[Services], EntriesOf(px.meta, s, es)));
    assert Drop(r, s).meta == Attach(Drop(px, s), e, m).meta;
  }

  lemma DetachTables(t: Table, gone: set<Chain>, a: set<Chain>, c: Chain, rules: seq<Rule>, entries: seq<Rule>)
    requires c !in gone && c != Services && Services !in a
    ensures ((t - a)[c := rules] - gone)[Services := entries] == ((t - gone)[Services := entries] - a)[c := rules]
  {
  }

  lemma LeaversArePods(px: Proxy, e: ServiceEntry, pod: string)
    requires Refines(px)
    ensures Services !in ChainsOf(px.meta.Pods(e.chain), pod)
  {
    DeletedArePodChains(px, e, pod);
  }

  lemma DropDetachOther(px: Proxy, s: string, t: string, e: ServiceEntry, pod: string)
    requires Refines(px) && s in px.meta.clusterIPs && t != s && InService(px.meta, t, e)
    ensures Services in px.table && Services in Detach(px, e, pod).table
    ensures Drop(Detach(px, e, pod), s) == Detach(Drop(px, s), e, pod)
  {
    hide Refines, Without, EntriesOf, ServiceChainsOf, PodChainsOf, ChainsOf, Others, RemovePod, ServiceRules;
    StaysPut(px, s, t, e);
    LeaversArePods(px, e, pod);
    var r, es := Detach(px, e, pod), px.meta.Chains(s);
    EntriesSame(px.meta, r.meta, s, es);
    PodChainsElsewhere(px.meta, r.meta, es, e.chain);
    DropIs(px, s);
    DropIs(r, s);
    DetachTables(px.table, Gone(px, s), ChainsOf(px.meta.Pods(e.chain), pod), e.chain, r.table[e.chain],
                 Without(px.table[Services], EntriesOf(px.meta, s, es)));
    assert Drop(r, s).meta == Detach(Drop(px, s), e, pod).meta;
  }

  lemma DropTables(t: Table, a: set<Chain>, x: seq<Rule>, b: set<Chain>, y: seq<Rule>, entries: seq<Rule>)
    requires Services !in a && Services !in b
    ensures ((t - a)[Services := x] - b)[Services := entries] == ((t - b)[Services := y] - a)[Services := entries]
  {
  }

  lemma DropDropOther(px: Proxy, s: string, t: string)
    requires Refines(px) && s in px.meta.clusterIPs && t in px.meta.clusterIPs && t != s
    ensures Services in px.table && Services in Drop(px, t).table && s in Drop(px, t).meta.clusterIPs
    ensures Services in Drop(px, s).table && t in Drop(px, s).meta.clusterIPs
    ensures Drop(Drop(px, t), s) == Drop(Drop(px, s), t)
  {
    hide Refines, Without, EntriesOf, ServiceChainsOf, PodChainsOf;
    ChainsStay(px, s, t);
    ChainsStay(px, t, s);
    NextStays(px, s);
    NextStays(px, t);
    PodChainsAfter(px, s, t);
    PodChainsAfter(px, t, s);
    var a, b := Drop(px, t), Drop(px, s);
    var es, fs := px.meta.Chains(s), px.meta.Chains(t);
    EntriesSame(px.meta, a.meta, s, es);
    EntriesSame(px.meta, b.meta, t, fs);
    var mine, others := EntriesOf(px.meta, s, es), EntriesOf(px.meta, t, fs);
    WithoutTwice(px.table[Services], others, mine);
    WithoutTwice(px.table[Services], mine, others);
    assert others + mine == mine + others;
    DropIs(px, s);
    DropIs(px, t);
    DropIs(a, s);
    DropIs(b, t);
    DropTables(px.table, Gone(px, t), a.table[Services], Gone(px, s), b.table[Services], Drop(a, s).table[Services]);
    assert Drop(a, s).meta == Drop(b, t).meta;
  }

  lemma PodChainsAfter(px: Proxy, s: string, t: string)
    requires Refines(px) && s in px.meta.clusterIPs && t != s
    ensures Services in px.table
    ensures PodChainsOf(Drop(px, s).meta, px.meta.Chains(t)) == PodChainsOf(px.meta, px.meta.Chains(t))
  {
    OtherKept(px, s, t);
    assert forall e | e in px.meta.Chains(t) :: InService(px.meta, t, e);
  }

  // ---- composite operations ----

  lemma {:induction false} DeleteAttachAll(px: Proxy, s: string, t: string, e: ServiceEntry, ms: seq<Member>, k: nat)
    requires Refines(px) && s in px.meta.clusterIPs && t != s && InService(px.meta, t, e) && k <= |ms|
    ensures InService(Delete(px, s).meta, t, e)
    ensures Delete(AttachAll(px, t, e, ms, k), s) == AttachAll(Delete(px, s), t, e, ms, k)
  {
    hide Refines, Attach, Drop;
    OtherThere(px, s, t, e);
    if k > 0 {
      DeleteAttachAll(px, s, t, e, ms, k - 1);
      var before := AttachAll(px, t, e, ms, k - 1);
      DropAttachOther(before, s, t, e, ms[k - 1]);
    }
  }

  lemma OtherThere(px: Proxy, s: string, t: string, e: ServiceEntry)
    requires Refines(px) && s in px.meta.clusterIPs && t != s && InService(px.meta, t, e)
    ensures InService(Delete(px, s).meta, t, e)
  {
    OtherKept(px, s, t);
  }

  lemma {:induction false} DeleteCreatePorts(px: Proxy, s: string, t: string, ports: seq<ServicePort>, ms: seq<Member>, k: nat)
    requires Refines(px) && s in px.meta.clusterIPs && t in px.meta.clusterIPs && t != s && k <= |ports|
    ensures t in Delete(px, s).meta.clusterIPs
    ensures Delete(CreatePorts(px, t, ports, ms, k), s) == CreatePorts(Delete(px, s), t, ports, ms, k)
  {
    hide Refines, AttachAll, OpenPort, Drop;
    StillThere(px, s, t);
    if k > 0 {
      DeleteCreatePorts(px, s, t, ports, ms, k - 1);
      var before := CreatePorts(px, t, ports, ms, k - 1);
      DropOpenOther(before, s, t, ports[k - 1]);
      DrawnKept(before, s);
      DeleteAttachAll(OpenPort(before, t, ports[k - 1]), s, t, Opened(before, ports[k - 1]), ms, |ms|);
    }
  }

  lemma StillThere(px: Proxy, s: string, t: string)
    requires Refines(px) && s in px.meta.clusterIPs && t != s
    ensures t in Delete(px, s).meta.clusterIPs <==> t in px.meta.clusterIPs
    ensures Delete(px, s).meta.Chains(t) == px.meta.Chains(t)
  {
    OtherKept(px, s, t);
  }

  lemma DrawnKept(px: Proxy, s: string)
    requires Refines(px)
    ensures Delete(px, s).drawn == px.drawn
  {
  }

  lemma DeleteCreate(px: Proxy, s: string, t: string, clusterIP: string, ports: seq<ServicePort>, ms: seq<Member>)
    requires Refines(px) && s in px.meta.clusterIPs && t != s
    ensures Delete(Create(px, t, clusterIP, ports, ms), s) == Create(Delete(px, s), t, clusterIP, ports, ms)
  {
    hide Refines, CreatePorts, Drop;
    StillThere(px, s, t);
    if t !in px.meta.clusterIPs {
      AnnounceRefines(px, t, clusterIP);
      DropAnnounceOther(px, s, t, clusterIP);
      DeleteCreatePorts(Announce(px, t, clusterIP), s, t, ports, ms, |ports|);
    }
  }

  lemma {:induction false} DeleteAttachEach(px: Proxy, s: string, t: string, m: Member, k: nat)
    requires Refines(px) && s in px.meta.clusterIPs && t != s && k <= |px.meta.Chains(t)|
    ensures Delete(px, s).meta.Chains(t) == px.meta.Chains(t)
    ensures Delete(AttachEach(px, t, m, k), s) == AttachEach(Delete(px, s), t, m, k)
  {
    hide Refines, Attach, Drop;
    StillThere(px, s, t);
    if k > 0 {
      DeleteAttachEach(px, s, t, m, k - 1);
      var before := AttachEach(px, t, m, k - 1);
      assert InService(before.meta, t, px.meta.Chains(t)[k - 1]);
      DropAttachOther(before, s, t, px.meta.Chains(t)[k - 1], m);
    }
  }

  lemma {:induction false} DeleteAddTo(px: Proxy, s: string, services: seq<string>, m: Member, k: nat)
    requires Refines(px) && s in px.meta.clusterIPs && s !in services && k <= |services|
    ensures Delete(AddTo(px, services, m, k), s) == AddTo(Delete(px, s), services, m, k)
  {
    hide Refines, AttachEach, Delete;
    if k > 0 {
      DeleteAddTo(px, s, services, m, k - 1);
      var before := AddTo(px, services, m, k - 1);
      StillThere(before, s, services[k - 1]);
      if services[k - 1] in before.meta.clusterIPs {
        DeleteAttachEach(before, s, services[k - 1], m, |before.meta.Chains(services[k - 1])|);
      }
    }
  }

  lemma {:induction false} DeleteDetachEach(px: Proxy, s: string, t: string, pod: string, k: nat)
    requires Refines(px) && DistinctPods(px) && s in px.meta.clusterIPs && t != s && k <= |px.meta.Chains(t)|
    ensures DistinctPods(Delete(px, s)) && Delete(px, s).meta.Chains(t) == px.meta.Chains(t)
    ensures Delete(DetachEach(px, t, pod, k), s) == DetachEach(Delete(px, s), t, pod, k)
  {
    hide Refines, DistinctPods, Detach, Drop;
    StillThere(px, s, t);
    DeleteDistinct(px, s);
    if k > 0 {
      DeleteDetachEach(px, s, t, pod, k - 1);
      var before := DetachEach(px, t, pod, k - 1);
      assert InService(before.meta, t, px.meta.Chains(t)[k - 1]);
      DetachDistinct(before, t, px.meta.Chains(t)[k - 1], pod);
      DropDetachOther(before, s, t, px.meta.Chains(t)[k - 1], pod);
    }
  }

  lemma {:induction false} DeleteRemoveFrom(px: Proxy, s: string, services: seq<string>, pod: string, k: nat)
    requires Refines(px) && DistinctPods(px) && s in px.meta.clusterIPs && s !in services && k <= |services|
    ensures DistinctPods(Delete(px, s))
    ensures Delete(RemoveFrom(px, services, pod, k), s) == RemoveFrom(Delete(px, s), services, pod, k)
  {
    hide Refines, DistinctPods, DetachEach, Delete;
    DeleteDistinct(px, s);
    if k > 0 {
      DeleteRemoveFrom(px, s, services, pod, k - 1);
      var before := RemoveFrom(px, services, pod, k - 1);
      StillThere(before, s, services[k - 1]);
      if services[k - 1] in before.meta.clusterIPs {
        DeleteDetachEach(before, s, services[k - 1], pod, |before.meta.Chains(services[k - 1])|);
      }
    }
  }

  lemma DeleteDelete(px: Proxy, s: string, t: string)
    requires Refines(px) && s in px.meta.clusterIPs && t != s
    ensures Delete(Delete(px, t), s) == Delete(Delete(px, s), t)
  {
    hide Refines, Drop;
    StillThere(px, s, t);
    if t in px.meta.clusterIPs {
      DropDropOther(px, s, t);
    }
  }

  /** A call that names several services is several calls. */
  lemma {:induction false} AddToSplits(px: Proxy, a: seq<string>, b: seq<string>, m: Member, k: nat)
    requires Refines(px) && k <= |b|
    ensures AddTo(px, a + b, m, |a| + k) == AddTo(AddTo(px, a, m, |a|), b, m, k)
  {
    hide Refines, AttachEach;
    if k > 0 {
      AddToSplits(px, a, b, m, k - 1);
    } else {
      AddToPrefix(px, a, b, m, |a|);
    }
  }

  lemma {:induction false} AddToPrefix(px: Proxy, a: seq<string>, b: seq<string>, m: Member, k: nat)
    requires Refines(px) && k <= |a|
    ensures AddTo(px, a + b, m, k) == AddTo(px, a, m, k)
  {
    hide Refines, AttachEach;
    if k > 0 {
      AddToPrefix(px, a, b, m, k - 1);
    }
  }

  lemma {:induction false} RemoveFromSplits(px: Proxy, a: seq<string>, b: seq<string>, pod: string, k: nat)
    requires Refines(px) && DistinctPods(px) && k <= |b|
    ensures RemoveFrom(px, a + b, pod, |a| + k) == RemoveFrom(RemoveFrom(px, a, pod, |a|), b, pod, k)
  {
    hide Refines, DistinctPods, DetachEach;
    if k > 0 {
      RemoveFromSplits(px, a, b, pod, k - 1);
    } else {
      RemoveFromPrefix(px, a, b, pod, |a|);
    }
  }

  lemma {:induction false} RemoveFromPrefix(px: Proxy, a: seq<string>, b: seq<string>, pod: string, k: nat)
    requires Refines(px) && DistinctPods(px) && k <= |a|
    ensures RemoveFrom(px, a + b, pod, k) == RemoveFrom(px, a, pod, k)
  {
    hide Refines, DistinctPods, DetachEach;
    if k > 0 {
      RemoveFromPrefix(px, a, b, pod, k - 1);
    }
  }

  // ---- runs ----

  /** An operation on other services only. */
  predicate Elsewhere(op: Op, s: string) {
    match op
    case CreateService(t, _, _, _) => t != s
    case DeleteService(t) => t != s
    case AddPod(services, _) => s !in services
    case DeletePod(services, _) => s !in services
  }

  /** Deleting a service before or after an operation on others makes no difference, down to the chain numbers. */
  lemma StepElsewhere(px: Proxy, op: Op, s: string)
    requires Refines(px) && DistinctPods(px) && s in px.meta.clusterIPs && Elsewhere(op, s)
    ensures DistinctPods(Delete(px, s)) && s in Step(px, op).meta.clusterIPs
    ensures Delete(Step(px, op), s) == Step(Delete(px, s), op)
  {
    hide Refines, DistinctPods, Create, Delete, AddTo, RemoveFrom;
    DeleteDistinct(px, s);
    match op
    case CreateService(t, ip, ports, ms) =>
      DeleteCreate(px, s, t, ip, ports, ms);
      CreateKeepsService(px, s, t, ip, ports, ms);
    case DeleteService(t) =>
      DeleteDelete(px, s, t);
      if t in px.meta.clusterIPs {
        StillThere(px, t, s);
      } else {
        AbsentDelete(px, t);
      }
    case AddPod(services, m) => DeleteAddTo(px, s, services, m, |services|);
    case DeletePod(services, pod) => DeleteRemoveFrom(px, s, services, pod, |services|);
  }

  lemma AbsentDelete(px: Proxy, t: string)
    requires Refines(px) && t !in px.meta.clusterIPs
    ensures Delete(px, t) == px
  {
  }

  lemma CreateKeepsService(px: Proxy, s: string, t: string, ip: string, ports: seq<ServicePort>, ms: seq<Member>)
    requires Refines(px) && s in px.meta.clusterIPs && t != s
    ensures s in Create(px, t, ip, ports, ms).meta.clusterIPs
  {
    hide Refines, Create, Lists, MemberNames, Names;
    if t in px.meta.clusterIPs {
      CreateExisting(px, t, ip, ports, ms);
    } else {
      CreateLists(px, t, ip, ports, ms);
    }
  }

  /** `rest` is a run of the operations on other services alone; those on the service itself only use up numbers. */
  ghost predicate RunsWithout(rest: seq<Proxy>, ops: seq<Op>, s: string) {
    |rest| == |ops| + 1 &&
    forall j | 0 <= j < |ops| ::
      Refines(rest[j]) && DistinctPods(rest[j]) &&
      if Elsewhere(ops[j], s) then rest[j + 1] == Step(rest[j], ops[j]) else Same(rest[j + 1], rest[j])
  }

  /** A service is created, arbitrary operations on its pods and on other services follow, and it is deleted: the nat
      table and the record are what the operations on the others alone leave, from the state before the creation. */
  lemma DeleteLeavesOthers(states: seq<Proxy>, ops: seq<Op>, s: string) returns (rest: seq<Proxy>)
    requires IsRun(states, ops) && |ops| >= 2
    requires ops[0].CreateService? && ops[0].service == s && s !in states[0].meta.clusterIPs
    requires forall j | 1 <= j < |ops| - 1 :: OnlyFor(ops[j], s) || Elsewhere(ops[j], s)
    requires ops[|ops| - 1] == DeleteService(s)
    ensures RunsWithout(rest, ops[1..|ops| - 1], s)
    ensures Same(rest[0], states[0]) && rest[|ops| - 2] == states[|ops|]
  {
    hide Refines, DistinctPods, Sensible, Delete, Same, Create;
    var n := |ops| - 1;
    RunRefines(states, ops, 0);
    RunRefines(states, ops, n);
    CreateLists(states[0], s, ops[0].clusterIP, ops[0].ports, ops[0].members);
    DeleteCreated(states[0], s, ops[0].clusterIP, ops[0].ports, ops[0].members);
    rest := RestOf(states, ops, s, n);
  }

  /** The states after the first k operations, each without the service. */
  lemma {:induction false} RestOf(states: seq<Proxy>, ops: seq<Op>, s: string, k: nat) returns (rest: seq<Proxy>)
    requires IsRun(states, ops) && 1 <= k <= |ops|
    requires Refines(states[1]) && s in states[1].meta.clusterIPs
    requires forall j | 1 <= j < k :: OnlyFor(ops[j], s) || Elsewhere(ops[j], s)
    ensures Refines(states[k]) && s in states[k].meta.clusterIPs
    ensures RunsWithout(rest, ops[1..k], s) && rest[0] == Delete(states[1], s) && rest[k - 1] == Delete(states[k], s)
    decreases k
  {
    hide Refines, DistinctPods, Sensible, Delete, Same, Step;
    if k == 1 {
      rest := [Delete(states[1], s)];
    } else {
      var before := RestOf(states, ops, s, k - 1);
      RunRefines(states, ops, k - 1);
      RunRefines(states, ops, k);
      DeleteDistinct(states[k - 1], s);
      rest := before + [Delete(states[k], s)];
      assert ops[1..k] == ops[1..k - 1] + [ops[k - 1]];
      if Elsewhere(ops[k - 1], s) {
        StepElsewhere(states[k - 1], ops[k - 1], s);
      } else {
        OwnStepInvisible(states[k - 1], ops[k - 1], s);
      }
    }
  }
}
