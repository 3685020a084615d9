/**
 Deleting a service undoes creating it: whatever joined and left in between, the nat table and the record
 are what they were before the service was created.
 */
module ProxyUndo {
  import opened Sequences
  import opened Iptables
  import opened ServiceMeta
  import opened ProxyState
  import opened ProxyInvariants
  import opened ProxyOps
  import opened ProxyListing
  import opened ProxyRuns

  /** Equal up to the chain numbers drawn in the meantime. */
  predicate Same(a: Proxy, b: Proxy) {
    a.table == b.table && a.meta == b.meta && a.host == b.host
  }

  lemma HasEntries(px: Proxy)
    requires Refines(px)
    ensures Services in px.table
  {
  }

  lemma DropAnnounced(px: Proxy, service: string, clusterIP: string)
    requires Refines(px) && service !in px.meta.clusterIPs
    ensures Same(Drop(Announce(px, service, clusterIP), service), px)
  {
    hide Refines, Without;
    HasEntries(px);
    NoChainsYet(px, service);
    var r := Announce(px, service, clusterIP);
    assert r.meta.Chains(service) == [];
    assert ServiceChainsOf([]) == {} && PodChainsOf(r.meta, []) == {} && EntriesOf(r.meta, service, []) == {};
    WithoutNothing(px.table[Services], {});
    assert r.meta.clusterIPs - {service} == px.meta.clusterIPs;
    assert r.meta.serviceChains - {service} == px.meta.serviceChains;
    assert r.meta.podChains - {} == px.meta.podChains;
    assert (px.table - {} - {})[Services := px.table[Services]] == px.table;
  }

  lemma ServiceChainsAppend(es: seq<ServiceEntry>, e: ServiceEntry)
    ensures ServiceChainsOf(es + [e]) == ServiceChainsOf(es) + {e.chain}
  {
    assert forall x :: x in es + [e] <==> x in es || x == e;
  }

  lemma PodChainsAppend(meta: Meta, es: seq<ServiceEntry>, e: ServiceEntry)
    requires meta.Pods(e.chain) == []
    ensures PodChainsOf(meta, es + [e]) == PodChainsOf(meta, es)
  {
    assert forall x :: x in es + [e] <==> x in es || x == e;
  }

  lemma EntriesAppend(meta: Meta, service: string, es: seq<ServiceEntry>, e: ServiceEntry)
    requires service in meta.clusterIPs
    ensures EntriesOf(meta, service, es + [e]) ==
      EntriesOf(meta, service, es) + {Entry(service, meta.clusterIPs[service], e)}
  {
    assert forall x :: x in es + [e] <==> x in es || x == e;
  }

  lemma PodChainsSame(a: Meta, b: Meta, es: seq<ServiceEntry>)
    requires forall e | e in es :: a.Pods(e.chain) == b.Pods(e.chain)
    ensures PodChainsOf(a, es) == PodChainsOf(b, es)
  {
  }

  /** The entry rule of a chain that is not drawn yet is not in the table. */
  lemma EntryIsNew(px: Proxy, service: string, port: ServicePort)
    requires Refines(px) && service in px.meta.clusterIPs
    ensures Entry(service, px.meta.clusterIPs[service], Opened(px, port)) !in px.table[Services]
    ensures Opened(px, port).chain !in px.table
    ensures px.meta.Pods(Opened(px, port).chain) == []
    ensures Opened(px, port).chain !in px.meta.podChains
  {
  }

  lemma DropOpened(px: Proxy, service: string, port: ServicePort)
    requires Refines(px) && service in px.meta.clusterIPs
    ensures Same(Drop(OpenPort(px, service, port), service), Drop(px, service))
  {
    hide Refines, Without, EntriesOf, ServiceChainsOf, PodChainsOf;
    HasEntries(px);
    var r := OpenPort(px, service, port);
    var es, e := px.meta.Chains(service), Opened(px, port);
    EntryIsNew(px, service, port);
    assert r.meta.Chains(service) == es + [e];
    ServiceChainsAppend(es, e);
    PodChainsAppend(r.meta, es, e);
    PodChainsSame(px.meta, r.meta, es);
    EntriesAppend(px.meta, service, es, e);
    assert EntriesOf(r.meta, service, es + [e]) == EntriesOf(px.meta, service, es + [e]) by {
      EntriesSame(px.meta, r.meta, service, es + [e]);
    }
    var rule := Entry(service, px.meta.clusterIPs[service], e);
    var gone := EntriesOf(px.meta, service, es);
    WithoutHead(px.table[Services], gone, rule);
    assert r.table[Services] == [rule] + px.table[Services];
    assert Drop(r, service).table == Drop(px, service).table;
    assert Drop(r, service).meta == Drop(px, service).meta;
  }

  lemma EntriesSame(a: Meta, b: Meta, service: string, es: seq<ServiceEntry>)
    requires service in a.clusterIPs && service in b.clusterIPs && a.clusterIPs[service] == b.clusterIPs[service]
    ensures EntriesOf(a, service, es) == EntriesOf(b, service, es)
  {
  }

  lemma WithoutHead(xs: seq<Rule>, gone: set<Rule>, x: Rule)
    requires x !in xs
    ensures Without([x] + xs, gone + {x}) == Without(xs, gone)
  {
    WithoutSame(xs, gone + {x}, gone);
  }

  lemma PodChainsAttach(px: Proxy, es: seq<ServiceEntry>, e: ServiceEntry, m: Member)
    requires e in es && e.chain in px.table
    ensures PodChainsOf(Attach(px, e, m).meta, es) == PodChainsOf(px.meta, es) + {Chain.PodChain(|px.drawn|)}
  {
  }

  lemma ServiceChainIn(es: seq<ServiceEntry>, e: ServiceEntry)
    requires e in es
    ensures e.chain in ServiceChainsOf(es)
  {
  }

  lemma ChainFacts(px: Proxy, service: string, e: ServiceEntry)
    requires Refines(px) && InService(px.meta, service, e)
    ensures e.chain in px.table && e.chain.ServiceChain? && service in px.meta.clusterIPs
    ensures Chain.PodChain(|px.drawn|) !in px.table
    ensures Services in px.table
  {
  }

  lemma DropAttached(px: Proxy, service: string, e: ServiceEntry, m: Member)
    requires Refines(px) && InService(px.meta, service, e)
    ensures e.chain in px.table && service in px.meta.clusterIPs && Services in px.table
    ensures Same(Drop(Attach(px, e, m), service), Drop(px, service))
  {
    hide Refines, Without, EntriesOf, ServiceChainsOf, PodChainsOf;
    ChainFacts(px, service, e);
    var r := Attach(px, e, m);
    var es := px.meta.Chains(service);
    PodChainsAttach(px, es, e, m);
    ServiceChainIn(es, e);
    EntriesSame(px.meta, r.meta, service, es);
    assert r.table[Services] == px.table[Services];
    assert Drop(r, service).table == Drop(px, service).table;
    assert Drop(r, service).meta == Drop(px, service).meta;
  }

  lemma PodChainsDetach(px: Proxy, service: string, e: ServiceEntry, pod: string)
    requires Refines(px) && InService(px.meta, service, e) && Occurrences(px.meta.Pods(e.chain), pod) <= 1
    ensures var es := px.meta.Chains(service);
      && PodChainsOf(px.meta, es) ==
         PodChainsOf(Detach(px, e, pod).meta, es) + ChainsOf(px.meta.Pods(e.chain), pod)
      && Services !in ChainsOf(px.meta.Pods(e.chain), pod)
  {
    var es := px.meta.Chains(service);
    var r := Detach(px, e, pod);
    DetachKeeps(px, e, pod);
    DeletedArePodChains(px, e, pod);
    var gone := ChainsOf(px.meta.Pods(e.chain), pod);
    forall c | c in PodChainsOf(px.meta, es) ensures c in PodChainsOf(r.meta, es) + gone {
      var x, p :| x in es && p in px.meta.Pods(x.chain) && p.chain == c;
      if x.chain == e.chain && p.pod == pod {
      } else {
        assert InChain(px.meta, x.chain, p) && InChain(r.meta, x.chain, p);
      }
    }
    forall c | c in PodChainsOf(r.meta, es) + gone ensures c in PodChainsOf(px.meta, es) {
      if c in gone {
        var p :| p in px.meta.Pods(e.chain) && p.chain == c;
      } else {
        var x, p :| x in es && p in r.meta.Pods(x.chain) && p.chain == c;
        assert InChain(r.meta, x.chain, p) && InChain(px.meta, x.chain, p);
      }
    }
  }

  lemma DropDetached(px: Proxy, service: string, e: ServiceEntry, pod: string)
    requires Refines(px) && InService(px.meta, service, e) && Occurrences(px.meta.Pods(e.chain), pod) <= 1
    ensures service in px.meta.clusterIPs && Services in px.table && Services in Detach(px, e, pod).table
    ensures Same(Drop(Detach(px, e, pod), service), Drop(px, service))
  {
    hide Refines, Without, EntriesOf, ServiceChainsOf, PodChainsOf, ChainsOf, Others, RemovePod, ServiceRules;
    ChainFacts(px, service, e);
    var r := Detach(px, e, pod);
    var es := px.meta.Chains(service);
    PodChainsDetach(px, service, e, pod);
    ServiceChainIn(es, e);
    EntriesSame(px.meta, r.meta, service, es);
    assert r.table[Services] == px.table[Services];
    assert Drop(r, service).table == Drop(px, service).table;
    assert Drop(r, service).meta == Drop(px, service).meta;
  }

  // ---- composite operations ----

  lemma {:induction false} DropAttachAll(px: Proxy, service: string, e: ServiceEntry, ms: seq<Member>, k: nat)
    requires Refines(px) && InService(px.meta, service, e) && k <= |ms| && service in px.meta.clusterIPs
    ensures Same(Delete(AttachAll(px, service, e, ms, k), service), Delete(px, service))
  {
    hide Refines, Attach, Drop;
    if k > 0 {
      DropAttachAll(px, service, e, ms, k - 1);
      var before := AttachAll(px, service, e, ms, k - 1);
      DropAttached(before, service, e, ms[k - 1]);
    }
  }

  lemma {:induction false} DropCreatePorts(px: Proxy, service: string, ports: seq<ServicePort>, ms: seq<Member>, k: nat)
    requires Refines(px) && service in px.meta.clusterIPs && k <= |ports|
    ensures Same(Delete(CreatePorts(px, service, ports, ms, k), service), Delete(px, service))
  {
    hide Refines, AttachAll, OpenPort, Drop;
    if k > 0 {
      DropCreatePorts(px, service, ports, ms, k - 1);
      var before := CreatePorts(px, service, ports, ms, k - 1);
      DropOpened(before, service, ports[k - 1]);
      DropAttachAll(OpenPort(before, service, ports[k - 1]), service, Opened(before, ports[k - 1]), ms, |ms|);
    }
  }

  lemma DeleteCreated(px: Proxy, service: string, clusterIP: string, ports: seq<ServicePort>, ms: seq<Member>)
    requires Refines(px) && service !in px.meta.clusterIPs
    ensures Same(Delete(Create(px, service, clusterIP, ports, ms), service), px)
  {
    hide Refines, CreatePorts, Drop;
    AnnounceRefines(px, service, clusterIP);
    DropCreatePorts(Announce(px, service, clusterIP), service, ports, ms, |ports|);
    DropAnnounced(px, service, clusterIP);
  }

  lemma {:induction false} DropAttachEach(px: Proxy, service: string, m: Member, k: nat)
    requires Refines(px) && service in px.meta.clusterIPs && k <= |px.meta.Chains(service)|
    ensures Same(Delete(AttachEach(px, service, m, k), service), Delete(px, service))
  {
    hide Refines, Attach, Drop;
    if k > 0 {
      DropAttachEach(px, service, m, k - 1);
      var before := AttachEach(px, service, m, k - 1);
      assert InService(before.meta, service, px.meta.Chains(service)[k - 1]);
      DropAttached(before, service, px.meta.Chains(service)[k - 1], m);
    }
  }

  lemma {:induction false} DropDetachEach(px: Proxy, service: string, pod: string, k: nat)
    requires Refines(px) && DistinctPods(px) && service in px.meta.clusterIPs && k <= |px.meta.Chains(service)|
    ensures Same(Delete(DetachEach(px, service, pod, k), service), Delete(px, service))
  {
    hide Refines, DistinctPods, Detach, Drop;
    if k > 0 {
      DropDetachEach(px, service, pod, k - 1);
      var before := DetachEach(px, service, pod, k - 1);
      var e := px.meta.Chains(service)[k - 1];
      assert InService(before.meta, service, e);
      DetachDistinct(before, service, e, pod);
      DropDetached(before, service, e, pod);
    }
  }

  /** An operation on the pods of this service only. */
  predicate OnlyFor(op: Op, service: string) {
    (op.AddPod? || op.DeletePod?) && op.services == [service]
  }

  lemma OwnStepInvisible(px: Proxy, op: Op, service: string)
    requires Refines(px) && DistinctPods(px) && service in px.meta.clusterIPs && OnlyFor(op, service)
    ensures service in Step(px, op).meta.clusterIPs
    ensures Same(Delete(Step(px, op), service), Delete(px, service))
  {
    hide Refines, DistinctPods, AttachEach, DetachEach, Drop;
    if op.AddPod? {
      assert AddTo(px, op.services, op.member, 0) == px;
      DropAttachEach(px, service, op.member, |px.meta.Chains(service)|);
    } else {
      assert RemoveFrom(px, op.services, op.pod, 0) == px;
      DropDetachEach(px, service, op.pod, |px.meta.Chains(service)|);
    }
  }

  lemma {:induction false} OwnRunInvisible(states: seq<Proxy>, ops: seq<Op>, service: string, i: nat)
    requires IsRun(states, ops) && 1 <= i < |states|
    requires ops[0].CreateService? && ops[0].service == service && service !in states[0].meta.clusterIPs
    requires forall j | 1 <= j < i :: OnlyFor(ops[j], service)
    ensures Refines(states[i]) && service in states[i].meta.clusterIPs
    ensures Same(Delete(states[i], service), states[0])
    decreases i
  {
    hide Refines, DistinctPods, Sensible, Delete, Same;
    RunRefines(states, ops, i - 1);
    RunRefines(states, ops, i);
    if i == 1 {
      var op := ops[0];
      hide Create;
      CreateLists(states[0], service, op.clusterIP, op.ports, op.members);
      DeleteCreated(states[0], service, op.clusterIP, op.ports, op.members);
    } else {
      OwnRunInvisible(states, ops, service, i - 1);
      hide Step;
      OwnStepInvisible(states[i - 1], ops[i - 1], service);
      SameTransitive(Delete(states[i], service), Delete(states[i - 1], service), states[0]);
    }
  }

  lemma SameTransitive(a: Proxy, b: Proxy, c: Proxy)
    requires Same(a, b) && Same(b, c)
    ensures Same(a, c)
  {
  }

  /** A run that creates a service, moves any pods in and out of it and deletes it ends with the nat table
      and the three maps it began with. */
  lemma DeleteUndoesCreate(states: seq<Proxy>, ops: seq<Op>, service: string)
    requires IsRun(states, ops) && |ops| >= 2
    requires ops[0].CreateService? && ops[0].service == service && service !in states[0].meta.clusterIPs
    requires forall j | 1 <= j < |ops| - 1 :: OnlyFor(ops[j], service)
    requires ops[|ops| - 1] == DeleteService(service)
    ensures Same(states[|ops|], states[0])
  {
    hide Refines, DistinctPods, Sensible, Delete, Same;
    OwnRunInvisible(states, ops, service, |ops| - 1);
    RunRefines(states, ops, |ops| - 1);
  }
}
