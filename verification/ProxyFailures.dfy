/**
 Where calls of the proxy leave the nat table and the record apart, and exactly when.
 */
module ProxyFailures {
  import opened Sequences
  import opened Iptables
  import opened ServiceMeta
  import opened ProxyState
  import opened ProxyInvariants
  import opened ProxyOps
  import opened ProxyLoops
  import opened ProxyListing
  import opened ProxyEviction
  import opened ProxyRuns

  // ---- a pod that is listed twice ----

  lemma {:induction false} OccurrencesAppend(pods: seq<PodEntry>, p: PodEntry, pod: string)
    ensures Occurrences(pods + [p], pod) == Occurrences(pods, pod) + if p.pod == pod then 1 else 0
  {
    if pods == [] {
      assert pods + [p] == [p] && [p][1..] == [];
    } else {
      assert (pods + [p])[1..] == pods[1..] + [p];
      OccurrencesAppend(pods[1..], p, pod);
    }
  }

  /** Evicting a pod from one chain keeps rules and record in step exactly when the chain lists it at most once. */
  lemma EvictRefinesIff(px: Proxy, service: string, e: ServiceEntry, pod: string)
    requires Refines(px) && InService(px.meta, service, e)
    ensures Refines(Evict(px, e, pod)) <==> Occurrences(px.meta.Pods(e.chain), pod) <= 1
  {
    EvictIsDetach(px, service, e, pod);
    DetachRefinesIff(px, service, e, pod);
  }

  /** A service with one port in any state of any run. A pod is added to it, added again, and removed once: a record
      of the pod is left whose chain does not exist, so rules and record are out of step, and the chain of the service
      leads nowhere. */
  lemma DuplicateBreaks(px: Proxy, service: string, clusterIP: string, port: ServicePort, m: Member)
    requires Refines(px) && service !in px.meta.clusterIPs
    ensures var made := Create(px, service, clusterIP, [port], []);
      var twice := AddTo(AddTo(made, [service], m, 1), [service], m, 1);
      && Refines(twice) && Wired(twice)
      && var r := EvictFrom(twice, [service], m.pod, 1);
      && !Refines(r)
      && r.meta.Chains(service) != []
      && forall e | InService(r.meta, service, e) :: e.chain in r.table && r.table[e.chain] == []
  {
    hide Refines, Wired, Evict, Names, MemberNames;
    var made := Create(px, service, clusterIP, [port], []);
    hide Create;
    CreateLists(px, service, clusterIP, [port], []);
    var e := made.meta.Chains(service)[0];
    assert InService(made.meta, service, e);
    var once := AddTo(made, [service], m, 1);
    AddedOnce(made, service, e, m);
    var twice := AddTo(once, [service], m, 1);
    AddedOnce(once, service, e, m);
    RefinesWired(twice);
    EvictedOnce(twice, service, e, m.pod);
    EvictRefinesIff(twice, service, e, m.pod);
    NobodyElse(made, service, e, m);
    EvictIsDetach(twice, service, e, m.pod);
  }

  /** No other pod is in the chain. */
  lemma NobodyElse(px: Proxy, service: string, e: ServiceEntry, m: Member)
    requires Refines(px) && Lists(px, service, []) && service in px.meta.clusterIPs && InService(px.meta, service, e)
    ensures var twice := AddTo(AddTo(px, [service], m, 1), [service], m, 1);
      Others(twice.meta.Pods(e.chain), m.pod) == []
  {
    hide Refines, AddTo, Names;
    var once := AddTo(px, [service], m, 1);
    var twice := AddTo(once, [service], m, 1);
    var none: seq<string> := [];
    assert [service][..1] == [service];
    AddToLists(px, [service], m, 1, service, none);
    assert Lists(once, service, none + [m.pod]);
    AddToLists(once, [service], m, 1, service, [m.pod]);
    assert none + [m.pod] == [m.pod];
    assert InService(twice.meta, service, e);
    OthersNames(twice.meta.Pods(e.chain), m.pod);
    assert ([m.pod] + [m.pod])[1..] == [m.pod] && [m.pod][1..] == [];
  }

  lemma AddedOnce(px: Proxy, service: string, e: ServiceEntry, m: Member)
    requires Refines(px) && px.meta.Chains(service) == [e] && service in px.meta.clusterIPs
    ensures var r := AddTo(px, [service], m, 1);
      && r.meta.Chains(service) == [e] && InService(r.meta, service, e) && service in r.meta.clusterIPs
      && Occurrences(r.meta.Pods(e.chain), m.pod) == Occurrences(px.meta.Pods(e.chain), m.pod) + 1
  {
    hide Refines, Attach;
    assert AddTo(px, [service], m, 0) == px && AttachEach(px, service, m, 0) == px;
    assert InService(px.meta, service, e);
    AttachRefines(px, service, e, m);
    AttachedRecord(px, e, m);
  }

  lemma AttachedRecord(px: Proxy, e: ServiceEntry, m: Member)
    requires e.chain in px.table
    ensures Occurrences(Attach(px, e, m).meta.Pods(e.chain), m.pod) == Occurrences(px.meta.Pods(e.chain), m.pod) + 1
  {
    OccurrencesAppend(px.meta.Pods(e.chain), PodEntry(Chain.PodChain(|px.drawn|), m.pod, m.ip), m.pod);
  }

  lemma EvictedOnce(px: Proxy, service: string, e: ServiceEntry, pod: string)
    requires Wired(px) && px.meta.Chains(service) == [e] && service in px.meta.clusterIPs
    ensures EvictFrom(px, [service], pod, 1) == Evict(px, e, pod)
  {
    hide Wired, Evict;
    assert EvictFrom(px, [service], pod, 0) == px && EvictEach(px, service, pod, 0) == px;
  }

  // ---- a service with a pod whose address does not parse ----

  /** The chains of every service on record stay on record as long as only others are joined. */
  lemma {:induction false} JoinedKeeps(px: Proxy, e: ServiceEntry, ms: seq<Member>, k: nat)
    requires e.chain in px.table && k <= |ms|
    ensures var r := JoinedBy(px, e, ms, k);
      && r.meta.serviceChains == px.meta.serviceChains
      && |r.drawn| >= |px.drawn| && r.drawn[..|px.drawn|] == px.drawn
      && (k > 0 ==> e.chain in r.meta.podChains)
  {
    if k > 0 {
      JoinedKeeps(px, e, ms, k - 1);
    }
  }

  /** A call that stops at an address leaves rules and record in step exactly when it stops at the first one: the
      members before it are recorded in a chain that no service has. */
  lemma AbortedRefinesIff(px: Proxy, service: string, port: ServicePort, ms: seq<Member>, i: nat)
    requires Refines(px) && i < |ms|
    ensures Refines(Aborted(px, service, port, ms, i)) <==> i == 0
  {
    hide Separate, Undrawn, ServicesRefine, PodsRefine, EntriesRefine, JumpsSound, JoinedBy, Attach;
    var e, sprouted := Opened(px, port), Sprouted(px, service, port);
    JoinedKeeps(sprouted, e, ms, i);
    var joined := JoinedBy(sprouted, e, ms, i);
    if i == 0 {
      JoinedNone(sprouted, e, ms);
      SpareRefines(px, e.chain, ForService(service, port));
      LitterRefines(sprouted, e, ms[0]);
    } else {
      NeverRecorded(px, service, port);
      var r := Litter(joined, e, ms[i]);
      assert r.drawn[|px.drawn|] == ForService(service, port);
      if Refines(r) {
        RecordedHere(r, e.chain);
      }
    }
  }

  lemma RecordedHere(px: Proxy, c: Chain)
    requires Refines(px) && c in px.meta.podChains
    ensures OnRecord(px, c)
  {
  }

  lemma NeverRecorded(px: Proxy, service: string, port: ServicePort)
    requires Refines(px)
    ensures !InService(px.meta, service, Opened(px, port))
  {
  }

  // ---- a service whose own address does not parse ----

  lemma {:induction false} UnenteredKeeps(px: Proxy, service: string, clusterIP: string, ports: seq<ServicePort>, ms: seq<Member>, k: nat)
    requires Services in px.table && k <= |ports|
    ensures var r := MappedEach(px, service, clusterIP, false, ports, ms, k);
      r.table[Services] == px.table[Services] && |r.meta.Chains(service)| == |px.meta.Chains(service)| + k
  {
    if k > 0 {
      UnenteredKeeps(px, service, clusterIP, ports, ms, k - 1);
      var before := MappedEach(px, service, clusterIP, false, ports, ms, k - 1);
      JoinedSpares(Sprouted(before, service, ports[k - 1]), Opened(before, ports[k - 1]), ms, |ms|);
    }
  }

  lemma {:induction false} JoinedSpares(px: Proxy, e: ServiceEntry, ms: seq<Member>, k: nat)
    requires e.chain in px.table && e.chain != Services && k <= |ms| && Services in px.table
    ensures var r := JoinedBy(px, e, ms, k);
      r.table[Services] == px.table[Services] && r.meta.serviceChains == px.meta.serviceChains
  {
    if k > 0 {
      JoinedSpares(px, e, ms, k - 1);
    }
  }

  lemma NotEntered(px: Proxy, service: string)
    requires Refines(px) && service !in px.meta.clusterIPs
    ensures forall r | r in px.table[Services] :: r.ToService? && r.service != service
  {
    assert forall r | r in px.table[Services] :: EntryOnRecord(px, r);
  }

  lemma EntryNeeded(px: Proxy, service: string)
    requires Refines(px) && px.meta.Chains(service) != []
    ensures exists r :: r in px.table[Services] && r.ToService? && r.service == service
  {
    var e := px.meta.Chains(service)[0];
    assert InService(px.meta, service, e);
    assert Entry(service, px.meta.clusterIPs[service], e) in px.table[Services];
  }

  /** A service whose address does not parse leaves rules and record in step exactly when it has no ports: every port
      gets a chain on record without an entry rule. */
  lemma UnenteredRefinesIff(px: Proxy, service: string, clusterIP: string, ports: seq<ServicePort>, ms: seq<Member>)
    requires Refines(px) && service !in px.meta.clusterIPs
    ensures Services in px.table
    ensures Refines(Announce(MappedEach(px, service, clusterIP, false, ports, ms, |ports|), service, clusterIP)) <==> ports == []
  {
    hide Refines, MappedEach;
    EntriesOfStart(px);
    MappedZero(px, service, clusterIP, false, ports, ms);
    UnenteredKeeps(px, service, clusterIP, ports, ms, |ports|);
    var r := Announce(MappedEach(px, service, clusterIP, false, ports, ms, |ports|), service, clusterIP);
    if ports == [] {
      AnnounceRefines(px, service, clusterIP);
    } else if Refines(r) {
      EntryNeeded(r, service);
      NotEntered(px, service);
    }
  }

  lemma EntriesOfStart(px: Proxy)
    requires Refines(px)
    ensures Services in px.table
  {
  }
}
