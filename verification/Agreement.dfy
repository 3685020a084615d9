/**
 The API server together with the proxy of a node: at every moment the node's chains hold the pods of the
 server's service lists, in the same order, plus pods whose deletion notice is still under way.
 */
module Agreement {
  import opened Sequences
  import opened Core
  import opened Cluster
  import opened ClusterInvariants
  import opened ClusterSteps
  import opened ClusterHandlers
  import opened ClusterEvents
  import opened ClusterDeletion
  import opened ClusterRuns
  import opened Drift
  import opened ClusterListing
  import S = ServiceMeta
  import N = ProxyState
  import O = ProxyOps
  import L = ProxyListing
  import X = ProxyRuns
  import Addresses

  /** The services whose selector the labels contain, in the order in which the server happens to list them. */
  ghost predicate Listing(ix: Index, labels: Labels, names: seq<string>) {
    NoDup(names) && forall k :: k in names <==> Selects(ix, k, labels)
  }

  /** What the server sends about a pod: its name and address. The node knows which pods are its own. */
  predicate Sent(ix: Index, home: string -> bool, m: N.Member) {
    m.pod in ix.pods && m.ip == ix.pods[m.pod].ip && (m.sameHost <==> home(m.pod))
  }

  /** What the server makes the node do in this step. The calls succeed, except that a node may refuse the one about a
      pod that has become ready. */
  ghost predicate NodeReacts(home: string -> bool, s: State, op: Op, px: N.Proxy, qx: N.Proxy)
    requires N.Refines(px) && N.DistinctPods(px)
  {
    match op
    case AddService(svc, order) =>
      if svc.name in s.ix.services then qx == px
      else
        && svc.clusterIP.Some?
        && var ip := Addresses.Text(svc.clusterIP.value);
        exists ms ::
          L.MemberNames(ms) == order && (forall m | m in ms :: Sent(s.ix, home, m)) && qx == O.Create(px, svc.name, ip, svc.ports, ms)
    case RemoveService(n) =>
      qx == if n in s.ix.services then O.Delete(px, n) else px
    case Report(n, phase, ip, ok) =>
      if BecomesReady(s, n, phase) && ok then
        exists names ::
          Listing(s.ix, s.ix.pods[n].labels, names) && qx == O.AddTo(px, names, N.Member(n, ip, home(n)), |names|)
      else qx == px
    case Notice(n) =>
      n in s.wire && exists names ::
        Listing(s.ix, s.wire[n].pod.labels, names) && qx == O.RemoveFrom(px, names, n, |names|)
    case _ => qx == px
  }

  /** What the node was told about a service agrees with the server: without the pods whose notices are under
      way it is the server's list, and those notices will reach every such entry. */
  ghost predicate Told(s: State, k: string, names: seq<string>) {
    && NoDup(names)
    && k in s.ix.servicesToPods && Without(names, s.wire.Keys) == s.ix.servicesToPods[k]
    && forall n | n in names :: n in s.ix.pods || (n in s.wire && Selects(s.ix, k, s.wire[n].pod.labels))
  }

  /** The chains of every service hold what the node was told, and that agrees with the server. */
  ghost predicate Agree(s: State, px: N.Proxy, told: map<string, seq<string>>) {
    && N.Refines(px) && N.DistinctPods(px)
    && px.meta.clusterIPs.Keys == s.ix.services.Keys == told.Keys
    && forall k | k in told :: L.Lists(px, k, told[k]) && Told(s, k, told[k])
  }

  lemma AgreeParts(s: State, px: N.Proxy, told: map<string, seq<string>>)
    requires Agree(s, px, told)
    ensures N.Refines(px) && N.DistinctPods(px)
    ensures px.meta.clusterIPs.Keys == s.ix.services.Keys == told.Keys
  {
  }

  // ---- the node hears nothing ----

  /** A live pod the node was told about is in the server's list. */
  lemma ToldListed(s: State, k: string, names: seq<string>, n: string)
    requires Sound(s) && Told(s, k, names) && n in names && n in s.ix.pods
    ensures n !in s.wire && Selects(s.ix, k, s.ix.pods[n].labels) && s.ix.pods[n].phase.Counted()
  {
  }

  lemma DriftWithout(s: State, r: State, k: string, names: seq<string>)
    requires Drifts(s, r) && k in s.ix.servicesToPods && Without(names, s.wire.Keys) == s.ix.servicesToPods[k]
    ensures k in r.ix.servicesToPods && Without(names, r.wire.Keys) == r.ix.servicesToPods[k]
  {
    hide Without;
    WithoutTwice(names, s.wire.Keys, r.wire.Keys);
    assert s.wire.Keys + r.wire.Keys == r.wire.Keys;
  }

  lemma DriftLeft(s: State, r: State, k: string, n: string)
    requires Drifts(s, r)
    requires n in s.ix.pods ==> n !in s.wire && Selects(s.ix, k, s.ix.pods[n].labels)
    requires n !in s.ix.pods ==> n in s.wire && Selects(s.ix, k, s.wire[n].pod.labels)
    ensures n in r.ix.pods || (n in r.wire && Selects(r.ix, k, r.wire[n].pod.labels))
  {
    hide Without, IsSubset;
  }

  lemma DriftTold(s: State, r: State, k: string, names: seq<string>)
    requires Sound(s) && Told(s, k, names) && Drifts(s, r)
    ensures Told(r, k, names)
  {
    hide Sound, Drifts, NoDup, Selects, Without;
    DriftWithout(s, r, k, names);
    forall n | n in names ensures n in r.ix.pods || (n in r.wire && Selects(r.ix, k, r.wire[n].pod.labels)) {
      if n in s.ix.pods {
        ToldListed(s, k, names, n);
      }
      DriftLeft(s, r, k, n);
    }
  }

  lemma AgreeDrifts(s: State, r: State, px: N.Proxy, told: map<string, seq<string>>)
    requires Sound(s) && Agree(s, px, told) && Drifts(s, r)
    ensures Agree(r, px, told)
  {
    hide Sound, N.Refines, N.DistinctPods, L.Lists, Told;
    forall k | k in told ensures Told(r, k, told[k]) {
      DriftTold(s, r, k, told[k]);
    }
  }

  // ---- a pod becomes ready ----

  function Extended(ix: Index, k: string, names: seq<string>, pod: Pod): seq<string> {
    if Selects(ix, k, pod.labels) then names + [pod.name] else names
  }

  function Appended(ix: Index, told: map<string, seq<string>>, pod: Pod): map<string, seq<string>> {
    map k | k in told :: Extended(ix, k, told[k], pod)
  }

  lemma JoinedIndex(s: State, name: string, ip: string)
    requires Healthy(s) && name in s.ix.pods && !s.ix.pods[name].phase.Counted()
    ensures name in Joined(s, name, ip, true).ix.pods
    ensures var r := CountReady(Joined(s, name, ip, true), name);
      && r.wire == s.wire && r.ix.services == s.ix.services && r.ix.pods.Keys == s.ix.pods.Keys
      && r.ix.servicesToPods == Appended(s.ix, s.ix.servicesToPods, s.ix.pods[name])
  {
    hide Sound, Kept, CountReady, AfterReady, IsPodUpdated;
    var u := Joined(s, name, ip, true);
    CountReadyIs(u, name);
    OwnerFacts(s, name);
    JoinedParts(s, name, ip, true);
    SameOwner(s.ix, u.ix, name);
    PodName(s, name);
    forall k | k in s.ix.servicesToPods ensures u.ix.servicesToPods[k] == Extended(s.ix, k, s.ix.servicesToPods[k], s.ix.pods[name]) {
      assert s.ix.servicesToPods[k] + [] == s.ix.servicesToPods[k];
    }
    assert u.ix.servicesToPods == Appended(s.ix, s.ix.servicesToPods, s.ix.pods[name]);
  }

  lemma PodName(s: State, name: string)
    requires Sound(s) && name in s.ix.pods
    ensures s.ix.pods[name].name == name && name !in s.wire
  {
  }

  /** The new pod goes to the end on both sides. */
  lemma JoinTold(s: State, r: State, pod: Pod, k: string, names: seq<string>)
    requires Sound(s) && Told(s, k, names) && pod.name in s.ix.pods && s.ix.pods[pod.name] == pod && !pod.phase.Counted()
    requires r.wire == s.wire && r.ix.services == s.ix.services && r.ix.pods.Keys == s.ix.pods.Keys
    requires r.ix.servicesToPods == Appended(s.ix, s.ix.servicesToPods, pod)
    ensures Told(r, k, Extended(s.ix, k, names, pod))
  {
    hide Sound, IsSubset, NoDup, Without;
    if pod.name in names {
      ToldListed(s, k, names, pod.name);
    }
    NoDupAdd(names, pod.name);
    PodName(s, pod.name);
    WithoutAppend(names, [pod.name], s.wire.Keys);
    WithoutNothing([pod.name], s.wire.Keys);
  }

  lemma AddedLists(px: N.Proxy, names: seq<string>, pod: Pod, m: N.Member, ix: Index, k: string, before: seq<string>)
    requires N.Refines(px) && k in px.meta.clusterIPs && L.Lists(px, k, before) && Listing(ix, pod.labels, names)
    requires m.pod == pod.name
    ensures L.Lists(O.AddTo(px, names, m, |names|), k, Extended(ix, k, before, pod))
  {
    hide N.Refines, L.Lists, NoDup, Selects;
    L.AddToLists(px, names, m, |names|, k, before);
    assert names[..|names|] == names;
    assert before + [] == before;
  }

  lemma AgreeJoined(s: State, name: string, ip: string, px: N.Proxy, told: map<string, seq<string>>, names: seq<string>, here: bool)
    requires Healthy(s) && Agree(s, px, told) && name in s.ix.pods && !s.ix.pods[name].phase.Counted()
    requires Listing(s.ix, s.ix.pods[name].labels, names)
    requires name in Joined(s, name, ip, true).ix.pods
    ensures Agree(CountReady(Joined(s, name, ip, true), name), O.AddTo(px, names, N.Member(name, ip, here), |names|),
                  Appended(s.ix, told, s.ix.pods[name]))
  {
    hide Sound, Kept, CountReady, Joined, N.Refines, N.DistinctPods, L.Lists, Extended, Told, Listing;
    var m := N.Member(name, ip, here);
    var r := CountReady(Joined(s, name, ip, true), name);
    JoinedIndex(s, name, ip);
    PodName(s, name);
    AddedDistinct(s, px, told, name, m, names);
    forall k | k in told
      ensures Told(r, k, Extended(s.ix, k, told[k], s.ix.pods[name]))
      ensures L.Lists(O.AddTo(px, names, m, |names|), k, Extended(s.ix, k, told[k], s.ix.pods[name]))
    {
      JoinTold(s, r, s.ix.pods[name], k, told[k]);
      AddedLists(px, names, s.ix.pods[name], m, s.ix, k, told[k]);
    }
  }

  lemma AddedDistinct(s: State, px: N.Proxy, told: map<string, seq<string>>, name: string, m: N.Member, names: seq<string>)
    requires Sound(s) && Agree(s, px, told) && name in s.ix.pods && !s.ix.pods[name].phase.Counted()
    requires m.pod == name && Listing(s.ix, s.ix.pods[name].labels, names)
    ensures N.DistinctPods(O.AddTo(px, names, m, |names|))
  {
    hide Sound, N.Refines, N.DistinctPods, IsSubset, NoDup, Told;
    forall k, e | k in names && N.InService(px.meta, k, e) ensures m.pod !in L.Names(px.meta.Pods(e.chain)) {
      assert Selects(s.ix, k, s.ix.pods[name].labels);
      if m.pod in told[k] {
        ToldListed(s, k, told[k], name);
      }
    }
    X.AddToDistinct(px, names, m, |names|);
  }

  // ---- a pod becomes ready, but the node does not take the call ----

  lemma AgreeUntold(s: State, name: string, ip: string, px: N.Proxy, told: map<string, seq<string>>)
    requires Healthy(s) && Agree(s, px, told) && name in s.ix.pods && !s.ix.pods[name].phase.Counted()
    ensures Agree(UpdateStatus(s, name, Ready, ip, false), px, told)
  {
    hide Sound, Kept, N.Refines, N.DistinctPods, L.Lists, Told, UpdateStatus;
    var r := UpdateStatus(s, name, Ready, ip, false);
    UntoldIndex(s, name, ip);
    forall k | k in told ensures Told(r, k, told[k]) {
      UntoldTold(s, r, k, told[k]);
    }
  }

  lemma UntoldIndex(s: State, name: string, ip: string)
    requires Healthy(s) && name in s.ix.pods && !s.ix.pods[name].phase.Counted()
    ensures var r := UpdateStatus(s, name, Ready, ip, false);
      && r.wire == s.wire && r.ix.services == s.ix.services && r.ix.pods.Keys == s.ix.pods.Keys
      && r.ix.servicesToPods == s.ix.servicesToPods
  {
    hide Sound, Kept, CountReady, AfterReady, IsPodUpdated, IsSubset;
    var u := Joined(s, name, ip, false);
    CountReadyIs(u, name);
    OwnerFacts(s, name);
    JoinedParts(s, name, ip, false);
    SameOwner(s.ix, u.ix, name);
  }

  lemma UntoldTold(s: State, r: State, k: string, names: seq<string>)
    requires Told(s, k, names)
    requires r.wire == s.wire && r.ix.services == s.ix.services && r.ix.pods.Keys == s.ix.pods.Keys
    requires r.ix.servicesToPods == s.ix.servicesToPods
    ensures Told(r, k, names)
  {
    hide NoDup, IsSubset, Without;
  }

  // ---- a notice arrives ----

  function Dropped(told: map<string, seq<string>>, name: string): map<string, seq<string>> {
    map k | k in told :: Without(told[k], {name})
  }

  lemma NotifyIndex(s: State, name: string)
    requires name in s.wire
    ensures var r := Notify(s, name);
      && r.wire == s.wire - {name} && r.ix.services == s.ix.services && r.ix.pods == s.ix.pods
      && r.ix.servicesToPods == s.ix.servicesToPods
  {
    hide AfterRemoval;
  }

  lemma RemovedLists(s: State, px: N.Proxy, told: seq<string>, name: string, names: seq<string>, k: string)
    requires Sound(s) && N.Refines(px) && N.DistinctPods(px) && k in px.meta.clusterIPs
    requires L.Lists(px, k, told) && Told(s, k, told) && name in s.wire
    requires Listing(s.ix, s.wire[name].pod.labels, names)
    ensures L.Lists(O.RemoveFrom(px, names, name, |names|), k, Without(told, {name}))
  {
    hide Sound, N.Refines, N.DistinctPods, L.Lists, NoDup, IsSubset;
    L.RemoveFromLists(px, names, name, |names|, k, told);
    assert names[..|names|] == names;
    if !Selects(s.ix, k, s.wire[name].pod.labels) {
      NotBoth(s, name);
      assert name !in told;
      WithoutSame(told, {}, {name});
    }
  }

  lemma NotBoth(s: State, name: string)
    requires Sound(s) && name in s.wire
    ensures name !in s.ix.pods
  {
  }

  lemma NotifyTold(s: State, name: string, k: string, names: seq<string>)
    requires Sound(s) && Told(s, k, names) && name in s.wire
    ensures Told(Notify(s, name), k, Without(names, {name}))
  {
    hide Sound, Notify, NoDup, IsSubset, Without;
    NotifyIndex(s, name);
    WithoutNoDup(names, {name});
    WithoutTwice(names, {name}, (s.wire - {name}).Keys);
    assert {name} + (s.wire - {name}).Keys == s.wire.Keys;
  }

  lemma AgreeNotified(s: State, name: string, px: N.Proxy, told: map<string, seq<string>>, names: seq<string>)
    requires Healthy(s) && Agree(s, px, told) && name in s.wire && Listing(s.ix, s.wire[name].pod.labels, names)
    ensures Agree(Notify(s, name), O.RemoveFrom(px, names, name, |names|), Dropped(told, name))
  {
    hide Sound, Kept, Notify, N.Refines, N.DistinctPods, L.Lists, Told, Without, Listing;
    NotifyIndex(s, name);
    forall k | k in told
      ensures Told(Notify(s, name), k, Without(told[k], {name}))
      ensures L.Lists(O.RemoveFrom(px, names, name, |names|), k, Without(told[k], {name}))
    {
      NotifyTold(s, name, k, told[k]);
      RemovedLists(s, px, told[k], name, names, k);
    }
  }

  // ---- services come and go ----

  lemma ServicesTold(s: State, r: State, k: string, names: seq<string>)
    requires Told(s, k, names) && r == s.(ix := r.ix) && r.ix.pods == s.ix.pods
    requires k in r.ix.servicesToPods && r.ix.servicesToPods[k] == s.ix.servicesToPods[k]
    requires k in s.ix.services ==> k in r.ix.services && r.ix.services[k] == s.ix.services[k]
    ensures Told(r, k, names)
  {
    hide NoDup, IsSubset, Without;
  }

  lemma OrderTold(s: State, svc: Service, order: seq<string>)
    requires Sound(s) && svc.name !in s.ix.services && Enumerates(s.ix, svc.selector, order)
    ensures Told(CreateService(s, svc, order), svc.name, order)
  {
    hide Sound, NoDup, IsSubset;
    forall n | n in order ensures n !in s.wire {
      NameNotWired(s, n);
    }
    WithoutNothing(order, s.wire.Keys);
  }

  lemma AgreeCreated(s: State, svc: Service, order: seq<string>, px: N.Proxy, told: map<string, seq<string>>,
                     ip: string, ports: seq<S.ServicePort>, ms: seq<N.Member>)
    requires Healthy(s) && Agree(s, px, told) && svc.name !in s.ix.services
    requires Enumerates(s.ix, svc.selector, order) && L.MemberNames(ms) == order
    ensures Agree(CreateService(s, svc, order), O.Create(px, svc.name, ip, ports, ms), told[svc.name := order])
  {
    hide Sound, Kept, N.Refines, N.DistinctPods, L.Lists, NoDup, IsSubset, O.Create, L.MemberNames, Told;
    var qx, r := O.Create(px, svc.name, ip, ports, ms), CreateService(s, svc, order);
    L.CreateLists(px, svc.name, ip, ports, ms);
    X.CreateDistinct(px, svc.name, ip, ports, ms);
    OrderTold(s, svc, order);
    forall k | k in told ensures L.Lists(qx, k, told[k]) && Told(r, k, told[k]) {
      L.CreateOtherLists(px, svc.name, ip, ports, ms, k, told[k]);
      ToldService(s, k, told[k]);
      ServicesTold(s, r, k, told[k]);
    }
  }

  lemma ToldService(s: State, k: string, names: seq<string>)
    requires Told(s, k, names)
    ensures k in s.ix.servicesToPods
  {
  }

  lemma AgreeDeleted(s: State, name: string, px: N.Proxy, told: map<string, seq<string>>)
    requires Healthy(s) && Agree(s, px, told) && name in s.ix.services
    ensures Agree(DeleteService(s, name), O.Delete(px, name), told - {name})
  {
    hide Sound, Kept, N.Refines, N.DistinctPods, L.Lists, Told, O.Delete;
    var r := DeleteService(s, name);
    X.DeleteDistinct(px, name);
    DeletedServices(px, name);
    forall k | k in told && k != name ensures L.Lists(O.Delete(px, name), k, told[k]) && Told(r, k, told[k]) {
      L.DeleteLists(px, name, k, told[k]);
      ToldService(s, k, told[k]);
      ServicesTold(s, r, k, told[k]);
    }
  }

  lemma DeletedServices(px: N.Proxy, name: string)
    requires N.Refines(px) && name in px.meta.clusterIPs
    ensures O.Delete(px, name).meta.clusterIPs == px.meta.clusterIPs - {name}
  {
  }

  // ---- a step ----

  lemma NotCounted(s: State, name: string, phase: Phase)
    requires BecomesReady(s, name, phase) && Orderly(s.ix.pods[name].phase, phase)
    ensures !s.ix.pods[name].phase.Counted()
  {
  }

  /** One step of the server, with the node's reaction, keeps the agreement. */
  lemma StepAgrees(home: string -> bool, s: State, op: Op, px: N.Proxy, qx: N.Proxy, told: map<string, seq<string>>)
    returns (later: map<string, seq<string>>)
    requires Healthy(s) && Sensible(s, op) && Step(s, op).Some?
    requires Agree(s, px, told) && NodeReacts(home, s, op, px, qx)
    ensures Agree(Step(s, op).value, qx, later)
  {
    hide Healthy, Agree, N.Refines, N.DistinctPods, CreatePod, DeletePod, Apply, Monitor, DeleteDeployment,
      Scale, AddAutoscaler, CleanStart, Listing, Enumerates, O.Create, O.Delete, O.AddTo, O.RemoveFrom, Notify, CountReady,
      JoinServices, DropFailed, WithPhase;
    AgreeParts(s, px, told);
    later := told;
    match op {
      case AddService(svc, order) =>
        if svc.name !in s.ix.services {
          var ip := Addresses.Text(svc.clusterIP.value);
          var ms :| L.MemberNames(ms) == order && (forall m | m in ms :: Sent(s.ix, home, m)) && qx == O.Create(px, svc.name, ip, svc.ports, ms);
          later := told[svc.name := order];
          AgreeCreated(s, svc, order, px, told, ip, svc.ports, ms);
        }
      case RemoveService(n) =>
        if n in s.ix.services {
          later := told - {n};
          AgreeDeleted(s, n, px, told);
        }
      case Notice(n) =>
        var names :| Listing(s.ix, s.wire[n].pod.labels, names) && qx == O.RemoveFrom(px, names, n, |names|);
        later := Dropped(told, n);
        AgreeNotified(s, n, px, told, names);
      case Report(n, phase, ip, ok) =>
        if BecomesReady(s, n, phase) && !ok {
          NotCounted(s, n, phase);
          AgreeUntold(s, n, ip, px, told);
        } else if BecomesReady(s, n, phase) {
          NotCounted(s, n, phase);
          var names :| Listing(s.ix, s.ix.pods[n].labels, names) && qx == O.AddTo(px, names, N.Member(n, ip, home(n)), |names|);
          later := Appended(s.ix, told, s.ix.pods[n]);
          JoinedIndex(s, n, ip);
          AgreeJoined(s, n, ip, px, told, names, home(n));
        } else {
          DriftAgrees(s, op, px, told);
        }
      case _ => DriftAgrees(s, op, px, told);
    }
  }

  lemma DriftAgrees(s: State, op: Op, px: N.Proxy, told: map<string, seq<string>>)
    requires Healthy(s) && Sensible(s, op) && Agree(s, px, told) && Step(s, op).Some?
    requires !op.AddService? && !op.RemoveService? && !op.Notice?
    requires op.Report? ==> !BecomesReady(s, op.name, op.phase)
    ensures Agree(Step(s, op).value, px, told)
  {
    hide Sound, Kept, Agree, Step, Sensible, Drifts;
    OtherDrifts(s, op);
    AgreeDrifts(s, Step(s, op).value, px, told);
  }

  // ---- runs ----

  /** A run of the server with a node that was empty at the start; `home` says which pods run on it. */
  ghost predicate IsJointRun(home: string -> bool, states: seq<State>, nodes: seq<N.Proxy>, ops: seq<Op>) {
    && IsRun(states, ops) && |nodes| == |states|
    && N.Refines(nodes[0]) && nodes[0].meta == S.Meta(map[], map[], map[])
    && forall i | 0 <= i < |ops| ::
         N.Refines(nodes[i]) && N.DistinctPods(nodes[i]) ==> NodeReacts(home, states[i], ops[i], nodes[i], nodes[i + 1])
  }

  lemma StartAgrees(px: N.Proxy)
    requires N.Refines(px) && px.meta == S.Meta(map[], map[], map[])
    ensures Agree(Empty(), px, map[])
  {
  }

  lemma {:induction false} RunAgrees(home: string -> bool, states: seq<State>, nodes: seq<N.Proxy>, ops: seq<Op>, i: nat)
    returns (told: map<string, seq<string>>)
    requires IsJointRun(home, states, nodes, ops) && i < |states|
    ensures Agree(states[i], nodes[i], told)
    decreases i
  {
    hide Agree, NodeReacts, Sensible, Step, N.Refines, N.DistinctPods, Healthy;
    if i == 0 {
      told := map[];
      StartAgrees(nodes[0]);
    } else {
      var before := RunAgrees(home, states, nodes, ops, i - 1);
      RunHealthy(states, ops, i - 1);
      AgreeParts(states[i - 1], nodes[i - 1], before);
      assert Sensible(states[i - 1], ops[i - 1]) && Step(states[i - 1], ops[i - 1]) == Some(states[i]);
      assert NodeReacts(home, states[i - 1], ops[i - 1], nodes[i - 1], nodes[i]);
      told := StepAgrees(home, states[i - 1], ops[i - 1], nodes[i - 1], nodes[i], before);
    }
  }

  /** Server and node agree in every state of every run: the node has exactly the services of the server, and
      each chain of each service holds, without the pods whose deletion notice is under way, the pods of the
      server's list in the same order. When no notice is under way the two are equal. */
  lemma ServerAndNodeAgree(home: string -> bool, states: seq<State>, nodes: seq<N.Proxy>, ops: seq<Op>, i: nat, k: string,
                           e: S.ServiceEntry)
    requires IsJointRun(home, states, nodes, ops) && i < |states|
    ensures nodes[i].meta.clusterIPs.Keys == states[i].ix.services.Keys
    ensures k in states[i].ix.services && N.InService(nodes[i].meta, k, e) ==>
      && k in states[i].ix.servicesToPods
      && Without(L.Names(nodes[i].meta.Pods(e.chain)), states[i].wire.Keys) == states[i].ix.servicesToPods[k]
      && (states[i].wire == map[] ==> L.Names(nodes[i].meta.Pods(e.chain)) == states[i].ix.servicesToPods[k])
  {
    hide NodeReacts, Sensible, Step, N.Refines, N.DistinctPods;
    var told := RunAgrees(home, states, nodes, ops, i);
    if k in states[i].ix.services && N.InService(nodes[i].meta, k, e) && states[i].wire == map[] {
      WithoutNothing(L.Names(nodes[i].meta.Pods(e.chain)), states[i].wire.Keys);
    }
  }
}
