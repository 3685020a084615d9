/**
 Server, address assigner and node together: from the address and the port of a service to its ready pods.
 */
module Traffic {
  import opened Sequences
  import opened Core
  import opened Cluster
  import opened ClusterInvariants
  import opened ClusterSteps
  import opened ClusterHandlers
  import opened ClusterEvents
  import opened ClusterDeletion
  import opened ClusterRuns
  import opened ClusterListing
  import opened Drift
  import opened Agreement
  import opened Locations
  import opened Addresses
  import C = ClusterIP
  import S = ServiceMeta
  import N = ProxyState
  import O = ProxyOps
  import L = ProxyListing
  import X = ProxyRuns
  import K = Packets
  import B = NthBalancer
  import I = Iptables
  import Q = ProxyRouting

  // ---- the services of the server ----

  /** The step creates a service. */
  predicate Creates(s: State, op: Op) {
    op.AddService? && op.service.name !in s.ix.services
  }

  lemma StepServices(s: State, op: Op)
    requires Healthy(s) && Sensible(s, op) && Step(s, op).Some?
    ensures Step(s, op).value.ix.services ==
      if Creates(s, op) then s.ix.services[op.service.name := op.service]
      else if op.RemoveService? then s.ix.services - {op.name} else s.ix.services
  {
    hide Sound, Kept, Drifts, CreatePod, DeletePod, Apply, Monitor, DeleteDeployment, Scale, AddAutoscaler, CleanStart,
      Notify, UpdateStatus, Unused, IsSubset, NoDup;
    match op
    case AddService(_, _) =>
    case RemoveService(_) =>
    case Notice(n) => NotifyIndex(s, n);
    case Report(n, phase, ip, ok) =>
      if BecomesReady(s, n, phase) {
        NotCounted(s, n, phase);
        ReadyLists(s, n, ip, ok);
      } else {
        StepDrifts(s, op);
      }
    case _ => StepDrifts(s, op);
  }

  lemma StepDrifts(s: State, op: Op)
    requires Healthy(s) && Sensible(s, op) && Step(s, op).Some?
    requires !op.AddService? && !op.RemoveService? && !op.Notice?
    requires op.Report? ==> !BecomesReady(s, op.name, op.phase)
    ensures Step(s, op).value.ix.services == s.ix.services
  {
    hide Sound, Kept, Step, Sensible;
    OtherDrifts(s, op);
  }

  // ---- their addresses ----

  /** The assigner's log goes on; the address of a service that is created is the answer to its last event. */
  ghost predicate Assigns(s: State, op: Op, log: seq<C.Event>, later: seq<C.Event>) {
    && log <= later
    && (Creates(s, op) ==>
          && |log| < |later| && op.service.clusterIP.Some?
          && op.service.clusterIP == C.Answer(C.After(later[..|later| - 1]), later[|later| - 1]))
  }

  lemma StepSpread(s: State, op: Op, log: seq<C.Event>, later: seq<C.Event>)
    requires Healthy(s) && Sensible(s, op) && Step(s, op).Some?
    requires Spread(s.ix.services, log) && Assigns(s, op, log, later)
    ensures Spread(Step(s, op).value.ix.services, later)
  {
    hide Sound, Kept, Sensible, Step, C.Answer, C.After, C.Issued, C.Value;
    StepServices(s, op);
    if Creates(s, op) {
      var front := later[..|later| - 1];
      SpreadLater(s.ix.services, log, front);
      SpreadAdd(s.ix.services, front, later[|later| - 1], op.service);
      assert front + [later[|later| - 1]] == later;
    } else {
      SpreadLater(s.ix.services, log, later);
    }
  }

  // ---- what the node has of them ----

  /** The node has the address of the service, and a chain for each of its ports. */
  ghost predicate PlacedAt(svc: Service, meta: S.Meta, k: string) {
    && k in meta.clusterIPs && svc.clusterIP.Some? && meta.clusterIPs[k] == Text(svc.clusterIP.value)
    && |meta.Chains(k)| == |svc.ports|
    && forall n | 0 <= n < |svc.ports| :: meta.Chains(k)[n].port == svc.ports[n]
  }

  ghost predicate Placed(services: map<string, Service>, meta: S.Meta) {
    meta.clusterIPs.Keys == services.Keys && forall k | k in services :: PlacedAt(services[k], meta, k)
  }

  lemma CreatePlaced(services: map<string, Service>, px: N.Proxy, svc: Service, ms: seq<N.Member>)
    requires N.Refines(px) && Placed(services, px.meta) && svc.name !in services && svc.clusterIP.Some?
    ensures Placed(services[svc.name := svc], O.Create(px, svc.name, Text(svc.clusterIP.value), svc.ports, ms).meta)
  {
    hide N.Refines, O.Create, L.Lists, L.MemberNames, L.Names, Text;
    var r := O.Create(px, svc.name, Text(svc.clusterIP.value), svc.ports, ms).meta;
    L.CreateLists(px, svc.name, Text(svc.clusterIP.value), svc.ports, ms);
    forall k | k in services ensures PlacedAt(services[k], r, k) {
      assert PlacedAt(services[k], px.meta, k);
    }
  }

  lemma DeletePlaced(services: map<string, Service>, px: N.Proxy, name: string)
    requires N.Refines(px) && Placed(services, px.meta) && name in services
    ensures Placed(services - {name}, O.Delete(px, name).meta)
  {
    hide Text;
    var r := O.Delete(px, name).meta;
    forall k | k in services - {name} ensures PlacedAt(services[k], r, k) {
      assert PlacedAt(services[k], px.meta, k);
    }
  }

  lemma SamePlaced(services: map<string, Service>, meta: S.Meta, r: S.Meta)
    requires Placed(services, meta) && r.clusterIPs == meta.clusterIPs && r.serviceChains == meta.serviceChains
    ensures Placed(services, r)
  {
    hide Text;
    forall k | k in services ensures PlacedAt(services[k], r, k) {
      assert PlacedAt(services[k], meta, k);
    }
  }

  lemma StepPlaced(home: string -> bool, s: State, op: Op, px: N.Proxy, qx: N.Proxy)
    requires Healthy(s) && Sensible(s, op) && Step(s, op).Some?
    requires N.Refines(px) && N.DistinctPods(px) && NodeReacts(home, s, op, px, qx) && Placed(s.ix.services, px.meta)
    ensures Placed(Step(s, op).value.ix.services, qx.meta)
  {
    hide N.Refines, N.DistinctPods, O.AddTo, O.RemoveFrom, O.Create, O.Delete, Listing, Placed, Healthy, Sensible, Step, Text;
    StepServices(s, op);
    match op
    case AddService(svc, order) =>
      if Creates(s, op) {
        var ms :| L.MemberNames(ms) == order && (forall m | m in ms :: Sent(s.ix, home, m)) &&
          qx == O.Create(px, svc.name, Text(svc.clusterIP.value), svc.ports, ms);
        CreatePlaced(s.ix.services, px, svc, ms);
      }
    case RemoveService(n) =>
      if n in s.ix.services {
        DeletePlaced(s.ix.services, px, n);
      } else {
        assert s.ix.services - {n} == s.ix.services;
      }
    case Report(_, _, _, _) => SamePlaced(s.ix.services, px.meta, qx.meta);
    case Notice(_) => SamePlaced(s.ix.services, px.meta, qx.meta);
    case _ =>
  }

  // ---- runs ----

  /** A run of server and node in which the assigner gives the services their addresses. */
  ghost predicate IsAssignedRun(home: string -> bool, states: seq<State>, nodes: seq<N.Proxy>, logs: seq<seq<C.Event>>, ops: seq<Op>) {
    && IsJointRun(home, states, nodes, ops) && |logs| == |states|
    && forall n | 0 <= n < |ops| :: Assigns(states[n], ops[n], logs[n], logs[n + 1])
  }

  /** In every state of every run the services have different addresses, whatever writes failed and however often the
      assigner was restarted, and the node has those addresses and a chain for every port. */
  lemma {:induction false} RunPlaced(home: string -> bool, states: seq<State>, nodes: seq<N.Proxy>, logs: seq<seq<C.Event>>,
                                     ops: seq<Op>, i: nat)
    requires IsAssignedRun(home, states, nodes, logs, ops) && i < |states|
    ensures Spread(states[i].ix.services, logs[i]) && Placed(states[i].ix.services, nodes[i].meta)
    decreases i
  {
    hide NodeReacts, Sensible, Step, N.Refines, N.DistinctPods, Agree, Healthy, Spread, Placed, Assigns;
    if i == 0 {
      StartPlaced(nodes[0], logs[0]);
    } else {
      var n := i - 1;
      RunPlaced(home, states, nodes, logs, ops, n);
      RunHealthy(states, ops, n);
      var before := RunAgrees(home, states, nodes, ops, n);
      AgreeParts(states[n], nodes[n], before);
      assert Sensible(states[n], ops[n]) && Step(states[n], ops[n]) == Some(states[i]);
      assert NodeReacts(home, states[n], ops[n], nodes[n], nodes[i]) && Assigns(states[n], ops[n], logs[n], logs[i]);
      StepSpread(states[n], ops[n], logs[n], logs[i]);
      StepPlaced(home, states[n], ops[n], nodes[n], nodes[i]);
    }
  }

  lemma StartPlaced(px: N.Proxy, log: seq<C.Event>)
    requires px.meta == S.Meta(map[], map[], map[])
    ensures Spread(Empty().ix.services, log) && Placed(Empty().ix.services, px.meta)
  {
  }

  // ---- from the address of a service to its pods ----

  /** A port that is the only one of its service with its number is reached by nothing else. */
  lemma PortAlone(services: map<string, Service>, log: seq<C.Event>, px: N.Proxy, k: string, n: nat)
    requires N.Refines(px) && Spread(services, log) && Placed(services, px.meta)
    requires k in services && n < |services[k].ports|
    requires forall m | 0 <= m < |services[k].ports| && m != n :: services[k].ports[m].port != services[k].ports[n].port
    ensures PlacedAt(services[k], px.meta, k) && Q.Alone(px, k, px.meta.Chains(k)[n])
  {
    hide N.Refines, Text, C.Issued, C.Value;
    var e := px.meta.Chains(k)[n];
    forall t, x | N.InService(px.meta, t, x)
      ensures t in px.meta.clusterIPs
      ensures px.meta.clusterIPs[t] == px.meta.clusterIPs[k] && x.port.port == e.port.port ==> t == k && x == e
    {
      Q.EntryThere(px, t, x);
      assert PlacedAt(services[t], px.meta, t);
      if px.meta.clusterIPs[t] == px.meta.clusterIPs[k] {
        TextDiffers(services[t].clusterIP.value, services[k].clusterIP.value);
        var m :| 0 <= m < |px.meta.Chains(k)| && px.meta.Chains(k)[m] == x;
      }
    }
  }

  /** End to end: in every state of every run, whatever the kernel's counters, packets to the address that the assigner
      gave a service and to a port of it enter a chain of that port, any round of consecutive packets in that chain
      sends exactly one to the chain of each ready pod the service selects, and every packet there ends with the
      recorded address of the pod and the target port of this port, which is the pod's own address if ready pods keep
      theirs. The port number occurs once in the service, and the node took the calls about its ready pods. */
  lemma ReadyPodsShareTraffic(home: string -> bool, states: seq<State>, nodes: seq<N.Proxy>, logs: seq<seq<C.Event>>, ops: seq<Op>, i: nat,
                              k: string, n: nat, pod: string, seen: nat -> nat) returns (e: S.ServiceEntry, j: nat)
    requires IsAssignedRun(home, states, nodes, logs, ops) && i < |states|
    requires k in states[i].ix.services && n < |states[i].ix.services[k].ports|
    requires var ports := states[i].ix.services[k].ports;
      forall m | 0 <= m < |ports| && m != n :: ports[m].port != ports[n].port
    requires pod in states[i].ix.pods && states[i].ix.pods[pod].phase.Ready?
    requires states[i].ix.services[k].selector.Items <= states[i].ix.pods[pod].labels.Items
    requires forall m | 0 <= m < i :: Announced(states[m], ops[m], k)
    requires forall m | m > 0 :: seen(m) < m
    ensures var px, svc, pods := nodes[i], states[i].ix.services[k], nodes[i].meta.Pods(e.chain);
      && svc.clusterIP.Some? && I.Services in px.table
      && Q.Route(px.table[I.Services], Text(svc.clusterIP.value), svc.ports[n].port) == Some(e.chain)
      && j < |pods| && pods[j].pod == pod
      && e.chain in px.table && B.Descending(px.table[e.chain])
      && B.Received(B.Load(px.table[e.chain], seen), |pods|, Some(pods[j].chain)) == 1
      && K.Delivers(px.table, pods[j].chain, pods[j].ip, svc.ports[n].targetPort, px.host, N.Here(px, pods[j]))
      && ((forall m | 0 <= m < i :: Steady(states[m], ops[m])) ==>
            K.Delivers(px.table, pods[j].chain, states[i].ix.pods[pod].ip, svc.ports[n].targetPort, px.host, home(pod)))
  {
    hide NodeReacts, Sensible, Step, N.Refines, N.DistinctPods, IsRun, K.Delivers, B.Received, B.Load, Q.Route, Q.Alone, Spread, Steady, Located, N.Here,
      Placed, Text, Announced, Agree, Assigns;
    var told := RunAgrees(home, states, nodes, ops, i);
    AgreeParts(states[i], nodes[i], told);
    RunPlaced(home, states, nodes, logs, ops, i);
    PortAlone(states[i].ix.services, logs[i], nodes[i], k, n);
    e := nodes[i].meta.Chains(k)[n];
    Q.RouteFinds(nodes[i], k, e);
    ServerAndNodeAgree(home, states, nodes, ops, i, k, e);
    MembershipHere(states, ops, i, k, pod);
    var pods := nodes[i].meta.Pods(e.chain);
    assert pod in L.Names(pods);
    j :| 0 <= j < |pods| && L.Names(pods)[j] == pod;
    L.NameAt(pods, j);
    X.ExactBalance(nodes[i], k, e, seen, j, 0);
    RunSize(states, ops);
    if forall m | 0 <= m < i :: Steady(states[m], ops[m]) {
      RunLocated(home, states, nodes, ops, i);
      KnownPlace(home, states[i], nodes[i], e, j);
    }
  }

  lemma RunSize(states: seq<State>, ops: seq<Op>)
    requires IsRun(states, ops)
    ensures |states| == |ops| + 1
  {
  }

  lemma KnownPlace(home: string -> bool, s: State, px: N.Proxy, e: S.ServiceEntry, j: nat)
    requires Located(home, s, px) && j < |px.meta.Pods(e.chain)|
    ensures var p := px.meta.Pods(e.chain)[j];
      && (N.Here(px, p) <==> home(p.pod))
      && (p.pod in s.ix.pods && s.ix.pods[p.pod].phase.Ready? ==> p.ip == s.ix.pods[p.pod].ip)
  {
    assert N.InChain(px.meta, e.chain, px.meta.Pods(e.chain)[j]);
  }

  lemma MembershipHere(states: seq<State>, ops: seq<Op>, i: nat, k: string, pod: string)
    requires IsRun(states, ops) && i < |states|
    requires k in states[i].ix.services && pod in states[i].ix.pods && states[i].ix.pods[pod].phase.Ready?
    requires states[i].ix.services[k].selector.Items <= states[i].ix.pods[pod].labels.Items
    requires forall m | 0 <= m < i :: Announced(states[m], ops[m], k)
    ensures k in states[i].ix.servicesToPods && pod in states[i].ix.servicesToPods[k]
  {
    hide Sensible, Step, IsSubset, IsRun, Announced;
    MembershipExact(states, ops, i);
  }
}
