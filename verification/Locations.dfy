/**
 Server and node together: the addresses under which the node knows the pods, and which of them run on it.
 */
module Locations {
  import opened Sequences
  import opened Core
  import opened Cluster
  import opened ClusterInvariants
  import opened ClusterSteps
  import opened ClusterHandlers
  import opened ClusterEvents
  import opened ClusterDeletion
  import opened ClusterRuns
  import opened ClusterListing
  import opened Drift
  import opened Agreement
  import opened Addresses
  import S = ServiceMeta
  import N = ProxyState
  import O = ProxyOps
  import L = ProxyListing
  import E = ProxyEntries
  import I = Iptables

  /** Every recorded entry is as local as its pod, and has the address of its pod if that is ready. */
  ghost predicate Located(home: string -> bool, s: State, px: N.Proxy) {
    forall c, p | N.InChain(px.meta, c, p) ::
      && (N.Here(px, p) <==> home(p.pod))
      && (p.pod in s.ix.pods && s.ix.pods[p.pod].phase.Ready? ==> p.ip == s.ix.pods[p.pod].ip)
  }

  lemma StaysLocated(home: string -> bool, s: State, r: State, px: N.Proxy)
    requires Located(home, s, px) && Stays(s, r)
    ensures Located(home, r, px)
  {
    hide Without;
  }

  lemma GainsLocated(home: string -> bool, s: State, px: N.Proxy, qx: N.Proxy, ms: seq<N.Member>)
    requires Located(home, s, px) && E.Gains(px, qx, ms) && forall m | m in ms :: Sent(s.ix, home, m)
    ensures Located(home, s, qx)
  {
    hide N.Here;
  }

  /** A chain on record belongs to a service, which was told about its pods. */
  lemma EntryTold(s: State, px: N.Proxy, told: map<string, seq<string>>, c: I.Chain, p: S.PodEntry) returns (k: string)
    requires Agree(s, px, told) && N.InChain(px.meta, c, p)
    ensures k in told && p.pod in told[k] && Told(s, k, told[k])
  {
    hide Told, N.ServicesRefine, N.PodsRefine, N.EntriesRefine, N.JumpsSound, N.Undrawn;
    assert N.OnRecord(px, c);
    k := px.drawn[c.id].service;
    assert N.InService(px.meta, k, S.ServiceEntry(c, px.drawn[c.id].port));
    var pods := px.meta.Pods(c);
    var j :| 0 <= j < |pods| && pods[j] == p;
    L.NameAt(pods, j);
  }

  /** The node has no entry of a pod that was never ready. */
  lemma NotThere(s: State, px: N.Proxy, told: map<string, seq<string>>, name: string)
    requires Healthy(s) && Agree(s, px, told) && name in s.ix.pods && !s.ix.pods[name].phase.Counted()
    ensures forall c, p | N.InChain(px.meta, c, p) :: p.pod != name
  {
    hide Sound, Kept, Agree, Told;
    forall c, p | N.InChain(px.meta, c, p) ensures p.pod != name {
      var k := EntryTold(s, px, told, c, p);
      if p.pod == name {
        ToldListed(s, k, told[k], name);
      }
    }
  }

  lemma ReadyLocated(home: string -> bool, s: State, px: N.Proxy, qx: N.Proxy, told: map<string, seq<string>>, name: string,
                     ip: string, ok: bool)
    requires Healthy(s) && Agree(s, px, told) && name in s.ix.pods && !s.ix.pods[name].phase.Counted() && Located(home, s, px)
    requires E.Gains(px, qx, [N.Member(name, ip, home(name))]) || qx == px
    ensures Located(home, UpdateStatus(s, name, Ready, ip, ok), qx)
  {
    hide Sound, Kept, Agree, UpdateStatus, N.Here;
    NotThere(s, px, told, name);
    ReadyLists(s, name, ip, ok);
  }

  lemma SamePods(home: string -> bool, s: State, r: State, px: N.Proxy)
    requires Located(home, s, px) && r.ix.pods == s.ix.pods
    ensures Located(home, r, px)
  {
  }

  /** One step of the server with the node's reaction. */
  lemma StepLocated(home: string -> bool, s: State, op: Op, px: N.Proxy, qx: N.Proxy, told: map<string, seq<string>>)
    requires Healthy(s) && Sensible(s, op) && Step(s, op).Some? && Steady(s, op)
    requires N.Refines(px) && N.DistinctPods(px)
    requires Agree(s, px, told) && NodeReacts(home, s, op, px, qx) && Located(home, s, px)
    ensures Located(home, Step(s, op).value, qx)
  {
    hide Healthy, Agree, N.Refines, N.DistinctPods, CreatePod, DeletePod, Apply, Monitor, DeleteDeployment, Scale, AddAutoscaler,
      CleanStart, Listing, Enumerates, O.Create, O.Delete, O.AddTo, O.RemoveFrom, Notify, UpdateStatus, E.Gains, Located, Stays, Text;
    var r := Step(s, op).value;
    match op
    case AddService(svc, order) =>
      if svc.name !in s.ix.services {
        var ms :| L.MemberNames(ms) == order && (forall m | m in ms :: Sent(s.ix, home, m)) &&
          qx == O.Create(px, svc.name, Text(svc.clusterIP.value), svc.ports, ms);
        E.CreateGains(px, svc.name, Text(svc.clusterIP.value), svc.ports, ms);
        GainsLocated(home, s, px, qx, ms);
      }
      SamePods(home, s, r, qx);
    case RemoveService(n) =>
      E.DeleteGains(px, n);
      if n in s.ix.services {
        GainsLocated(home, s, px, qx, []);
      }
      SamePods(home, s, r, qx);
    case Notice(n) =>
      var names :| Listing(s.ix, s.wire[n].pod.labels, names) && qx == O.RemoveFrom(px, names, n, |names|);
      E.RemoveFromGains(px, names, n, |names|);
      GainsLocated(home, s, px, qx, []);
      NotifyIndex(s, n);
      SamePods(home, s, r, qx);
    case Report(n, phase, ip, ok) =>
      if BecomesReady(s, n, phase) {
        NotCounted(s, n, phase);
        if ok {
          var names :| Listing(s.ix, s.ix.pods[n].labels, names) && qx == O.AddTo(px, names, N.Member(n, ip, home(n)), |names|);
          E.AddToGains(px, names, N.Member(n, ip, home(n)), |names|);
        }
        ReadyLocated(home, s, px, qx, told, n, ip, ok);
      } else {
        OtherDrifts(s, op);
        StaysLocated(home, s, r, px);
      }
    case _ =>
      OtherDrifts(s, op);
      StaysLocated(home, s, r, px);
  }

  /** In every state of every run in which ready pods keep their addresses, the node knows every ready pod under its
      address, and takes for its own exactly the pods that run on it. */
  lemma {:induction false} RunLocated(home: string -> bool, states: seq<State>, nodes: seq<N.Proxy>, ops: seq<Op>, i: nat)
    requires IsJointRun(home, states, nodes, ops) && i < |states|
    requires forall m | 0 <= m < i :: Steady(states[m], ops[m])
    ensures Located(home, states[i], nodes[i])
    decreases i
  {
    hide Agree, NodeReacts, Sensible, Step, N.Refines, N.DistinctPods, Healthy, Steady;
    if i == 0 {
      StartLocated(home, nodes[0]);
    } else {
      var n := i - 1;
      RunLocated(home, states, nodes, ops, n);
      RunHealthy(states, ops, n);
      var told := RunAgrees(home, states, nodes, ops, n);
      AgreeParts(states[n], nodes[n], told);
      assert Sensible(states[n], ops[n]) && Step(states[n], ops[n]) == Some(states[i]);
      assert NodeReacts(home, states[n], ops[n], nodes[n], nodes[i]) && Steady(states[n], ops[n]);
      StepLocated(home, states[n], ops[n], nodes[n], nodes[i], told);
    }
  }

  lemma StartLocated(home: string -> bool, px: N.Proxy)
    requires px.meta == S.Meta(map[], map[], map[])
    ensures Located(home, Empty(), px)
  {
  }
}
