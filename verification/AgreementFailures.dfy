/**
 A run of server and node that ends where they disagree: the name of a deleted pod comes back too early.
 ClusterRuns.AddPodIff has the exact condition.
 */
module AgreementFailures {
  import opened Sequences
  import opened Core
  import opened Cluster
  import opened ClusterInvariants
  import opened ClusterEvents
  import opened ClusterDeletion
  import opened ClusterRuns
  import opened ClusterListing
  import opened Agreement
  import opened Addresses
  import S = ServiceMeta
  import N = ProxyState
  import O = ProxyOps
  import L = ProxyListing
  import E = ProxyEviction
  import P = ProxyFailures

  /** The server with one service, with or without a pod in its list, with or without the notice of a deleted pod. */
  function Serving(svc: Service, pods: map<string, Pod>, list: seq<string>, wire: map<string, Cluster.Notice>): State {
    State(Index(pods, map[], map[], map[svc.name := svc], map[svc.name := list], map[]),
          map n | n in wire :: "", {}, wire, Store(pods, map[], map[]))
  }

  lemma ServiceThere(svc: Service)
    ensures CreateService(Empty(), svc, []) == Serving(svc, map[], [], map[])
    ensures Enumerates(Empty().ix, svc.selector, [])
  {
  }

  lemma PodThere(svc: Service, pod: Pod, wire: map<string, Cluster.Notice>)
    ensures CreatePod(Serving(svc, map[], [], wire), pod, Created) ==
      Serving(svc, map[pod.name := pod.(phase := Pending)], [], wire)
  {
  }

  function Up(pod: Pod, ip: string): Pod {
    pod.(phase := Ready, ip := ip)
  }

  /** The pod becomes ready and joins the service. */
  lemma Raised(svc: Service, pod: Pod, ip: string, wire: map<string, Cluster.Notice>)
    requires IsSubset(svc.selector, pod.labels)
    ensures UpdateStatus(Serving(svc, map[pod.name := pod.(phase := Pending)], [], wire), pod.name, Ready, ip, true) ==
      Serving(svc, map[pod.name := Up(pod, ip)], [pod.name], wire)
  {
    hide IsSubset;
    var s := Serving(svc, map[pod.name := pod.(phase := Pending)], [], wire);
    var u := Joined(s, pod.name, ip, true);
    assert s.ix.pods[pod.name := Up(pod, ip)] == map[pod.name := Up(pod, ip)];
    assert Selects(s.ix, svc.name, pod.labels);
    var none: seq<string> := [];
    assert none + [pod.name] == [pod.name];
    assert u.ix.servicesToPods == map[svc.name := [pod.name]];
    CountReadyIs(u, pod.name);
  }

  /** A user deletes the pod: it leaves the list, and its notice is under way. */
  lemma Deleted(svc: Service, pod: Pod)
    ensures DeletePod(Serving(svc, map[pod.name := pod], [pod.name], map[]), pod.name, true, User) ==
      Serving(svc, map[], [], map[pod.name := Cluster.Notice(pod, User)])
  {
    assert RemoveFirst([pod.name], pod.name) == [];
  }

  /** The notice arrives and the server forgets it. */
  lemma Arrived(svc: Service, pods: map<string, Pod>, list: seq<string>, name: string, notice: Cluster.Notice)
    ensures Notify(Serving(svc, pods, list, map[name := notice]), name) == Serving(svc, pods, list, map[])
  {
  }

  /** The services the server tells the node about. */
  lemma OneListing(svc: Service, pods: map<string, Pod>, list: seq<string>, wire: map<string, Cluster.Notice>, labels: Labels)
    requires IsSubset(svc.selector, labels)
    ensures Listing(Serving(svc, pods, list, wire).ix, labels, [svc.name])
  {
  }

  function Ops(svc: Service, pod: Pod, ip: string): seq<Op> {
    [AddService(svc, []), AddPod(pod, Created), Report(pod.name, Ready, ip, true), RemovePod(pod.name, true)]
  }

  function States(svc: Service, pod: Pod, ip: string): seq<State> {
    [Empty(), Serving(svc, map[], [], map[]), Serving(svc, map[pod.name := pod.(phase := Pending)], [], map[]),
     Serving(svc, map[pod.name := Up(pod, ip)], [pod.name], map[]),
     Serving(svc, map[], [], map[pod.name := Cluster.Notice(Up(pod, ip), User)])]
  }

  /** The run of the server up to the deletion of the pod. */
  lemma ServerRuns(svc: Service, pod: Pod, ip: string)
    requires IsSubset(svc.selector, pod.labels)
    ensures IsRun(States(svc, pod, ip), Ops(svc, pod, ip))
  {
    hide CreatePod, DeletePod, UpdateStatus, CreateService, IsSubset;
    ServiceThere(svc);
    PodThere(svc, pod, map[]);
    Raised(svc, pod, ip, map[]);
    Deleted(svc, Up(pod, ip));
  }

  /** What the server does when the name comes back: the new pod becomes ready, then the old notice arrives. */
  lemma ComesBack(svc: Service, pod: Pod, ip: string)
    requires IsSubset(svc.selector, pod.labels)
    ensures var earlier := Cluster.Notice(Up(pod, ip), User);
      var s := Serving(svc, map[], [], map[pod.name := earlier]);
      var t := CreatePod(s, pod, Created);
      var u := UpdateStatus(t, pod.name, Ready, ip, true);
      && t == Serving(svc, map[pod.name := pod.(phase := Pending)], [], map[pod.name := earlier])
      && u == Serving(svc, map[pod.name := Up(pod, ip)], [pod.name], map[pod.name := earlier])
      && Notify(u, pod.name) == Serving(svc, map[pod.name := Up(pod, ip)], [pod.name], map[])
  {
    hide CreatePod, UpdateStatus, Notify, IsSubset;
    var earlier := Cluster.Notice(Up(pod, ip), User);
    PodThere(svc, pod, map[pod.name := earlier]);
    Raised(svc, pod, ip, map[pod.name := earlier]);
    Arrived(svc, map[pod.name := Up(pod, ip)], [pod.name], pod.name, earlier);
  }

  // ---- the node ----

  /** A service with one port; its pod is deleted and created again before the notice of the deletion arrives. At the
      end no notice is under way and the server lists the ready pod, but the chain of the service leads to no pod, and
      rules and record of the node are out of step. */
  lemma ReusedNameLoses(svc: Service, pod: Pod, ip: string, px: N.Proxy, home: string -> bool)
    requires IsSubset(svc.selector, pod.labels) && |svc.ports| == 1 && svc.clusterIP.Some?
    requires N.Refines(px) && px.meta == S.Meta(map[], map[], map[])
    ensures var m, names := N.Member(pod.name, ip, home(pod.name)), [svc.name];
      var made := O.Create(px, svc.name, Text(svc.clusterIP.value), svc.ports, []);
      var once := O.AddTo(made, names, m, 1);
      var states := States(svc, pod, ip);
      && IsJointRun(home, states, [px, made, made, once, once], Ops(svc, pod, ip))
      && !Sensible(states[4], AddPod(pod, Created))
      && var u := UpdateStatus(CreatePod(states[4], pod, Created), pod.name, Ready, ip, true);
      var twice := O.AddTo(once, names, m, 1);
      && Listing(CreatePod(states[4], pod, Created).ix, pod.labels, names)
      && E.Wired(twice) && pod.name in u.wire && Listing(u.ix, u.wire[pod.name].pod.labels, names)
      && var s, r := Notify(u, pod.name), E.EvictFrom(twice, names, pod.name, 1);
      && s.wire == map[] && s.ix.pods == map[pod.name := Up(pod, ip)] && s.ix.servicesToPods == map[svc.name := [pod.name]]
      && !N.Refines(r) && r.meta.Chains(svc.name) != []
      && forall e | N.InService(r.meta, svc.name, e) :: e.chain in r.table && r.table[e.chain] == []
  {
    hide N.Refines, N.DistinctPods, E.Wired, O.Create, O.AddTo, E.EvictFrom, CreatePod, UpdateStatus, Notify, IsSubset, IsRun;
    var m, names := N.Member(pod.name, ip, home(pod.name)), [svc.name];
    var made := O.Create(px, svc.name, Text(svc.clusterIP.value), svc.ports, []);
    var once := O.AddTo(made, names, m, 1);
    var states, nodes, ops := States(svc, pod, ip), [px, made, made, once, once], Ops(svc, pod, ip);
    ServerRuns(svc, pod, ip);
    OneListing(svc, states[2].ix.pods, [], map[], pod.labels);
    forall i | 0 <= i < 4 && N.Refines(nodes[i]) && N.DistinctPods(nodes[i])
      ensures NodeReacts(home, states[i], ops[i], nodes[i], nodes[i + 1])
    {
    }
    ComesBack(svc, pod, ip);
    OneListing(svc, states[2].ix.pods, [], states[4].wire, pod.labels);
    OneListing(svc, states[3].ix.pods, [pod.name], states[4].wire, pod.labels);
    assert svc.ports == [svc.ports[0]];
    P.DuplicateBreaks(px, svc.name, Text(svc.clusterIP.value), svc.ports[0], m);
  }
}
