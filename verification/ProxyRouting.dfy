/**
 From the address of a service to its chain: packets enter the services chain, whose first matching rule decides.
 */
module ProxyRouting {
  import opened Sequences
  import opened Iptables
  import opened ServiceMeta
  import opened ProxyState
  import opened ProxyInvariants
  import opened ProxyOps
  import opened ProxyListing
  import B = NthBalancer
  import opened Packets
  import opened ProxyRuns

  predicate MatchesRule(r: Rule, ip: string, port: int) {
    r.ToService? && r.clusterIP == ip && r.port == port
  }

  /** Where the first rule that matches the destination jumps to. */
  function Route(rules: seq<Rule>, ip: string, port: int): (to: Option<Chain>)
    ensures to.Some? ==> exists r :: r in rules && MatchesRule(r, ip, port) && r.target == to.value
    ensures to.None? ==> forall r | r in rules :: !MatchesRule(r, ip, port)
  {
    if rules == [] then None
    else if MatchesRule(rules[0], ip, port) then assert rules[0] in rules; Some(rules[0].target)
    else Route(rules[1..], ip, port)
  }

  /** No two port mappings share an address and a port. */
  ghost predicate Addressed(px: Proxy) {
    forall s, e, t, x | InService(px.meta, s, e) && InService(px.meta, t, x) ::
      s in px.meta.clusterIPs && t in px.meta.clusterIPs &&
      (px.meta.clusterIPs[s] == px.meta.clusterIPs[t] && e.port.port == x.port.port ==> s == t && e == x)
  }

  lemma RulesAreEntries(px: Proxy, r: Rule)
    requires Refines(px) && r in px.table[Services]
    ensures r.ToService? && r.target.ServiceChain? && r.target.id < |px.drawn| && px.drawn[r.target.id].ForService?
    ensures var e := ServiceEntry(r.target, px.drawn[r.target.id].port);
      && InService(px.meta, r.service, e) && r.service in px.meta.clusterIPs
      && r == Entry(r.service, px.meta.clusterIPs[r.service], e)
  {
    assert EntryOnRecord(px, r);
  }

  lemma EntryThere(px: Proxy, s: string, e: ServiceEntry)
    requires Refines(px) && InService(px.meta, s, e)
    ensures Services in px.table && s in px.meta.clusterIPs && Entry(s, px.meta.clusterIPs[s], e) in px.table[Services]
  {
  }

  lemma OneChainOneEntry(px: Proxy, s: string, e: ServiceEntry, t: string, x: ServiceEntry)
    requires Refines(px) && InService(px.meta, s, e) && InService(px.meta, t, x) && e.chain == x.chain
    ensures s == t && e == x
  {
  }

  /** Every port mapping is reached at its address and port exactly when no two share them. */
  lemma RoutesIff(px: Proxy)
    requires Refines(px)
    ensures Services in px.table
    ensures Addressed(px) <==> forall s, e | InService(px.meta, s, e) ::
      s in px.meta.clusterIPs && Route(px.table[Services], px.meta.clusterIPs[s], e.port.port) == Some(e.chain)
  {
    hide Refines, Route;
    EntriesThere(px);
    if Addressed(px) {
      forall s, e | InService(px.meta, s, e)
        ensures s in px.meta.clusterIPs && Route(px.table[Services], px.meta.clusterIPs[s], e.port.port) == Some(e.chain)
      {
        EntryThere(px, s, e);
        RouteFinds(px, s, e);
      }
    } else {
      forall s, e | InService(px.meta, s, e) ensures s in px.meta.clusterIPs {
        EntryThere(px, s, e);
      }
      var s, e, t, x :| InService(px.meta, s, e) && InService(px.meta, t, x) &&
        px.meta.clusterIPs[s] == px.meta.clusterIPs[t] && e.port.port == x.port.port && !(s == t && e == x);
      if e.chain == x.chain {
        OneChainOneEntry(px, s, e, t, x);
      }
    }
  }

  lemma EntriesThere(px: Proxy)
    requires Refines(px)
    ensures Services in px.table
  {
  }

  /** No other port mapping shares the address and the port of this one. */
  ghost predicate Alone(px: Proxy, s: string, e: ServiceEntry) {
    s in px.meta.clusterIPs && forall t, x | InService(px.meta, t, x) ::
      t in px.meta.clusterIPs &&
      (px.meta.clusterIPs[t] == px.meta.clusterIPs[s] && x.port.port == e.port.port ==> t == s && x == e)
  }

  lemma RouteFinds(px: Proxy, s: string, e: ServiceEntry)
    requires Refines(px) && InService(px.meta, s, e) && Alone(px, s, e)
    ensures Services in px.table
    ensures Route(px.table[Services], px.meta.clusterIPs[s], e.port.port) == Some(e.chain)
  {
    hide Refines, Route;
    EntryThere(px, s, e);
    var rules := px.table[Services];
    var to := Route(rules, px.meta.clusterIPs[s], e.port.port);
    assert MatchesRule(Entry(s, px.meta.clusterIPs[s], e), px.meta.clusterIPs[s], e.port.port);
    var r :| r in rules && MatchesRule(r, px.meta.clusterIPs[s], e.port.port) && r.target == to.value;
    RulesAreEntries(px, r);
  }

  // ---- a packet on its way ----

  /** A packet in the services chain goes where the first matching rule says. */
  lemma {:induction false} RouteTraversed(t: Table, rules: seq<Rule>, p: Packet, due: Rule -> bool, depth: nat)
    requires depth > 0 && forall r | r in rules :: r.ToService?
    requires var to := Route(rules, p.destination, p.port);
      to.Some? && to.value in t && Traverse(t, t[to.value], p, due, depth - 1).done
    ensures Traverse(t, rules, p, due, depth) ==
      Traverse(t, t[Route(rules, p.destination, p.port).value], p, due, depth - 1)
  {
    assert rules[0] in rules && forall r | r in rules[1..] :: r in rules;
    if !MatchesRule(rules[0], p.destination, p.port) {
      RouteTraversed(t, rules[1..], p, due, depth);
    }
  }

  /** A packet in a service chain with pods is delivered to the one that the balancer says. */
  lemma ServiceDelivers(px: Proxy, s: string, e: ServiceEntry, seen: nat -> nat, p: Packet, depth: nat) returns (j: nat)
    requires Refines(px) && InService(px.meta, s, e) && px.meta.Pods(e.chain) != [] && depth > 1
    requires forall n | n > 0 :: seen(n) < n
    ensures e.chain in px.table && B.Descending(px.table[e.chain])
    ensures var pods := px.meta.Pods(e.chain);
      && j < |pods| && B.Landing(B.Load(px.table[e.chain], seen), 0) == Some(pods[j].chain)
      && Traverse(px.table, px.table[e.chain], p, Due(seen), depth) ==
         Outcome(Delivered(p, pods[j].ip, e.port.targetPort, px.host, Here(px, pods[j])), true)
  {
    hide Refines, Traverse, B.Load, B.Pass, Delivered, B.Numbered;
    var pods := px.meta.Pods(e.chain);
    ExactBalance(px, s, e, seen, 0, 0);
    RulesOnRecord(px, s, e);
    var rules := px.table[e.chain];
    forall i | 0 <= i < |rules|
      ensures rules[i].target in px.table
      ensures rules[i].target == pods[|pods| - 1 - i].chain
      ensures Traverse(px.table, px.table[rules[i].target], p, Due(seen), depth - 1).done
    {
      ServiceRuleAt(pods, i);
      PodDelivers(px, s, e, pods[|pods| - 1 - i]);
    }
    ChainTraversed(px.table, rules, seen, p, depth);
    B.LoadNumbered(rules, seen);
    SomeoneHit(B.Load(rules, seen));
    var hit := B.Pass(B.Load(rules, seen)).hit;
    var i :| 0 <= i < |rules| && rules[i].target == hit.value;
    j := |pods| - 1 - i;
    PodDelivers(px, s, e, pods[j]);
    assert B.After(B.Load(rules, seen), 0) == B.Load(rules, seen);
  }

  /** The whole way: in any state in which rules and record agree, a packet to the address and port of a port mapping
      that shares them with no other ends with the address of a recorded pod and the target port; the pod is the one
      whose turn it is. */
  lemma PacketReaches(px: Proxy, s: string, e: ServiceEntry, seen: nat -> nat, p: Packet, depth: nat) returns (j: nat)
    requires Refines(px) && InService(px.meta, s, e) && Alone(px, s, e) && px.meta.Pods(e.chain) != [] && depth > 2
    requires p.destination == px.meta.clusterIPs[s] && p.port == e.port.port
    requires forall n | n > 0 :: seen(n) < n
    ensures Services in px.table && e.chain in px.table && B.Descending(px.table[e.chain])
    ensures var pods := px.meta.Pods(e.chain);
      && j < |pods| && B.Landing(B.Load(px.table[e.chain], seen), 0) == Some(pods[j].chain)
      && Traverse(px.table, px.table[Services], p, Due(seen), depth) ==
         Outcome(Delivered(p, pods[j].ip, e.port.targetPort, px.host, Here(px, pods[j])), true)
  {
    hide Refines, Traverse, Route, B.Load, Delivered;
    RouteFinds(px, s, e);
    j := ServiceDelivers(px, s, e, seen, p, depth - 1);
    forall r | r in px.table[Services] ensures r.ToService? {
      RulesAreEntries(px, r);
    }
    RouteTraversed(px.table, px.table[Services], p, Due(seen), depth);
  }

  // ---- addresses stay apart ----

  /** The service got an address no other has, and its ports differ. */
  ghost predicate FreshAddress(before: Meta, after: Meta, service: string) {
    && service in after.clusterIPs && after.clusterIPs[service] !in before.clusterIPs.Values
    && forall i, j | 0 <= i < j < |after.Chains(service)| ::
         after.Chains(service)[i].port.port != after.Chains(service)[j].port.port
  }

  lemma CreateAddressed(px: Proxy, service: string, clusterIP: string, ports: seq<ServicePort>, ms: seq<Member>)
    requires Refines(px) && Addressed(px) && service !in px.meta.clusterIPs
    requires FreshAddress(px.meta, Create(px, service, clusterIP, ports, ms).meta, service)
    ensures Addressed(Create(px, service, clusterIP, ports, ms))
  {
    hide Refines, Create, Names, MemberNames, Lists;
    CreateLists(px, service, clusterIP, ports, ms);
    var r := Create(px, service, clusterIP, ports, ms);
    forall s, e | InService(r.meta, s, e) ensures s in r.meta.clusterIPs && (s != service ==> InService(px.meta, s, e)) {
      if s != service {
        assert InService(px.meta, s, e);
      }
    }
    forall s, e, t, x | InService(r.meta, s, e) && InService(r.meta, t, x) &&
                        r.meta.clusterIPs[s] == r.meta.clusterIPs[t] && e.port.port == x.port.port
      ensures s == t && e == x
    {
      if s != service {
        assert px.meta.clusterIPs[s] in px.meta.clusterIPs.Values;
      }
      if t != service {
        assert px.meta.clusterIPs[t] in px.meta.clusterIPs.Values;
      }
    }
  }

  /** Joining and leaving do not touch addresses, and deleting a service takes some away. */
  lemma FewerAddressed(px: Proxy, r: Proxy)
    requires Addressed(px)
    requires forall s, e | InService(r.meta, s, e) :: InService(px.meta, s, e)
    requires forall s, e | InService(r.meta, s, e) && s in px.meta.clusterIPs ::
      s in r.meta.clusterIPs && r.meta.clusterIPs[s] == px.meta.clusterIPs[s]
    ensures Addressed(r)
  {
  }

  /** If the step created a service, with an address of its own. */
  ghost predicate Spaced(px: Proxy, op: Op, r: Proxy) {
    op.CreateService? && op.service !in px.meta.clusterIPs ==> FreshAddress(px.meta, r.meta, op.service)
  }

  lemma StepAddressed(px: Proxy, op: Op)
    requires Refines(px) && DistinctPods(px) && Addressed(px)
    requires Spaced(px, op, Step(px, op))
    ensures Addressed(Step(px, op))
  {
    hide Refines, DistinctPods, AddTo, RemoveFrom, Addressed, Create;
    match op
    case CreateService(s, ip, ports, ms) =>
      if s in px.meta.clusterIPs {
        CreateExisting(px, s, ip, ports, ms);
      } else {
        CreateAddressed(px, s, ip, ports, ms);
      }
    case DeleteService(s) =>
      if s in px.meta.clusterIPs {
        DropMeta(px, s);
      }
      FewerAddressed(px, Step(px, op));
    case AddPod(_, _) => FewerAddressed(px, Step(px, op));
    case DeletePod(_, _) => FewerAddressed(px, Step(px, op));
  }

  lemma DropMeta(px: Proxy, service: string)
    requires Refines(px) && service in px.meta.clusterIPs
    ensures forall s, e | InService(Delete(px, service).meta, s, e) :: s != service && InService(px.meta, s, e)
    ensures Delete(px, service).meta.clusterIPs == px.meta.clusterIPs - {service}
  {
  }

  /** In every state of every run in which services get addresses of their own, n consecutive packets to the address
      and a port of a service of n pods enter that port's chain, and each pod's chain gets exactly one of them. */
  lemma PortBalance(states: seq<Proxy>, ops: seq<Op>, i: nat, s: string, e: ServiceEntry, seen: nat -> nat, j: nat)
    requires IsRun(states, ops) && i < |states| && Addressed(states[0])
    requires forall n | 0 <= n < i :: Spaced(states[n], ops[n], states[n + 1])
    requires InService(states[i].meta, s, e) && j < |states[i].meta.Pods(e.chain)|
    requires forall n | n > 0 :: seen(n) < n
    ensures var px := states[i];
      var pods := px.meta.Pods(e.chain);
      && Services in px.table && s in px.meta.clusterIPs
      && Route(px.table[Services], px.meta.clusterIPs[s], e.port.port) == Some(e.chain)
      && e.chain in px.table && B.Descending(px.table[e.chain])
      && B.Received(B.Load(px.table[e.chain], seen), |pods|, Some(pods[j].chain)) == 1
      && B.Received(B.Load(px.table[e.chain], seen), |pods|, None) == 0
      && Delivers(px.table, pods[j].chain, pods[j].ip, e.port.targetPort, px.host, Here(px, pods[j]))
  {
    hide Refines, DistinctPods, Sensible, Step, Addressed, Spaced, B.Received, B.Load, Delivers, B.Descending;
    RunRefines(states, ops, i);
    RunAddressed(states, ops, i);
    RoutesIff(states[i]);
    ExactBalance(states[i], s, e, seen, j, 0);
  }

  lemma {:induction false} RunAddressed(states: seq<Proxy>, ops: seq<Op>, i: nat)
    requires IsRun(states, ops) && i < |states| && Addressed(states[0])
    requires forall n | 0 <= n < i :: Spaced(states[n], ops[n], states[n + 1])
    ensures Addressed(states[i])
    decreases i
  {
    hide Refines, DistinctPods, Sensible, Step, Addressed, Spaced;
    if i > 0 {
      var n := i - 1;
      RunAddressed(states, ops, n);
      RunRefines(states, ops, n);
      assert Spaced(states[n], ops[n], states[n + 1]);
      StepAddressed(states[n], ops[n]);
    }
  }
}
