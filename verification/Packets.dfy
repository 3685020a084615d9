/**
 What the nat table does to a TCP packet that enters a chain.
 */
module Packets {
  import opened Sequences
  import opened Iptables
  import B = NthBalancer

  /** `masqueraded` says that the source becomes the address of the interface the packet leaves by. */
  datatype Packet = Packet(source: string, destination: string, port: int, marks: set<MarkBit>, masqueraded: bool)

  /** The packet after a chain, and whether the table is done with it. */
  datatype Outcome = Outcome(packet: Packet, done: bool)

  /** Whether a rule with a target takes the packet; `due` says whose counter is at its number. */
  predicate Meets(r: Rule, p: Packet, due: Rule -> bool)
    requires r.HasTarget()
  {
    match r
    case ToService(ip, port, _, _) => p.destination == ip && p.port == port
    case ToPod(_, _, _) => due(r)
    case Mark(source, _) => p.source == source
    case _ => true
  }

  function Flip(marks: set<MarkBit>, bit: MarkBit): set<MarkBit> {
    if bit in marks then marks - {bit} else marks + {bit}
  }

  /** The rules in order, following jumps at most `depth` deep. DNAT, SNAT and MASQUERADE end the table for the packet,
      RETURN and the end of a chain go back to where it was jumped to, MARK goes on. */
  function Traverse(t: Table, rules: seq<Rule>, p: Packet, due: Rule -> bool, depth: nat): Outcome
    decreases depth, |rules|
  {
    if rules == [] then Outcome(p, false)
    else
      var r, rest := rules[0], rules[1..];
      if r.HasTarget() then
        if Meets(r, p, due) && depth > 0 && r.target in t then
          var there := Traverse(t, t[r.target], p, due, depth - 1);
          if there.done then there else Traverse(t, rest, there.packet, due, depth)
        else Traverse(t, rest, p, due, depth)
      else
        match r
        case Dnat(ip, port) => Outcome(p.(destination := ip, port := port), true)
        case Snat(ip) => Outcome(p.(source := ip), true)
        case Masquerade => Outcome(p.(masqueraded := true), true)
        case ReturnUnless(bit) => if bit in p.marks then Traverse(t, rest, p, due, depth) else Outcome(p, false)
        case XMark(bit, masked) =>
          Traverse(t, rest, p.(marks := Flip(if masked then p.marks - {bit} else p.marks, bit)), due, depth)
        case _ => Traverse(t, rest, p, due, depth)
  }

  /** The packet once it is rewritten for a pod: its destination is the pod's address and port; it is marked for
      masquerading exactly when it comes from the pod itself, and marked as the host's exactly when it comes from the
      host and the pod runs elsewhere; everything else about it is as it was. */
  function Delivered(p: Packet, ip: string, port: int, host: string, here: bool): Packet {
    Packet(p.source, ip, port,
           p.marks + (if p.source == ip then {MasqBit} else {}) + (if p.source == host && !here then {HostBit} else {}),
           p.masqueraded)
  }

  /** The chains that set the marks have nothing else in them. */
  predicate MarksSet(t: Table) {
    && MarkMasq in t && t[MarkMasq] == [XMark(MasqBit, true)]
    && HostMarkMasq in t && t[HostMarkMasq] == [XMark(HostBit, true)]
  }

  /** Every packet that enters the chain is delivered to the pod. */
  ghost predicate Delivers(t: Table, c: Chain, ip: string, port: int, host: string, here: bool) {
    c in t && forall p, due, depth: nat | depth > 0 ::
      Traverse(t, t[c], p, due, depth) == Outcome(Delivered(p, ip, port, host, here), true)
  }

  /** A rule that sends packets from one source through a chain that sets a mark. */
  lemma MarkTraversed(t: Table, c: Chain, bit: MarkBit, source: string, rest: seq<Rule>, p: Packet, due: Rule -> bool, depth: nat)
    requires c in t && t[c] == [XMark(bit, true)] && depth > 0
    ensures Traverse(t, [Mark(source, c)] + rest, p, due, depth) ==
      Traverse(t, rest, if p.source == source then p.(marks := p.marks + {bit}) else p, due, depth)
  {
    assert ([Mark(source, c)] + rest)[1..] == rest;
    var marked := p.(marks := Flip(p.marks - {bit}, bit));
    assert Traverse(t, [XMark(bit, true)], p, due, depth - 1) == Outcome(marked, false) by {
      assert [XMark(bit, true)][1..] == [];
    }
    assert marked == p.(marks := p.marks + {bit});
  }

  lemma DnatTraversed(t: Table, ip: string, port: int, p: Packet, due: Rule -> bool, depth: nat)
    ensures Traverse(t, [Dnat(ip, port)], p, due, depth) == Outcome(p.(destination := ip, port := port), true)
  {
  }

  /** The rules of a pod chain deliver to the pod. */
  lemma PodRulesDeliver(t: Table, c: Chain, ip: string, port: int, host: string, here: bool)
    requires MarksSet(t) && c in t && t[c] == PodRules(ip, port, host, here)
    ensures Delivers(t, c, ip, port, host, here)
  {
    forall p, due, depth: nat | depth > 0
      ensures Traverse(t, t[c], p, due, depth) == Outcome(Delivered(p, ip, port, host, here), true)
    {
      hide Traverse;
      var last := [Dnat(ip, port)];
      var rest := if here then last else [Mark(host, HostMarkMasq)] + last;
      assert t[c] == [Mark(ip, MarkMasq)] + rest;
      MarkTraversed(t, MarkMasq, MasqBit, ip, rest, p, due, depth);
      var q := if p.source == ip then p.(marks := p.marks + {MasqBit}) else p;
      if !here {
        MarkTraversed(t, HostMarkMasq, HostBit, host, last, q, due, depth);
      }
      var w := if !here && q.source == host then q.(marks := q.marks + {HostBit}) else q;
      DnatTraversed(t, ip, port, w, due, depth);
    }
  }

  // ---- a service chain ----

  /** The rules whose counters are at their numbers. */
  function Due(seen: nat -> nat): Rule -> bool {
    (r: Rule) => r.ToPod? && r.every > 0 && seen(r.every as nat) + 1 == r.every
  }

  lemma DescendingRest(rules: seq<Rule>)
    requires B.Descending(rules) && rules != []
    ensures B.Descending(rules[1..]) && rules[0].ToPod? && rules[0].every == |rules|
  {
    forall i | 0 <= i < |rules| - 1 ensures rules[1..][i].ToPod? && rules[1..][i].every == |rules| - 1 - i {
      assert rules[1..][i] == rules[i + 1];
    }
  }

  /** A packet in a service chain goes where the balancer says. */
  lemma {:induction false} ChainTraversed(t: Table, rules: seq<Rule>, seen: nat -> nat, p: Packet, depth: nat)
    requires B.Descending(rules) && depth > 0
    requires forall r | r in rules :: r.target in t && Traverse(t, t[r.target], p, Due(seen), depth - 1).done
    ensures var hit := B.Pass(B.Load(rules, seen)).hit;
      && (hit.Some? ==> exists r :: r in rules && r.target == hit.value)
      && (hit.Some? ==> hit.value in t && Traverse(t, rules, p, Due(seen), depth) == Traverse(t, t[hit.value], p, Due(seen), depth - 1))
      && (hit.None? ==> Traverse(t, rules, p, Due(seen), depth) == Outcome(p, false))
  {
    if rules != [] {
      DescendingRest(rules);
      assert rules[0] in rules && forall r | r in rules[1..] :: r in rules;
      ChainTraversed(t, rules[1..], seen, p, depth);
      assert rules[0].HasTarget() && (Meets(rules[0], p, Due(seen)) <==> seen(|rules|) + 1 == |rules|);
    }
  }

  lemma {:induction false} SomeoneHit(b: B.Balancer)
    requires B.Numbered(b) && b.Nth?
    ensures B.Pass(b).hit.Some?
  {
    if b.below.Nth? {
      SomeoneHit(b.below);
    } else {
      assert B.Length(b.below) == 0;
    }
  }
}
