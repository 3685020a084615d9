/**
 The nat table as the proxy sees it: chain names mapped to ordered rules. The operations are those
 of pkg/kubelet/proxy/iptables.go, with the kernel call replaced by an update of the table.
 */
module Iptables {
  import opened Sequences

  /** Chain names. The source draws the suffix of a service or pod chain from a uuid; here the suffix
      is the next unused number, so a drawn name is never one that was used before. */
  datatype Chain =
    | Services
    | MarkMasq
    | HostMarkMasq
    | Masquerading
    | HostMasquerading
    | Prerouting
    | Output
    | Postrouting
    | ServiceChain(id: nat)
    | PodChain(id: nat)
    | Other(name: string)

  /** The bits of the packet mark that the proxy uses: 0x10000 and 0x8000. */
  datatype MarkBit = MasqBit | HostBit

  /** `XMark(bit, masked)` is `--set-xmark` with the bit as value and the bit or zero as mask: it sets the bit, or flips
      it. `Action` stands for a rule of the host that is none of these. */
  datatype Rule =
    | ToService(clusterIP: string, port: int, service: string, target: Chain)
    | ToPod(pod: string, every: int, target: Chain)
    | Mark(source: string, target: Chain)
    | Jump(target: Chain)
    | Dnat(ip: string, port: int)
    | ReturnUnless(bit: MarkBit)
    | XMark(bit: MarkBit, masked: bool)
    | Masquerade
    | Snat(ip: string)
    | Action(text: string)
  {
    predicate HasTarget() {
      ToService? || ToPod? || Mark? || Jump?
    }

    predicate JumpsTo(c: Chain) {
      HasTarget() && target == c
    }
  }

  type Table = map<Chain, seq<Rule>>

  ghost predicate Referenced(t: Table, c: Chain) {
    exists from, i :: from in t && 0 <= i < |t[from]| && t[from][i].JumpsTo(c)
  }

  /** The rules of a pod chain: mark hairpin traffic, mark host traffic for a pod of another node,
      and rewrite the destination. */
  function PodRules(ip: string, targetPort: int, hostIP: string, sameHost: bool): (r: seq<Rule>)
  {
    [Mark(ip, MarkMasq)] + (if sameHost then [] else [Mark(hostIP, HostMarkMasq)]) + [Dnat(ip, targetPort)]
  }

  /** Whether the kernel takes a rule: its chain is there, and the chain it jumps to. */
  predicate Takes(t: Table, c: Chain, r: Rule) {
    c in t && (r.HasTarget() ==> r.target in t)
  }

  /** The rule is in the chain; at its end if it was not there. */
  function WithRule(t: Table, c: Chain, r: Rule): (u: Table)
    requires c in t
    ensures u.Keys == t.Keys && r in u[c] && forall d | d in t && d != c :: u[d] == t[d]
  {
    if r in t[c] then t else t[c := t[c] + [r]]
  }

  /** The rule is in the chain; before all others if it was not there. */
  function Hooked(t: Table, c: Chain, r: Rule): (u: Table)
    requires c in t
    ensures u.Keys == t.Keys && r in u[c] && forall d | d in t && d != c :: u[d] == t[d]
  {
    if r in t[c] then t else t[c := [r] + t[c]]
  }

  /** The chain is there; empty if it was not. */
  function WithChain(t: Table, c: Chain): (u: Table)
    ensures u.Keys == t.Keys + {c} && forall d | d in t :: u[d] == t[d]
  {
    if c in t then t else t[c := []]
  }

  /** A pod chain with its rules added to what it holds. */
  function Filled(t: Table, c: Chain, ip: string, targetPort: int, hostIP: string, sameHost: bool): Table
    requires c in t
  {
    var marked := WithRule(t, c, Mark(ip, MarkMasq));
    WithRule(if sameHost then marked else WithRule(marked, c, Mark(hostIP, HostMarkMasq)), c, Dnat(ip, targetPort))
  }

  /** Only this chain changes: rules are added at its end, and these are the rules that are in it then. */
  ghost predicate Extended(t: Table, u: Table, c: Chain, rules: set<Rule>)
    requires c in t
  {
    && u.Keys == t.Keys && (forall d | d in t && d != c :: u[d] == t[d])
    && t[c] <= u[c] && forall r :: r in u[c] <==> r in t[c] || r in rules
  }

  lemma RuleExtends(t: Table, u: Table, c: Chain, rules: set<Rule>, r: Rule)
    requires c in t && Extended(t, u, c, rules)
    ensures Extended(t, WithRule(u, c, r), c, rules + {r})
  {
  }

  lemma FilledExtends(t: Table, c: Chain, ip: string, targetPort: int, hostIP: string, sameHost: bool)
    requires c in t
    ensures Extended(t, Filled(t, c, ip, targetPort, hostIP, sameHost), c,
      {Mark(ip, MarkMasq), Dnat(ip, targetPort)} + if sameHost then {} else {Mark(hostIP, HostMarkMasq)})
  {
    var marked := WithRule(t, c, Mark(ip, MarkMasq));
    RuleExtends(t, t, c, {}, Mark(ip, MarkMasq));
    if !sameHost {
      RuleExtends(t, marked, c, {} + {Mark(ip, MarkMasq)}, Mark(hostIP, HostMarkMasq));
      var both := WithRule(marked, c, Mark(hostIP, HostMarkMasq));
      RuleExtends(t, both, c, {} + {Mark(ip, MarkMasq)} + {Mark(hostIP, HostMarkMasq)}, Dnat(ip, targetPort));
      assert {} + {Mark(ip, MarkMasq)} + {Mark(hostIP, HostMarkMasq)} + {Dnat(ip, targetPort)} ==
        {Mark(ip, MarkMasq), Dnat(ip, targetPort)} + {Mark(hostIP, HostMarkMasq)};
    } else {
      RuleExtends(t, marked, c, {} + {Mark(ip, MarkMasq)}, Dnat(ip, targetPort));
      assert {} + {Mark(ip, MarkMasq)} + {Dnat(ip, targetPort)} == {Mark(ip, MarkMasq), Dnat(ip, targetPort)} + {};
    }
  }

  lemma FilledEmpty(t: Table, c: Chain, ip: string, targetPort: int, hostIP: string, sameHost: bool)
    requires c in t && t[c] == []
    ensures Filled(t, c, ip, targetPort, hostIP, sameHost) == t[c := PodRules(ip, targetPort, hostIP, sameHost)]
  {
    var marked := WithRule(t, c, Mark(ip, MarkMasq));
    assert marked[c] == [Mark(ip, MarkMasq)];
    var both := if sameHost then marked else WithRule(marked, c, Mark(hostIP, HostMarkMasq));
    assert both[c] == [Mark(ip, MarkMasq)] + (if sameHost then [] else [Mark(hostIP, HostMarkMasq)]);
  }

  // ---- the start ----

  /** A chain that is jumped to after routing and rewrites sources; left as it is when it is hooked in already. */
  function Rewriting(t: Table, c: Chain, hook: Rule, rules: seq<Rule>): (u: Table)
    requires Postrouting in t && c != Postrouting
    ensures u.Keys == t.Keys + {c} && hook in u[Postrouting]
  {
    var made := WithChain(t, c);
    if hook in made[Postrouting] then made else WithRules(Hooked(made, Postrouting, hook), c, rules)
  }

  function WithRules(t: Table, c: Chain, rules: seq<Rule>): (u: Table)
    requires c in t
    ensures u.Keys == t.Keys && forall d | d in t && d != c :: u[d] == t[d]
  {
    if rules == [] then t else WithRule(WithRules(t, c, rules[..|rules| - 1]), c, rules[|rules| - 1])
  }

  lemma WithNoRules(t: Table, c: Chain, rules: seq<Rule>)
    requires c in t
    ensures WithRules(t, c, rules[..0]) == t && rules[..|rules|] == rules
  {
  }

  lemma WithRulesNext(t: Table, c: Chain, rules: seq<Rule>, i: nat)
    requires c in t && i < |rules|
    ensures WithRules(t, c, rules[..i + 1]) == WithRule(WithRules(t, c, rules[..i]), c, rules[i])
  {
    assert rules[..i + 1][..i] == rules[..i];
  }

  predicate HasBuiltins(t: Table) {
    Prerouting in t && Output in t && Postrouting in t
  }

  /** Only packets with the mark, which is then taken off. */
  function Rewrite(bit: MarkBit, action: Rule): (rules: seq<Rule>)
    requires !action.HasTarget()
    ensures forall r | r in rules :: !r.HasTarget()
  {
    [ReturnUnless(bit), XMark(bit, false), action]
  }

  /** The nat table after a start of the proxy. */
  function Initialised(t: Table, hostIP: string, flannelIP: string): (u: Table)
    requires HasBuiltins(t)
    ensures HasBuiltins(u)
  {
    hide Marking, Entered;
    Marking(Marking(Entered(t), Masquerading, Jump(Masquerading), MasqBit, Masquerade, MarkMasq),
            HostMasquerading, Mark(hostIP, HostMasquerading), HostBit, Snat(flannelIP), HostMarkMasq)
  }

  /** Packets that arrive and packets of the host itself enter the services chain. */
  function Entered(t: Table): (u: Table)
    requires Prerouting in t && Output in t
    ensures u.Keys == t.Keys + {Services}
  {
    Hooked(Hooked(WithChain(t, Services), Prerouting, Jump(Services)), Output, Jump(Services))
  }

  /** A chain that rewrites the sources of packets with a mark, and one that sets the mark. */
  function Marking(t: Table, c: Chain, hook: Rule, bit: MarkBit, action: Rule, setter: Chain): (u: Table)
    requires Postrouting in t && c != Postrouting && !action.HasTarget()
    ensures u.Keys == t.Keys + {c, setter}
  {
    WithRule(WithChain(Rewriting(t, c, hook, Rewrite(bit, action)), setter), setter, XMark(bit, true))
  }

  class IptablesClient {
    const hostIP: string
    const flannelIP: string
    var table: Table
    var next: nat

    constructor (hostIP: string, flannelIP: string, table: Table, next: nat)
      ensures this.hostIP == hostIP && this.flannelIP == flannelIP && this.table == table && this.next == next
    {
      this.hostIP, this.flannelIP, this.table, this.next := hostIP, flannelIP, table, next;
    }

    method CreateServiceChain() returns (c: Chain)
      modifies this
      ensures c == Chain.ServiceChain(old(next)) && next == old(next) + 1
      ensures table == old(table)[c := []]
    {
      c := Chain.ServiceChain(next);
      next := next + 1;
      table := table[c := []];
    }

    method CreatePodChain() returns (c: Chain)
      modifies this
      ensures c == Chain.PodChain(old(next)) && next == old(next) + 1
      ensures table == old(table)[c := []]
    {
      c := Chain.PodChain(next);
      next := next + 1;
      table := table[c := []];
    }

    /** `-I chain 1`: the new rule becomes the first. */
    method Insert(c: Chain, r: Rule) returns (ok: bool)
      modifies this`table
      ensures ok <==> Takes(old(table), c, r)
      ensures table == if ok then old(table)[c := [r] + old(table)[c]] else old(table)
    {
      ok := Takes(table, c, r);
      if ok {
        table := table[c := [r] + table[c]];
      }
    }

    /** `-A chain` unless the rule is already there. */
    method AppendUnique(c: Chain, r: Rule) returns (ok: bool)
      modifies this`table
      ensures ok <==> Takes(old(table), c, r)
      ensures table == if ok then WithRule(old(table), c, r) else old(table)
    {
      ok := Takes(table, c, r);
      if ok && r !in table[c] {
        table := table[c := table[c] + [r]];
      }
    }

    /** Fails silently when the chain is there. */
    method NewChain(c: Chain)
      modifies this`table
      ensures table == WithChain(old(table), c)
    {
      if c !in table {
        table := table[c := []];
      }
    }

    /** Jumps from a built-in chain, before its other rules. */
    method Hook(c: Chain, r: Rule) returns (ok: bool)
      modifies this`table
      ensures ok <==> Takes(old(table), c, r) || (c in old(table) && r in old(table)[c])
      ensures table == if ok then Hooked(old(table), c, r) else old(table)
    {
      if c in table && r in table[c] {
        return true;
      }
      ok := Insert(c, r);
    }

    /** The chains every service needs, with their fixed rules. It fails when a built-in chain is missing. */
    method InitServiceIPTables() returns (ok: bool)
      modifies this`table
      ensures ok <==> HasBuiltins(old(table))
      ensures ok ==> table == Initialised(old(table), hostIP, flannelIP)
    {
      hide Entered, Marking;
      ok := InitEntries();
      if !ok {
        return;
      }
      ok := InitMarking(Masquerading, Jump(Masquerading), MasqBit, Masquerade, MarkMasq);
      if !ok {
        return;
      }
      ok := InitMarking(HostMasquerading, Mark(hostIP, HostMasquerading), HostBit, Snat(flannelIP), HostMarkMasq);
    }

    method InitEntries() returns (ok: bool)
      modifies this`table
      ensures ok <==> Prerouting in old(table) && Output in old(table)
      ensures ok ==> table == Entered(old(table))
    {
      hide Hooked, WithChain;
      NewChain(Services);
      ok := Hook(Prerouting, Jump(Services));
      if ok {
        ok := Hook(Output, Jump(Services));
      }
    }

    method InitMarking(c: Chain, hook: Rule, bit: MarkBit, action: Rule, setter: Chain) returns (ok: bool)
      requires c != Postrouting && hook.JumpsTo(c) && !action.HasTarget()
      modifies this`table
      ensures ok <==> Postrouting in old(table)
      ensures ok ==> table == Marking(old(table), c, hook, bit, action, setter)
    {
      hide WithRule, WithChain, Rewriting, Rewrite;
      ok := InitRewriting(c, hook, Rewrite(bit, action));
      if ok {
        NewChain(setter);
        ok := AppendUnique(setter, XMark(bit, true));
      }
    }

    method InitRewriting(c: Chain, hook: Rule, rules: seq<Rule>) returns (ok: bool)
      requires c != Postrouting && hook.JumpsTo(c) && forall r | r in rules :: !r.HasTarget()
      modifies this`table
      ensures ok <==> Postrouting in old(table)
      ensures ok ==> table == Rewriting(old(table), c, hook, rules)
    {
      hide Hooked, WithRule, WithRules;
      NewChain(c);
      if Postrouting in table && hook in table[Postrouting] {
        return true;
      }
      ok := Hook(Postrouting, hook);
      if !ok {
        return;
      }
      ghost var hooked := table;
      WithNoRules(hooked, c, rules);
      for i := 0 to |rules|
        invariant c in table && table == WithRules(hooked, c, rules[..i])
      {
        WithRulesNext(hooked, c, rules, i);
        assert rules[i] in rules;
        ok := AppendUnique(c, rules[i]);
      }
      ok := true;
    }

    /** The entry rule of a service chain. `valid` says whether the cluster address parses. */
    method ApplyServiceChain(service: string, clusterIP: string, valid: bool, c: Chain, port: int) returns (ok: bool)
      modifies this`table
      ensures ok <==> valid && Services in old(table) && c in old(table)
      ensures table ==
        if ok then old(table)[Services := [ToService(clusterIP, port, service, c)] + old(table)[Services]]
        else old(table)
    {
      if !valid {
        return false;
      }
      ok := Insert(Services, ToService(clusterIP, port, service, c));
    }

    /** Fills a pod chain. `valid` says whether the pod address parses. It stops at the first rule the kernel does
        not take. */
    method ApplyPodChainRules(c: Chain, ip: string, valid: bool, targetPort: int, sameHost: bool) returns (ok: bool)
      modifies this`table
      ensures ok <==> valid && c in old(table) && MarkMasq in old(table) && (sameHost || HostMarkMasq in old(table))
      ensures table ==
        if ok then Filled(old(table), c, ip, targetPort, hostIP, sameHost)
        else if valid && c in old(table) && MarkMasq in old(table) then WithRule(old(table), c, Mark(ip, MarkMasq))
        else old(table)
      ensures ok ==> Extended(old(table), table, c,
        {Mark(ip, MarkMasq), Dnat(ip, targetPort)} + if sameHost then {} else {Mark(hostIP, HostMarkMasq)})
    {
      hide Extended, WithRule;
      if !valid {
        return false;
      }
      ok := AppendUnique(c, Mark(ip, MarkMasq));
      if !ok {
        return;
      }
      if !sameHost {
        ok := AppendUnique(c, Mark(hostIP, HostMarkMasq));
        if !ok {
          return;
        }
      }
      ok := AppendUnique(c, Dnat(ip, targetPort));
      FilledExtends(old(table), c, ip, targetPort, hostIP, sameHost);
    }

    method ApplyPodChain(c: Chain, pod: string, podChain: Chain, num: int) returns (ok: bool)
      modifies this`table
      ensures ok <==> c in old(table) && podChain in old(table)
      ensures table ==
        if ok then old(table)[c := [ToPod(pod, num, podChain)] + old(table)[c]] else old(table)
    {
      ok := Insert(c, ToPod(pod, num, podChain));
    }

    /** Flushes the chain; creates it when it is missing. */
    method ClearServiceChain(c: Chain)
      modifies this`table
      ensures table == old(table)[c := []]
    {
      table := table[c := []];
    }

    /** Flush and delete. The kernel refuses to delete a chain that some rule still jumps to; the chain is
        then left empty. */
    method DeletePodChain(c: Chain) returns (ok: bool)
      modifies this`table
      ensures ok <==> c !in old(table) || !Referenced(old(table)[c := []], c)
      ensures table == if c !in old(table) then old(table)
                       else if ok then old(table) - {c}
                       else old(table)[c := []]
    {
      if c !in table {
        return true;
      }
      table := table[c := []];
      ok := forall from | from in table :: forall r | r in table[from] :: !r.JumpsTo(c);
      assert !ok ==> Referenced(table, c);
      assert ok ==> !Referenced(table, c);
      if ok {
        table := table - {c};
      }
    }

    /** Removes the entry rule of the chain, then the chain; an error when there is no chain to look for the rule in. */
    method DeleteServiceChain(service: string, clusterIP: string, c: Chain, port: int) returns (ok: bool)
      modifies this`table
      ensures Services !in old(table) ==> !ok && table == old(table)
      ensures Services in old(table) ==>
        var bare := old(table)[Services := RemoveFirst(old(table)[Services], ToService(clusterIP, port, service, c))];
        && (ok <==> c !in bare || !Referenced(bare[c := []], c))
        && table == if c !in bare then bare else if ok then bare - {c} else bare[c := []]
    {
      if Services !in table {
        return false;
      }
      table := table[Services := RemoveFirst(table[Services], ToService(clusterIP, port, service, c))];
      ok := DeletePodChain(c);
    }
  }
}
