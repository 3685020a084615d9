/**
 The nat table a proxy starts from: what InitServiceIPTables makes of the table it finds.
 */
module ProxyStart {
  import opened Sequences
  import opened Iptables
  import opened ServiceMeta
  import opened ProxyState
  import opened Packets

  /** The chains the start makes. */
  const FIXED: set<Chain> := {Services, MarkMasq, HostMarkMasq, Masquerading, HostMasquerading}

  /** The table has grown: no rule is lost, and what is new jumps to fixed chains at most. */
  ghost predicate Grown(t: Table, u: Table) {
    && (forall c | c in t :: c in u && forall r | r in t[c] :: r in u[c])
    && (forall c, r | c in u && r in u[c] :: (c in t && r in t[c]) || (r.HasTarget() ==> r.target in FIXED && r.target in u))
  }

  lemma GrownTwice(t: Table, u: Table, v: Table)
    requires Grown(t, u) && Grown(u, v)
    ensures Grown(t, v)
  {
  }

  lemma HookGrows(t: Table, c: Chain, r: Rule)
    requires c in t && (r.HasTarget() ==> r.target in FIXED && r.target in t)
    ensures Grown(t, Hooked(t, c, r)) && Grown(t, WithRule(t, c, r))
  {
  }

  lemma ChainGrows(t: Table, c: Chain)
    ensures Grown(t, WithChain(t, c))
  {
  }

  lemma {:induction false} RulesGrow(t: Table, c: Chain, rules: seq<Rule>)
    requires c in t && forall r | r in rules :: !r.HasTarget()
    ensures Grown(t, WithRules(t, c, rules))
  {
    hide WithRule, Grown;
    if rules == [] {
      ChainGrows(t, c);
    } else {
      var last := rules[|rules| - 1];
      assert last in rules;
      RulesGrow(t, c, rules[..|rules| - 1]);
      var u := WithRules(t, c, rules[..|rules| - 1]);
      HookGrows(u, c, last);
      GrownTwice(t, u, WithRule(u, c, last));
    }
  }

  lemma RewritingGrows(t: Table, c: Chain, hook: Rule, rules: seq<Rule>)
    requires Postrouting in t && c != Postrouting && c in FIXED && hook.JumpsTo(c) && forall r | r in rules :: !r.HasTarget()
    ensures Grown(t, Rewriting(t, c, hook, rules))
  {
    hide WithRule, WithRules, Hooked, WithChain, Grown;
    var made := WithChain(t, c);
    ChainGrows(t, c);
    if hook !in made[Postrouting] {
      var hooked := Hooked(made, Postrouting, hook);
      HookGrows(made, Postrouting, hook);
      RulesGrow(hooked, c, rules);
      GrownTwice(t, made, hooked);
      GrownTwice(t, hooked, WithRules(hooked, c, rules));
    }
  }

  lemma MarkingGrows(t: Table, c: Chain, hook: Rule, bit: MarkBit, action: Rule, setter: Chain)
    requires Postrouting in t && c != Postrouting && c in FIXED && hook.JumpsTo(c) && !action.HasTarget()
    ensures Grown(t, Marking(t, c, hook, bit, action, setter))
  {
    hide WithRule, WithChain, Rewriting, Grown;
    var rewriting := Rewriting(t, c, hook, Rewrite(bit, action));
    RewritingGrows(t, c, hook, Rewrite(bit, action));
    var made := WithChain(rewriting, setter);
    ChainGrows(rewriting, setter);
    GrownTwice(t, rewriting, made);
    var rule := XMark(bit, true);
    HookGrows(made, setter, rule);
    GrownTwice(t, made, WithRule(made, setter, rule));
  }

  lemma EnteredGrows(t: Table)
    requires Prerouting in t && Output in t
    ensures Grown(t, Entered(t))
  {
    hide Hooked, WithChain, Grown;
    var made := WithChain(t, Services);
    ChainGrows(t, Services);
    var hooked := Hooked(made, Prerouting, Jump(Services));
    HookGrows(made, Prerouting, Jump(Services));
    GrownTwice(t, made, hooked);
    HookGrows(hooked, Output, Jump(Services));
    GrownTwice(t, hooked, Entered(t));
  }

  /** Initialisation keeps all rules of the host, and adds the fixed chains and rules only. */
  lemma StartGrows(t: Table, host: string, flannel: string)
    requires HasBuiltins(t)
    ensures var u := Initialised(t, host, flannel);
      Grown(t, u) && u.Keys == t.Keys + FIXED
  {
    hide Grown, Marking, Entered;
    var entered := Entered(t);
    EnteredGrows(t);
    var marked := Marking(entered, Masquerading, Jump(Masquerading), MasqBit, Masquerade, MarkMasq);
    MarkingGrows(entered, Masquerading, Jump(Masquerading), MasqBit, Masquerade, MarkMasq);
    GrownTwice(t, entered, marked);
    MarkingGrows(marked, HostMasquerading, Mark(host, HostMasquerading), HostBit, Snat(flannel), HostMarkMasq);
    GrownTwice(t, marked, Initialised(t, host, flannel));
  }

  /** A chain with the rule that sets the bit. */
  function Marked(t: Table, c: Chain, bit: MarkBit): seq<Rule> {
    var rules := if c in t then t[c] else [];
    if XMark(bit, true) in rules then rules else rules + [XMark(bit, true)]
  }

  /** Nothing is entered at the start, and the marks are set where nothing else is done. */
  lemma StartMarks(t: Table, host: string, flannel: string)
    requires HasBuiltins(t)
    ensures var u := Initialised(t, host, flannel);
      && u.Keys == t.Keys + FIXED && u[Services] == (if Services in t then t[Services] else [])
      && u[MarkMasq] == Marked(t, MarkMasq, MasqBit) && u[HostMarkMasq] == Marked(t, HostMarkMasq, HostBit)
  {
    hide Marking, Entered, Marked;
    var entered := Entered(t);
    ServicesEntered(t);
    MarkedSame(t, entered, MarkMasq, MasqBit);
    MarkedSame(t, entered, HostMarkMasq, HostBit);
    var marked := Marking(entered, Masquerading, Jump(Masquerading), MasqBit, Masquerade, MarkMasq);
    ServicesMarked(entered, Masquerading, Jump(Masquerading), MasqBit, Masquerade, MarkMasq);
    MarkedSame(entered, marked, HostMarkMasq, HostBit);
    ServicesMarked(marked, HostMasquerading, Mark(host, HostMasquerading), HostBit, Snat(flannel), HostMarkMasq);
  }

  lemma MarkedSame(t: Table, u: Table, c: Chain, bit: MarkBit)
    requires c in t <==> c in u
    requires c in t ==> u[c] == t[c]
    ensures Marked(u, c, bit) == Marked(t, c, bit)
  {
  }

  lemma ServicesEntered(t: Table)
    requires Prerouting in t && Output in t
    ensures Entered(t)[Services] == if Services in t then t[Services] else []
    ensures forall c | c != Prerouting && c != Output && c in t :: c in Entered(t) && Entered(t)[c] == t[c]
  {
  }

  lemma ServicesMarked(t: Table, c: Chain, hook: Rule, bit: MarkBit, action: Rule, setter: Chain)
    requires Postrouting in t && c != Postrouting && setter != Postrouting && setter != c && !action.HasTarget()
    ensures var u := Marking(t, c, hook, bit, action, setter);
      && u[setter] == Marked(t, setter, bit)
      && forall d | d in t && d != c && d != setter && d != Postrouting :: u[d] == t[d]
  {
    hide WithRules;
  }

  // ---- what the rules of the start do to packets ----

  /** A chain that was not there gets its three rules, and the jump to it comes first. */
  lemma MarkingAdds(t: Table, c: Chain, hook: Rule, bit: MarkBit, action: Rule, setter: Chain)
    requires Postrouting in t && c !in t && hook !in t[Postrouting] && setter != Postrouting && setter != c
    requires action.Masquerade? || action.Snat?
    ensures var u := Marking(t, c, hook, bit, action, setter);
      u[c] == Rewrite(bit, action) && u[Postrouting] == [hook] + t[Postrouting]
  {
    hide Rewriting, Rewrite;
    RewritingAdds(t, c, hook, bit, action);
  }

  lemma RewritingAdds(t: Table, c: Chain, hook: Rule, bit: MarkBit, action: Rule)
    requires Postrouting in t && c != Postrouting && c !in t && hook !in t[Postrouting] && (action.Masquerade? || action.Snat?)
    ensures var u := Rewriting(t, c, hook, Rewrite(bit, action));
      u[c] == Rewrite(bit, action) && u[Postrouting] == [hook] + t[Postrouting]
  {
    hide WithRules;
    var hooked := Hooked(WithChain(t, c), Postrouting, hook);
    var rules := Rewrite(bit, action);
    RulesAppended(hooked, c, rules, 3);
    assert rules[..3] == rules;
  }

  /** Different rules are appended to an empty chain one after the other. */
  lemma {:induction false} RulesAppended(t: Table, c: Chain, rules: seq<Rule>, k: nat)
    requires c in t && t[c] == [] && NoDup(rules) && k <= |rules|
    ensures WithRules(t, c, rules[..k])[c] == rules[..k]
  {
    hide WithRules, WithRule, NoDup;
    WithNoRules(t, c, rules);
    if k > 0 {
      RulesAppended(t, c, rules, k - 1);
      WithRulesNext(t, c, rules, k - 1);
      NotBefore(rules, k - 1);
      RuleAdded(WithRules(t, c, rules[..k - 1]), c, rules[k - 1]);
      assert rules[..k - 1] + [rules[k - 1]] == rules[..k];
    }
  }

  lemma NotBefore(rules: seq<Rule>, k: nat)
    requires NoDup(rules) && k < |rules|
    ensures rules[k] !in rules[..k]
  {
  }

  lemma RuleAdded(t: Table, c: Chain, r: Rule)
    requires c in t && r !in t[c]
    ensures WithRule(t, c, r)[c] == t[c] + [r]
  {
  }

  /** Packets without the mark leave the chain as they came; the others lose it and their source is rewritten. */
  lemma RewriteTraversed(t: Table, bit: MarkBit, action: Rule, p: Packet, due: Rule -> bool, depth: nat)
    requires action.Masquerade? || action.Snat?
    ensures Traverse(t, Rewrite(bit, action), p, due, depth) ==
      if bit !in p.marks then Outcome(p, false)
      else var q := p.(marks := p.marks - {bit});
        Outcome(if action.Snat? then q.(source := action.ip) else q.(masqueraded := true), true)
  {
    assert Rewrite(bit, action)[1..] == [XMark(bit, false), action] && [XMark(bit, false), action][1..] == [action];
    var q := p.(marks := Flip(p.marks, bit));
    assert Traverse(t, [action], q, due, depth) ==
      Outcome(if action.Snat? then q.(source := action.ip) else q.(masqueraded := true), true);
    assert Traverse(t, [XMark(bit, false), action], p, due, depth) == Traverse(t, [action], q, due, depth);
  }

  lemma JumpTraversed(t: Table, r: Rule, rest: seq<Rule>, p: Packet, due: Rule -> bool, depth: nat)
    requires depth > 0 && (r.Jump? || r.Mark?) && r.target in t
    ensures Traverse(t, [r] + rest, p, due, depth) ==
      if r.Mark? && p.source != r.source then Traverse(t, rest, p, due, depth)
      else var there := Traverse(t, t[r.target], p, due, depth - 1);
        if there.done then there else Traverse(t, rest, there.packet, due, depth)
  {
    assert ([r] + rest)[1..] == rest;
  }

  /** After a first start, packets that leave: those of the host with the host's mark get the flannel address as source,
      those marked for masquerading the address of their interface, and the rest goes on to the host's own rules. */
  lemma StartRewrites(t: Table, host: string, flannel: string, p: Packet, due: Rule -> bool, depth: nat)
    requires HasBuiltins(t) && Masquerading !in t && HostMasquerading !in t && depth > 0
    requires forall r | r in t[Postrouting] :: !r.JumpsTo(Masquerading) && !r.JumpsTo(HostMasquerading)
    ensures var u := Initialised(t, host, flannel);
      Traverse(u, u[Postrouting], p, due, depth) ==
      if p.source == host && HostBit in p.marks then Outcome(p.(source := flannel, marks := p.marks - {HostBit}), true)
      else if MasqBit in p.marks then Outcome(p.(masqueraded := true, marks := p.marks - {MasqBit}), true)
      else Traverse(u, t[Postrouting], p, due, depth)
  {
    hide Marking, Entered, Rewrite, Traverse, Marked;
    var entered := Entered(t);
    ServicesEntered(t);
    var marked := Marking(entered, Masquerading, Jump(Masquerading), MasqBit, Masquerade, MarkMasq);
    MarkingAdds(entered, Masquerading, Jump(Masquerading), MasqBit, Masquerade, MarkMasq);
    var u := Initialised(t, host, flannel);
    MarkingAdds(marked, HostMasquerading, Mark(host, HostMasquerading), HostBit, Snat(flannel), HostMarkMasq);
    ServicesMarked(marked, HostMasquerading, Mark(host, HostMasquerading), HostBit, Snat(flannel), HostMarkMasq);
    var rest := [Jump(Masquerading)] + t[Postrouting];
    assert u[Postrouting] == [Mark(host, HostMasquerading)] + rest;
    JumpTraversed(u, Mark(host, HostMasquerading), rest, p, due, depth);
    JumpTraversed(u, Jump(Masquerading), t[Postrouting], p, due, depth);
    RewriteTraversed(u, HostBit, Snat(flannel), p, due, depth - 1);
    RewriteTraversed(u, MasqBit, Masquerade, p, due, depth - 1);
  }

  /** Packets that arrive, and those of the host, enter the services chain first. */
  lemma StartEnters(t: Table, host: string, flannel: string)
    requires HasBuiltins(t) && forall c | c in t :: Jump(Services) !in t[c]
    ensures var u := Initialised(t, host, flannel);
      u[Prerouting] == [Jump(Services)] + t[Prerouting] && u[Output] == [Jump(Services)] + t[Output]
  {
    hide Marking, Marked;
    var entered := Entered(t);
    ServicesMarked(entered, Masquerading, Jump(Masquerading), MasqBit, Masquerade, MarkMasq);
    var marked := Marking(entered, Masquerading, Jump(Masquerading), MasqBit, Masquerade, MarkMasq);
    ServicesMarked(marked, HostMasquerading, Mark(host, HostMasquerading), HostBit, Snat(flannel), HostMarkMasq);
  }

  /** A table without leftovers: nothing enters a service, no service or pod chain exists, the chains that set marks
      have nothing else in them, and no jump dangles. */
  ghost predicate Bare(t: Table) {
    && (Services in t ==> t[Services] == [])
    && (forall c | c in t :: !c.ServiceChain? && !c.PodChain?)
    && (MarkMasq in t ==> t[MarkMasq] == [] || t[MarkMasq] == [XMark(MasqBit, true)])
    && (HostMarkMasq in t ==> t[HostMarkMasq] == [] || t[HostMarkMasq] == [XMark(HostBit, true)])
    && (forall c, r | c in t && r in t[c] :: r.HasTarget() ==> r.target in t.Keys + FIXED)
  }

  lemma NothingEntered(px: Proxy)
    requires EntriesRefine(px)
    ensures px.table[Services] != [] ==> px.drawn != []
  {
    assert px.table[Services] != [] ==> EntryOnRecord(px, px.table[Services][0]);
  }

  /** A start leaves the table in step with the empty record exactly when it finds no leftovers of an earlier run:
      it adds what is missing and removes nothing. */
  lemma StartRefinesIff(t: Table, host: string, flannel: string)
    requires HasBuiltins(t)
    ensures var px := Proxy(host, Initialised(t, host, flannel), Meta(map[], map[], map[]), []);
      (Refines(px) <==> Bare(t)) && DistinctPods(px)
  {
    hide Initialised;
    StartGrows(t, host, flannel);
    StartMarks(t, host, flannel);
    var u := Initialised(t, host, flannel);
    var px := Proxy(host, u, Meta(map[], map[], map[]), []);
    if Bare(t) {
      forall c, r | c in u && r in u[c] ensures JumpSound(px, c, r) {
      }
    }
    if Refines(px) {
      NothingEntered(px);
      forall c, r | c in t && r in t[c] ensures r.HasTarget() ==> r.target in t.Keys + FIXED {
        assert JumpSound(px, c, r);
      }
    }
  }
}
