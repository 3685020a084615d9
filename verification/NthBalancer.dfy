/**
 What the kernel does with the rules of a service chain. A rule `-m statistic --mode nth --every n
 --packet 0` counts the packets that reach it and matches one in every n; a packet it does not match goes
 on to the next rule. ApplyPodChain (pkg/kubelet/proxy/iptables.go:526-563) inserts each new rule first, so
 a chain of n pods carries the numbers n, n-1, ..., 1 from top to bottom.
 */
module NthBalancer {
  import opened Sequences
  import opened Iptables

  /** A service chain in the kernel: each rule with the packets it has seen since its last match. */
  datatype Balancer = End | Nth(every: nat, seen: nat, target: Chain, below: Balancer)

  datatype Step = Step(hit: Option<Chain>, after: Balancer)

  /** One packet through the chain: the pod chain it lands in, if any, and the new counters. */
  function Pass(b: Balancer): Step {
    match b
    case End => Step(None, End)
    case Nth(every, seen, target, below) =>
      if seen + 1 == every then Step(Some(target), b.(seen := 0))
      else
        var rest := Pass(below);
        Step(rest.hit, b.(seen := seen + 1, below := rest.after))
  }

  /** The counters after `m` packets. */
  function After(b: Balancer, m: nat): Balancer {
    if m == 0 then b else Pass(After(b, m - 1)).after
  }

  /** Where packet number `m` (from 0) lands. */
  function Landing(b: Balancer, m: nat): Option<Chain> {
    Pass(After(b, m)).hit
  }

  /** How many of the first `m` packets land in `target`; None counts those that fall off the end. */
  function Received(b: Balancer, m: nat, target: Option<Chain>): nat {
    if m == 0 then 0
    else Received(b, m - 1, target) + if Landing(b, m - 1) == target then 1 else 0
  }

  lemma {:induction false} AfterAppend(b: Balancer, m: nat, k: nat)
    ensures After(b, m + k) == After(After(b, m), k)
    decreases k
  {
    if k > 0 {
      AfterAppend(b, m, k - 1);
    }
  }

  lemma {:induction false} ReceivedAppend(b: Balancer, m: nat, k: nat, target: Option<Chain>)
    ensures Received(b, m + k, target) == Received(b, m, target) + Received(After(b, m), k, target)
    decreases k
  {
    if k > 0 {
      ReceivedAppend(b, m, k - 1, target);
      AfterAppend(b, m, k - 1);
    }
  }

  /** Until its top rule fires, a chain behaves like the rules below it. */
  lemma {:induction false} TopIdle(b: Balancer, m: nat, target: Option<Chain>)
    requires b.Nth? && b.seen + m < b.every
    ensures After(b, m) == b.(seen := b.seen + m, below := After(b.below, m))
    ensures Received(b, m, target) == Received(b.below, m, target)
    decreases m
  {
    if m > 0 {
      TopIdle(b, m - 1, target);
    }
  }

  /** The packet for which the top rule fires. */
  lemma TopFires(b: Balancer, j: nat, target: Option<Chain>)
    requires b.Nth? && b.seen + j + 1 == b.every
    ensures After(b, j + 1) == b.(seen := 0, below := After(b.below, j))
    ensures Received(b, j + 1, target) ==
      Received(b.below, j, target) + if Some(b.target) == target then 1 else 0
  {
    TopIdle(b, j, target);
  }

  /** One round seen from below the top rule: j packets pass it, one is taken, and as many pass as it had
      seen before. */
  lemma RoundSplit(b: Balancer, j: nat, below: nat, target: Option<Chain>)
    requires b.Nth? && b.seen + j + 1 == b.every && below + 1 == b.every
    ensures After(b, below + 1) == b.(below := After(b.below, below))
    ensures Received(b, below + 1, target) ==
      Received(b.below, below, target) + if Some(b.target) == target then 1 else 0
  {
    hide Pass, After, Landing, Received;
    TopFires(b, j, target);
    var fired := b.(seen := 0, below := After(b.below, j));
    TopIdle(fired, b.seen, target);
    AfterAppend(b, j + 1, b.seen);
    ReceivedAppend(b, j + 1, b.seen, target);
    AfterAppend(b.below, j, b.seen);
    ReceivedAppend(b.below, j, b.seen, target);
    assert j + 1 + b.seen == below + 1 && j + b.seen == below;
  }

  function Length(b: Balancer): nat {
    if b.End? then 0 else 1 + Length(b.below)
  }

  /** Numbered n, n-1, ..., 1 from the top, with any counter values the kernel can hold. */
  predicate Numbered(b: Balancer) {
    b.Nth? ==> b.every == Length(b) && b.seen < b.every && Numbered(b.below)
  }

  /** How often the rules name `target`. */
  function Named(b: Balancer, target: Option<Chain>): nat {
    if b.End? then 0 else Named(b.below, target) + if Some(b.target) == target then 1 else 0
  }

  lemma NoPackets(b: Balancer, target: Option<Chain>)
    ensures Received(b, 0, target) == 0 && After(b, 0) == b
  {
  }

  /** Exact round robin: from any counter values, n consecutive packets through a chain of n rules land in
      each target as often as the rules name it, none falls off the end, and the counters are back where
      they were. */
  lemma {:induction false} RoundRobin(b: Balancer, target: Option<Chain>)
    requires Numbered(b)
    ensures Received(b, Length(b), target) == Named(b, target)
    ensures After(b, Length(b)) == b
    ensures Received(b, Length(b), None) == 0
  {
    hide After, Received;
    if b.End? {
      NoPackets(b, target);
      NoPackets(b, None);
    } else {
      RoundRobin(b.below, target);
      RoundSplit(b, b.every - 1 - b.seen, Length(b.below), target);
      RoundSplit(b, b.every - 1 - b.seen, Length(b.below), None);
    }
  }

  lemma {:induction false} ReceivedMonotone(b: Balancer, m: nat, k: nat, target: Option<Chain>)
    requires m <= k
    ensures Received(b, m, target) <= Received(b, k, target)
    decreases k
  {
    if m < k {
      ReceivedMonotone(b, m, k - 1, target);
    }
  }

  /** Full rounds of `n` in `m` packets. */
  function Rounds(m: nat, n: nat): nat
    requires n > 0
  {
    if m < n then 0 else 1 + Rounds(m - n, n)
  }

  lemma {:induction false} RoundsIsDivision(m: nat, n: nat)
    requires n > 0
    ensures n * Rounds(m, n) <= m < n * Rounds(m, n) + n
  {
    if m >= n {
      RoundsIsDivision(m - n, n);
      assert n * Rounds(m, n) == n * Rounds(m - n, n) + n;
    }
  }

  /** Fair share at any time: a chain that names `target` once has sent it, after m packets, one packet
      for each full round and at most one more. */
  lemma {:induction false} FairShare(b: Balancer, m: nat, target: Option<Chain>)
    requires Numbered(b) && Named(b, target) == 1
    ensures Length(b) > 0
    ensures Rounds(m, Length(b)) <= Received(b, m, target) <= Rounds(m, Length(b)) + 1
    decreases m
  {
    RoundRobin(b, target);
    var n := Length(b);
    if m < n {
      ReceivedMonotone(b, m, n, target);
    } else {
      ReceivedAppend(b, n, m - n, target);
      FairShare(b, m - n, target);
    }
  }

  // ---- from the rule table ----

  /** From top to bottom the rules count n, n-1, ..., 1. */
  predicate Descending(rules: seq<Rule>) {
    forall i | 0 <= i < |rules| :: rules[i].ToPod? && rules[i].every == |rules| - i
  }

  /** The kernel's view of a chain of rules with the given counters. */
  function Load(rules: seq<Rule>, seen: nat -> nat): (b: Balancer)
    requires Descending(rules)
    ensures Length(b) == |rules|
  {
    if rules == [] then End
    else
      assert Descending(rules[1..]) by {
        forall i | 0 <= i < |rules| - 1
          ensures rules[1..][i].ToPod? && rules[1..][i].every == |rules| - 1 - i
        {
          assert rules[1..][i] == rules[i + 1];
        }
      }
      Nth(|rules|, seen(|rules|), rules[0].target, Load(rules[1..], seen))
  }

  lemma {:induction false} LoadNumbered(rules: seq<Rule>, seen: nat -> nat)
    requires Descending(rules)
    requires forall n | 0 < n <= |rules| :: seen(n) < n
    ensures Numbered(Load(rules, seen))
  {
    if rules != [] {
      var b := Load(rules, seen);
      LoadNumbered(rules[1..], seen);
    }
  }

  /** Rules with distinct targets name each of them once. */
  lemma {:induction false} LoadNames(rules: seq<Rule>, seen: nat -> nat, target: Chain)
    requires Descending(rules)
    requires forall i, j | 0 <= i < j < |rules| :: rules[i].target != rules[j].target
    ensures Named(Load(rules, seen), Some(target)) ==
      if exists i :: 0 <= i < |rules| && rules[i].target == target then 1 else 0
  {
    if rules != [] {
      var tail := rules[1..];
      var b := Load(rules, seen);
      assert forall i | 0 <= i < |tail| :: tail[i] == rules[i + 1];
      LoadNames(tail, seen, target);
      if i :| 0 <= i < |rules| && rules[i].target == target {
        if i > 0 {
          assert tail[i - 1].target == target;
        }
      }
    }
  }
}
