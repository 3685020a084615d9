/**
 The autoscaler (pkg/apiserver/scale/controller.go). Processor time is a real number, memory a number of bytes.
 */
module Autoscaling {
  import opened Sequences
  import opened Core
  import opened Cluster
  import opened ClusterInvariants
  import opened Components

  datatype Resource = CPU | Memory | Other

  datatype Metric = Metric(resource: Resource, target: nat)

  /** What an autoscaler asks for; the targets it divides by are positive. */
  datatype Policy = Policy(min: uint32, max: uint32, metrics: seq<Metric>)
  {
    predicate Valid() {
      forall m | m in metrics :: m.target > 0
    }
  }

  datatype Load = Load(cpu: real, memory: nat)

  datatype Decision = Out | In | Stay

  /** A twentieth more than the target. */
  function Expanded(target: nat): real { target as real * 1.05 }

  function Ceil(x: real): int { -((-x).Floor) }

  predicate WantsOut(m: Metric, n: nat, load: Load)
    requires n > 0
  {
    match m.resource
    case CPU => load.cpu / n as real > Expanded(m.target)
    case Memory => load.memory / n > Expanded(m.target).Floor
    case Other => false
  }

  predicate WantsIn(m: Metric, n: nat, load: Load)
    requires m.target > 0
  {
    match m.resource
    case CPU => Ceil(load.cpu / m.target as real) < n
    case Memory => load.memory / m.target + (if load.memory % m.target != 0 then 1 else 0) < n
    case Other => false
  }

  /** What a tick decides for n pods that are all ready and whose usage is known. */
  function Decide(p: Policy, replicas: int, ready: int, n: nat, load: Load): Decision
    requires p.Valid()
  {
    if n == 0 || ready > p.max || ready < p.min then Stay
    else if replicas < p.max && exists m | m in p.metrics :: WantsOut(m, n, load) then Out
    else if replicas <= p.min then Stay
    else if forall m | m in p.metrics :: WantsIn(m, n, load) then In
    else Stay
  }

  // ---- no oscillation ----

  lemma DivideLess(x: real, n: real, y: real)
    requires n > 0.0
    ensures x / n > y <==> x > y * n
  {
    assert x == (x / n) * n;
    if x / n > y {
      assert (x / n - y) * n > 0.0;
    } else {
      assert (y - x / n) * n >= 0.0;
    }
  }

  /** n pods are enough by the rounding of scale-in exactly when the load fits the targets of n pods. */
  lemma CeilBound(x: real, t: nat, n: int)
    requires t > 0
    ensures Ceil(x / t as real) <= n <==> x <= n as real * t as real
  {
    DivideLess(x, t as real, n as real);
  }

  lemma Monotone(a: int, b: int, t: nat)
    requires a <= b
    ensures a * t <= b * t
  {
    assert (b - a) * t >= 0;
  }

  lemma QuotientBound(x: nat, q: int, r: int, t: nat, n: int)
    requires x == q * t + r && 0 <= r < t
    ensures q + (if r != 0 then 1 else 0) <= n <==> x <= n * t
  {
    if q + 1 <= n {
      Monotone(q + 1, n, t);
      assert (q + 1) * t == q * t + t;
    } else if q >= n + 1 {
      Monotone(n + 1, q, t);
      assert (n + 1) * t == n * t + t;
    }
  }

  lemma ByteBound(x: nat, t: nat, n: int)
    requires t > 0
    ensures x / t + (if x % t != 0 then 1 else 0) <= n <==> x <= n * t
  {
    QuotientBound(x, x / t, x % t, t, n);
  }

  lemma ByteShare(x: nat, n: nat, t: int)
    requires n > 0 && t >= 0 && x / n > t
    ensures x >= (t + 1) * n
  {
    assert (x / n - (t + 1)) * n >= 0;
    assert x == (x / n) * n + x % n;
  }

  lemma ExpandedAtLeast(t: nat)
    ensures Expanded(t) >= t as real && Expanded(t).Floor >= t
  {
  }

  /** A metric that finds n pods too few never finds n of n + 1 pods enough. */
  lemma OutNotIn(m: Metric, n: nat, load: Load)
    requires n > 0 && m.target > 0 && WantsOut(m, n, load)
    ensures !WantsIn(m, n + 1, load)
  {
    ExpandedAtLeast(m.target);
    var t := m.target;
    match m.resource
    case CPU =>
      DivideLess(load.cpu, n as real, Expanded(t));
      CeilBound(load.cpu, t, n);
      RealProduct(n as real, Expanded(t), t as real);
    case Memory =>
      ByteShare(load.memory, n, Expanded(t).Floor);
      ByteBound(load.memory, t, n);
      Product(n, Expanded(t).Floor + 1, t);
      assert t * n == n * t;
  }

  lemma RealProduct(n: real, x: real, t: real)
    requires n > 0.0 && x >= t
    ensures x * n >= n * t
  {
    assert (x - t) * n >= 0.0;
  }

  lemma Product(n: nat, x: int, t: int)
    requires n > 0 && x > t
    ensures x * n > t * n
  {
    Monotone(t + 1, x, n);
    assert (t + 1) * n == t * n + n;
  }

  /** A tick on a settled deployment: as many pods as wanted, all of them ready. */
  function Tick(p: Policy, load: Load, n: nat): int
    requires p.Valid()
  {
    match Decide(p, n, n, n, load)
    case Out => n + 1
    case In => n - 1
    case Stay => n
  }

  lemma InMeansAll(p: Policy, n: nat, load: Load)
    requires p.Valid() && Decide(p, n, n, n, load) == In
    ensures n > p.min && forall m | m in p.metrics :: WantsIn(m, n, load)
  {
  }

  /** At constant load a settled deployment that was scaled out is not scaled in at the next tick, and one that
      was scaled in is not scaled out, for any mix of metrics. */
  lemma NoOscillation(p: Policy, load: Load, n: nat)
    requires p.Valid()
    ensures Decide(p, n, n, n, load) == Out ==> Decide(p, n + 1, n + 1, n + 1, load) != In
    ensures Decide(p, n, n, n, load) == In ==> n > 0 && Decide(p, n - 1, n - 1, n - 1, load) != Out
  {
    hide WantsOut, WantsIn;
    match Decide(p, n, n, n, load)
    case Out =>
      var m :| m in p.metrics && WantsOut(m, n, load);
      OutNotIn(m, n, load);
    case In =>
      InMeansAll(p, n, load);
      if Decide(p, n - 1, n - 1, n - 1, load) == Out {
        var m :| m in p.metrics && WantsOut(m, n - 1, load);
        OutNotIn(m, n - 1, load);
      }
    case Stay =>
  }

  lemma StaysInRange(p: Policy, load: Load, n: nat)
    requires p.Valid() && p.min <= n <= p.max
    ensures p.min <= Tick(p, load, n) <= p.max
  {
  }

  /** The wanted number after k ticks of a settled deployment. */
  function Ticks(p: Policy, load: Load, n: nat, k: nat): (r: nat)
    requires p.Valid() && p.min <= n <= p.max
    ensures p.min <= r <= p.max
  {
    if k == 0 then n
    else
      var before := Ticks(p, load, n, k - 1);
      StaysInRange(p, load, before);
      Tick(p, load, before)
  }

  /** After k ticks the deployment has stopped, or it has moved k times in the direction it is moving in. */
  lemma {:induction false} SameDirection(p: Policy, load: Load, n: nat, k: nat)
    requires p.Valid() && p.min <= n <= p.max
    ensures var r := Ticks(p, load, n, k);
      match Decide(p, r, r, r, load)
      case Out => r == n + k
      case In => r == n - k
      case Stay => true
  {
    hide Decide;
    if k > 0 {
      SameDirection(p, load, n, k - 1);
      NoOscillation(p, load, Ticks(p, load, n, k - 1));
    }
  }

  lemma MovesWithin(p: Policy, load: Load, n: nat)
    requires p.Valid()
    ensures Decide(p, n, n, n, load) == Out ==> n < p.max
    ensures Decide(p, n, n, n, load) == In ==> n > p.min
  {
  }

  /** A fixed point is reached within max - min ticks and kept. */
  lemma {:induction false} ReachesFixedPoint(p: Policy, load: Load, n: nat, k: nat)
    requires p.Valid() && p.min <= n <= p.max && k >= p.max - p.min
    ensures Ticks(p, load, n, k + 1) == Ticks(p, load, n, k)
    ensures Ticks(p, load, n, k) == Ticks(p, load, n, p.max - p.min)
    decreases k
  {
    hide Decide;
    SameDirection(p, load, n, k);
    MovesWithin(p, load, Ticks(p, load, n, k));
    if k > p.max - p.min {
      ReachesFixedPoint(p, load, n, k - 1);
    }
  }

  // ---- between the ticks of the deployment ----

  /** The unsigned number after a decision. */
  function Moved(wanted: uint32, decision: Decision): uint32 {
    match decision
    case Out => Inc(wanted)
    case In => Dec(wanted)
    case Stay => wanted
  }

  /** The wanted number after a tick that finds `replicas` pods counted, `ready` of them ready, and n listed. */
  function Wanted(p: Policy, wanted: uint32, replicas: int, ready: int, n: nat, load: Load): uint32
    requires p.Valid()
  {
    Moved(wanted, Decide(p, replicas, ready, n, load))
  }

  /** The tick of a settled deployment is the case in which as many pods are counted, ready and listed as wanted. */
  lemma TickIsWanted(p: Policy, load: Load, n: uint32)
    requires p.Valid() && p.min <= n <= p.max
    ensures Tick(p, load, n) == Wanted(p, n, n, n, n, load)
  {
  }

  predicate Measured(m: Metric) {
    m.resource.CPU? || m.resource.Memory?
  }

  /** There is a load at which a tick scales out. */
  predicate MayGrow(p: Policy, replicas: int, ready: int, n: nat) {
    n > 0 && p.min <= ready <= p.max && replicas < p.max && exists m | m in p.metrics :: Measured(m)
  }

  /** There is a load at which a tick scales in; it is the load zero. */
  predicate MayShrink(p: Policy, replicas: int, ready: int, n: nat) {
    n > 0 && p.min <= ready <= p.max && replicas > p.min && forall m | m in p.metrics :: Measured(m)
  }

  lemma GrowthLoad(p: Policy, replicas: int, ready: int, n: nat) returns (load: Load)
    requires p.Valid() && MayGrow(p, replicas, ready, n)
    ensures Decide(p, replicas, ready, n, load) == Out
  {
    var m :| m in p.metrics && Measured(m);
    var t := Expanded(m.target);
    load := Load((t + 1.0) * n as real, (t.Floor + 1) * n);
    DivideLess(load.cpu, n as real, t);
    RealProduct(n as real, t + 1.0, t);
    ShareAtLeast(load.memory, load.memory / n, load.memory % n, t.Floor + 1, n);
    assert WantsOut(m, n, load);
  }

  lemma ShareAtLeast(x: nat, q: int, r: int, t: nat, n: nat)
    requires x == q * n + r && r < n && x == t * n
    ensures q >= t
  {
    assert (q + 1) * n == q * n + n;
    if q < t {
      Monotone(q + 1, t, n);
    }
  }

  lemma IdleWants(m: Metric, n: nat)
    requires n > 0 && m.target > 0
    ensures !WantsOut(m, n, Load(0.0, 0)) && (WantsIn(m, n, Load(0.0, 0)) <==> Measured(m))
  {
  }

  lemma IdleShrinks(p: Policy, replicas: int, ready: int, n: nat)
    requires p.Valid() && MayShrink(p, replicas, ready, n)
    ensures Decide(p, replicas, ready, n, Load(0.0, 0)) == In
  {
    hide WantsOut, WantsIn;
    forall m | m in p.metrics ensures !WantsOut(m, n, Load(0.0, 0)) && WantsIn(m, n, Load(0.0, 0)) {
      IdleWants(m, n);
    }
  }

  /** Whatever the load, a tick moves only where it may. */
  lemma MovesOnlyWhere(p: Policy, replicas: int, ready: int, n: nat, load: Load)
    requires p.Valid()
    ensures Decide(p, replicas, ready, n, load) == Out ==> MayGrow(p, replicas, ready, n)
    ensures Decide(p, replicas, ready, n, load) == In ==> MayShrink(p, replicas, ready, n)
  {
  }

  lemma MovedInRange(p: Policy, wanted: uint32, decision: Decision)
    requires p.min <= wanted <= p.max
    ensures p.min <= Moved(wanted, decision) <= p.max <==>
      || (p.min == 0 && p.max == 0xFFFF_FFFF)
      || (!(wanted == p.max && decision == Out) && !(wanted == p.min && decision == In))
  {
  }

  /** Exactly when a tick leaves the wanted number within its limits whatever the load: the tick compares the
      counted pods with the limits but moves the wanted number, so it must not be at the maximum while growth is
      possible, nor at the minimum while shrinking is; or the limits allow every unsigned number. */
  lemma InRangeIff(p: Policy, wanted: uint32, replicas: int, ready: int, n: nat)
    requires p.Valid() && p.min <= wanted <= p.max
    ensures (forall load :: p.min <= Wanted(p, wanted, replicas, ready, n, load) <= p.max) <==>
      || (p.min == 0 && p.max == 0xFFFF_FFFF)
      || (!(wanted == p.max && MayGrow(p, replicas, ready, n)) && !(wanted == p.min && MayShrink(p, replicas, ready, n)))
  {
    hide Decide, MayGrow, MayShrink, Moved;
    forall load
      ensures Decide(p, replicas, ready, n, load) == Out ==> MayGrow(p, replicas, ready, n)
      ensures Decide(p, replicas, ready, n, load) == In ==> MayShrink(p, replicas, ready, n)
      ensures Wanted(p, wanted, replicas, ready, n, load) == Moved(wanted, Decide(p, replicas, ready, n, load))
    {
      MovesOnlyWhere(p, replicas, ready, n, load);
    }
    forall decision ensures p.min <= Moved(wanted, decision) <= p.max <==>
      || (p.min == 0 && p.max == 0xFFFF_FFFF)
      || (!(wanted == p.max && decision == Out) && !(wanted == p.min && decision == In))
    {
      MovedInRange(p, wanted, decision);
    }
    if wanted == p.max && MayGrow(p, replicas, ready, n) {
      var load := GrowthLoad(p, replicas, ready, n);
      assert Wanted(p, wanted, replicas, ready, n, load) == Moved(wanted, Out);
    }
    if wanted == p.min && MayShrink(p, replicas, ready, n) {
      IdleShrinks(p, replicas, ready, n);
      assert Wanted(p, wanted, replicas, ready, n, Load(0.0, 0)) == Moved(wanted, In);
    }
  }

  /** When as many pods are counted as are wanted, the wanted number stays in range, whatever else holds. */
  lemma WantedInRange(p: Policy, wanted: uint32, ready: int, n: nat, load: Load)
    requires p.Valid() && p.min <= wanted <= p.max
    ensures p.min <= Wanted(p, wanted, wanted, ready, n, load) <= p.max
  {
    InRangeIff(p, wanted, wanted, ready, n);
  }

  /** The wanted number after k ticks of the autoscaler between two ticks of the deployment: what is counted and
      listed stays as it is. */
  function Ahead(p: Policy, wanted: uint32, replicas: int, ready: int, n: nat, load: Load, k: nat): uint32
    requires p.Valid()
  {
    if k == 0 then wanted else Wanted(p, Ahead(p, wanted, replicas, ready, n, load, k - 1), replicas, ready, n, load)
  }

  /** Nothing stops it: the limits are not consulted again, and every tick moves the number one further, round the
      end of the unsigned numbers if need be. */
  lemma {:induction false} RunsAhead(p: Policy, wanted: uint32, replicas: int, ready: int, n: nat, load: Load, k: nat)
    requires p.Valid()
    ensures Ahead(p, wanted, replicas, ready, n, load, k) ==
      match Decide(p, replicas, ready, n, load)
      case Out => Wrap(wanted + k)
      case In => Wrap(wanted - k)
      case Stay => wanted
  {
    hide Decide;
    if k > 0 {
      RunsAhead(p, wanted, replicas, ready, n, load, k - 1);
      WrapStep(wanted + k - 1);
      WrapStep(wanted - k + 1);
    }
  }

  /** An instance: two bytes per byte of target, one pod counted, two wanted and allowed. */
  lemma OvershootInstance()
    ensures var p := Policy(1, 2, [Metric(Memory, 100)]);
      p.Valid() && Wanted(p, 2, 1, 1, 1, Load(0.0, 200)) == 3
  {
    var p := Policy(1, 2, [Metric(Memory, 100)]);
    assert Expanded(100) == 105.0;
    assert WantsOut(p.metrics[0], 1, Load(0.0, 200));
  }

  /** An instance: two idle pods whose deletion does not come through, one wanted. The next tick wants none, and
      the one after that 4294967295. */
  lemma UndershootInstance()
    ensures var p := Policy(1, 2, [Metric(Memory, 100)]);
      && p.Valid()
      && Ahead(p, 1, 2, 2, 2, Load(0.0, 0), 1) == 0
      && Ahead(p, 1, 2, 2, 2, Load(0.0, 0), 2) == 0xFFFF_FFFF
  {
    var p := Policy(1, 2, [Metric(Memory, 100)]);
    IdleShrinks(p, 2, 2, 2);
    RunsAhead(p, 1, 2, 2, 2, Load(0.0, 0), 1);
    RunsAhead(p, 1, 2, 2, 2, Load(0.0, 0), 2);
  }

  // ---- the code ----

  /** The usage a metrics manager reports, per pod. */
  datatype Usage = Usage(cpu: string -> Option<real>, memory: string -> Option<nat>)

  function SumCPU(u: Usage, pods: seq<string>): Option<real> {
    if pods == [] then Some(0.0)
    else
      match (SumCPU(u, pods[..|pods| - 1]), u.cpu(pods[|pods| - 1]))
      case (Some(total), Some(one)) => Some(total + one)
      case _ => None
  }

  function SumMemory(u: Usage, pods: seq<string>): Option<nat> {
    if pods == [] then Some(0)
    else
      match (SumMemory(u, pods[..|pods| - 1]), u.memory(pods[|pods| - 1]))
      case (Some(total), Some(one)) => Some(total + one)
      case _ => None
  }

  /** The load the pods report; zero for what is not asked for or not known. */
  function LoadOf(u: Usage, pods: seq<string>): Load {
    Load(if SumCPU(u, pods).Some? then SumCPU(u, pods).value else 0.0,
         if SumMemory(u, pods).Some? then SumMemory(u, pods).value else 0)
  }

  /** One pod gives its own usage, and the usage of a list adds up however it is divided. */
  lemma {:induction false} CPUAdds(u: Usage, a: seq<string>, b: seq<string>)
    ensures forall pod :: SumCPU(u, [pod]) == u.cpu(pod)
    ensures SumCPU(u, a + b) ==
      match (SumCPU(u, a), SumCPU(u, b)) { case (Some(x), Some(y)) => Some(x + y) case _ => None }
  {
    forall pod ensures SumCPU(u, [pod]) == u.cpu(pod) {
      assert [pod][..0] == [] && SumCPU(u, []) == Some(0.0);
    }
    if b == [] {
      assert a + b == a;
    } else {
      var front, last := b[..|b| - 1], b[|b| - 1];
      CPUAdds(u, a, front);
      assert (a + b)[..|a + b| - 1] == a + front;
    }
  }

  /** The sum is known exactly when every usage is. */
  lemma {:induction false} CPUKnownIff(u: Usage, pods: seq<string>)
    ensures SumCPU(u, pods).Some? <==> forall pod | pod in pods :: u.cpu(pod).Some?
  {
    if pods != [] {
      var front, last := pods[..|pods| - 1], pods[|pods| - 1];
      CPUKnownIff(u, front);
      assert forall pod :: pod in pods <==> pod in front || pod == last;
    }
  }

  lemma OneMoreUsage(n: real, x: real)
    ensures n * x + x == (n + 1.0) * x
  {
  }

  lemma Nothing(x: real)
    ensures 0 as real * x == 0.0
  {
  }

  lemma OneMoreByte(n: int, x: int)
    ensures n * x + x == (n + 1) * x
  {
  }

  /** Equal usages make a multiple, so the average is the usage of each. */
  lemma {:induction false} CPUOfEqual(u: Usage, pods: seq<string>, x: real)
    requires forall pod | pod in pods :: u.cpu(pod) == Some(x)
    ensures SumCPU(u, pods) == Some(|pods| as real * x)
  {
    if pods != [] {
      var front := pods[..|pods| - 1];
      assert pods[|pods| - 1] in pods && forall pod | pod in front :: pod in pods;
      CPUOfEqual(u, front, x);
      OneMoreUsage(|front| as real, x);
      var total := |front| as real * x;
      assert SumCPU(u, pods) == Some(total + x);
      assert |pods| as real == |front| as real + 1.0;
      assert total + x == |pods| as real * x;
    } else {
      Nothing(x);
    }
  }

  /** One pod gives its own usage, and the usage of a list adds up however it is divided. */
  lemma {:induction false} MemoryAdds(u: Usage, a: seq<string>, b: seq<string>)
    ensures forall pod :: SumMemory(u, [pod]) == u.memory(pod)
    ensures SumMemory(u, a + b) ==
      match (SumMemory(u, a), SumMemory(u, b)) { case (Some(x), Some(y)) => Some(x + y) case _ => None }
  {
    forall pod ensures SumMemory(u, [pod]) == u.memory(pod) {
      assert [pod][..0] == [] && SumMemory(u, []) == Some(0);
    }
    if b == [] {
      assert a + b == a;
    } else {
      var front, last := b[..|b| - 1], b[|b| - 1];
      MemoryAdds(u, a, front);
      assert (a + b)[..|a + b| - 1] == a + front;
    }
  }

  /** The sum is known exactly when every usage is. */
  lemma {:induction false} MemoryKnownIff(u: Usage, pods: seq<string>)
    ensures SumMemory(u, pods).Some? <==> forall pod | pod in pods :: u.memory(pod).Some?
  {
    if pods != [] {
      var front, last := pods[..|pods| - 1], pods[|pods| - 1];
      MemoryKnownIff(u, front);
      assert forall pod :: pod in pods <==> pod in front || pod == last;
    }
  }

  /** Equal usages make a multiple, so the average is the usage of each. */
  lemma {:induction false} MemoryOfEqual(u: Usage, pods: seq<string>, x: nat)
    requires forall pod | pod in pods :: u.memory(pod) == Some(x)
    ensures SumMemory(u, pods) == Some(|pods| * x)
  {
    if pods != [] {
      var front := pods[..|pods| - 1];
      assert pods[|pods| - 1] in pods && forall pod | pod in front :: pod in pods;
      MemoryOfEqual(u, front, x);
      OneMoreByte(|front|, x);
    }
  }

  lemma {:induction false} CPUFails(u: Usage, pods: seq<string>, i: nat)
    requires i < |pods| && u.cpu(pods[i]).None?
    ensures SumCPU(u, pods).None?
    decreases |pods|
  {
    if i < |pods| - 1 {
      CPUFails(u, pods[..|pods| - 1], i);
    }
  }

  lemma {:induction false} MemoryFails(u: Usage, pods: seq<string>, i: nat)
    requires i < |pods| && u.memory(pods[i]).None?
    ensures SumMemory(u, pods).None?
    decreases |pods|
  {
    if i < |pods| - 1 {
      MemoryFails(u, pods[..|pods| - 1], i);
    }
  }

  method SumDeploymentCPUUsage(u: Usage, pods: seq<string>) returns (total: Option<real>)
    ensures total == SumCPU(u, pods)
  {
    var sum := 0.0;
    for i := 0 to |pods|
      invariant SumCPU(u, pods[..i]) == Some(sum)
    {
      var one := u.cpu(pods[i]);
      if one.None? {
        CPUFails(u, pods, i);
        return None;
      }
      assert pods[..i + 1][..i] == pods[..i];
      sum := sum + one.value;
    }
    assert pods[..|pods|] == pods;
    total := Some(sum);
  }

  method SumDeploymentMemoryUsage(u: Usage, pods: seq<string>) returns (total: Option<nat>)
    ensures total == SumMemory(u, pods)
  {
    var sum: nat := 0;
    for i := 0 to |pods|
      invariant SumMemory(u, pods[..i]) == Some(sum)
    {
      var one := u.memory(pods[i]);
      if one.None? {
        MemoryFails(u, pods, i);
        return None;
      }
      assert pods[..i + 1][..i] == pods[..i];
      sum := sum + one.value;
    }
    assert pods[..|pods|] == pods;
    total := Some(sum);
  }

  predicate Readable(m: Metric, u: Usage, pods: seq<string>) {
    (m.resource.CPU? ==> SumCPU(u, pods).Some?) && (m.resource.Memory? ==> SumMemory(u, pods).Some?)
  }

  /** What the walk over the metrics from index i comes to: Some(true) at the first that wants to scale out,
      Some(false) at the first whose usage is unknown, None at the end. */
  function FirstOut(p: Policy, replicas: int, u: Usage, pods: seq<string>, i: nat): Option<bool>
    requires p.Valid() && pods != []
    decreases |p.metrics| - i
  {
    if i >= |p.metrics| then None
    else if !Readable(p.metrics[i], u, pods) then Some(false)
    else if replicas < p.max && WantsOut(p.metrics[i], |pods|, LoadOf(u, pods)) then Some(true)
    else FirstOut(p, replicas, u, pods, i + 1)
  }

  /** The decision for a deployment with these pods, whatever they report. */
  function Verdict(p: Policy, replicas: int, ready: int, allReady: bool, u: Usage, pods: seq<string>): Decision
    requires p.Valid()
  {
    if pods == [] || ready > p.max || ready < p.min || !allReady then Stay
    else
      match FirstOut(p, replicas, u, pods, 0)
      case Some(out) => if out then Out else Stay
      case None =>
        if replicas > p.min && forall m | m in p.metrics :: WantsIn(m, |pods|, LoadOf(u, pods)) then In else Stay
  }

  lemma {:induction false} FirstOutIs(p: Policy, replicas: int, u: Usage, pods: seq<string>, i: nat)
    requires p.Valid() && pods != [] && i <= |p.metrics| && forall m | m in p.metrics :: Readable(m, u, pods)
    ensures FirstOut(p, replicas, u, pods, i) ==
      if replicas < p.max && exists j :: i <= j < |p.metrics| && WantsOut(p.metrics[j], |pods|, LoadOf(u, pods))
      then Some(true) else None
    decreases |p.metrics| - i
  {
    hide WantsOut, Readable;
    if i < |p.metrics| {
      assert p.metrics[i] in p.metrics;
      FirstOutIs(p, replicas, u, pods, i + 1);
    }
  }

  /** When all pods are ready and every usage asked for is known, the code decides as Decide does. */
  lemma VerdictDecides(p: Policy, replicas: int, ready: int, u: Usage, pods: seq<string>)
    requires p.Valid() && forall m | m in p.metrics :: Readable(m, u, pods)
    ensures Verdict(p, replicas, ready, true, u, pods) == Decide(p, replicas, ready, |pods|, LoadOf(u, pods))
  {
    hide WantsOut, WantsIn, Readable;
    if pods != [] {
      FirstOutIs(p, replicas, u, pods, 0);
    }
  }

  /** The average usage of the pods is known and more than a twentieth above the target; bytes are compared as whole
      numbers, both rounded down. */
  predicate Overloaded(m: Metric, u: Usage, pods: seq<string>)
    requires pods != []
  {
    match m.resource
    case CPU => SumCPU(u, pods).Some? && 20.0 * SumCPU(u, pods).value > 21.0 * m.target as real * |pods| as real
    case Memory => SumMemory(u, pods).Some? && SumMemory(u, pods).value >= (21 * m.target / 20 + 1) * |pods|
    case Other => false
  }

  /** The total usage is known and within the targets of one pod less. */
  predicate Spare(m: Metric, u: Usage, pods: seq<string>)
  {
    match m.resource
    case CPU => SumCPU(u, pods).Some? && SumCPU(u, pods).value <= (|pods| - 1) as real * m.target as real
    case Memory => SumMemory(u, pods).Some? && SumMemory(u, pods).value <= (|pods| - 1) * m.target
    case Other => false
  }

  lemma ExpandedIs(t: nat)
    ensures Expanded(t).Floor == 21 * t / 20
  {
  }

  lemma OverloadedIff(m: Metric, u: Usage, pods: seq<string>)
    requires pods != [] && Readable(m, u, pods)
    ensures WantsOut(m, |pods|, LoadOf(u, pods)) <==> Overloaded(m, u, pods)
  {
    var n, load := |pods|, LoadOf(u, pods);
    match m.resource
    case CPU => DivideLess(load.cpu, n as real, Expanded(m.target));
    case Memory =>
      ExpandedIs(m.target);
      if load.memory / n > 21 * m.target / 20 {
        ByteShare(load.memory, n, 21 * m.target / 20);
      } else {
        ShareBelow(load.memory, n, 21 * m.target / 20);
      }
    case Other =>
  }

  lemma ShareBelow(x: nat, n: nat, t: int)
    requires n > 0 && x / n <= t
    ensures x < (t + 1) * n
  {
    assert (t - x / n) * n >= 0;
    assert x == (x / n) * n + x % n;
  }

  lemma SpareIff(m: Metric, u: Usage, pods: seq<string>)
    requires pods != [] && m.target > 0 && Readable(m, u, pods)
    ensures WantsIn(m, |pods|, LoadOf(u, pods)) <==> Spare(m, u, pods)
  {
    var load := LoadOf(u, pods);
    match m.resource
    case CPU => CeilBound(load.cpu, m.target, |pods| - 1);
    case Memory => ByteBound(load.memory, m.target, |pods| - 1);
    case Other =>
  }

  lemma {:induction false} FirstOutMeans(p: Policy, replicas: int, u: Usage, pods: seq<string>, i: nat)
    requires p.Valid() && pods != [] && i <= |p.metrics|
    ensures FirstOut(p, replicas, u, pods, i) == Some(true) <==>
      exists j :: i <= j < |p.metrics| && replicas < p.max && Overloaded(p.metrics[j], u, pods) &&
        forall l | i <= l < j :: Readable(p.metrics[l], u, pods)
    ensures FirstOut(p, replicas, u, pods, i) == None <==>
      forall j | i <= j < |p.metrics| :: Readable(p.metrics[j], u, pods) && !(replicas < p.max && Overloaded(p.metrics[j], u, pods))
    decreases |p.metrics| - i
  {
    hide WantsOut, Overloaded;
    if i < |p.metrics| {
      var m := p.metrics[i];
      FirstOutMeans(p, replicas, u, pods, i + 1);
      if Readable(m, u, pods) {
        OverloadedIff(m, u, pods);
      } else {
        UnreadableNotOver(m, u, pods);
      }
    }
  }

  lemma UnreadableNotOver(m: Metric, u: Usage, pods: seq<string>)
    requires pods != [] && !Readable(m, u, pods)
    ensures !Overloaded(m, u, pods)
  {
  }

  /** The verdict in terms of the average and the total over the pods: one more when a pod's share of some metric
      exceeds its target by more than a twentieth and the usages before it are known, one less when all totals are known
      and fit the targets of one pod less; within the limits, and only if all pods are ready. */
  lemma VerdictMeans(p: Policy, replicas: int, ready: int, allReady: bool, u: Usage, pods: seq<string>)
    requires p.Valid()
    ensures var v, steady := Verdict(p, replicas, ready, allReady, u, pods), pods != [] && allReady && p.min <= ready <= p.max;
      && (v == Out <==>
            && steady && replicas < p.max
            && exists j :: 0 <= j < |p.metrics| && Overloaded(p.metrics[j], u, pods) &&
                 forall l | 0 <= l < j :: Readable(p.metrics[l], u, pods))
      && (v == In <==> steady && replicas > p.min && forall m | m in p.metrics :: Spare(m, u, pods))
  {
    hide WantsIn, WantsOut, Overloaded, Spare, FirstOut, Readable;
    if pods != [] {
      FirstOutMeans(p, replicas, u, pods, 0);
      forall m | m in p.metrics
        ensures Readable(m, u, pods) ==> (WantsIn(m, |pods|, LoadOf(u, pods)) <==> Spare(m, u, pods))
        ensures Spare(m, u, pods) ==> Readable(m, u, pods) && !Overloaded(m, u, pods)
      {
        SpareMeans(m, u, pods);
      }
    }
  }

  lemma SpareMeans(m: Metric, u: Usage, pods: seq<string>)
    requires pods != [] && m.target > 0
    ensures Readable(m, u, pods) ==> (WantsIn(m, |pods|, LoadOf(u, pods)) <==> Spare(m, u, pods))
    ensures Spare(m, u, pods) ==> Readable(m, u, pods) && !Overloaded(m, u, pods)
  {
    hide WantsIn, WantsOut;
    if Readable(m, u, pods) {
      SpareIff(m, u, pods);
      var n := |pods|;
      assert (21 * m.target / 20 + 1) * n > (n - 1) * m.target by {
        Monotone(m.target, 21 * m.target / 20 + 1, n);
        assert n * m.target == (n - 1) * m.target + m.target;
      }
      assert 21.0 * m.target as real * n as real >= 20.0 * ((n - 1) as real * m.target as real);
    }
  }

  class AutoscalerController {
    const cm: ComponentManagerInner

    constructor (cm: ComponentManagerInner)
      ensures this.cm == cm
    {
      this.cm := cm;
    }

    method AllPodsReady(list: seq<string>) returns (ready: bool)
      requires forall n | n in list :: n in cm.pods
      ensures ready <==> forall n | n in list :: cm.pods[n].phase.Ready?
    {
      for i := 0 to |list|
        invariant forall n | n in list[..i] :: cm.pods[n].phase.Ready?
      {
        assert list[..i + 1] == list[..i] + [list[i]];
        if !cm.pods[list[i]].phase.Ready? {
          return false;
        }
      }
      assert list[..|list|] == list;
      ready := true;
    }

    /** The first loop: true and false mean that the tick ends here, with and without scaling out. */
    method WalkMetrics(p: Policy, replicas: int, u: Usage, pods: seq<string>) returns (out: Option<bool>, load: Load)
      requires p.Valid() && pods != []
      ensures out == FirstOut(p, replicas, u, pods, 0)
      ensures out == None ==> forall m | m in p.metrics ::
        (m.resource.CPU? ==> load.cpu == LoadOf(u, pods).cpu) && (m.resource.Memory? ==> load.memory == LoadOf(u, pods).memory)
    {
      load := Load(0.0, 0);
      for i := 0 to |p.metrics|
        invariant FirstOut(p, replicas, u, pods, 0) == FirstOut(p, replicas, u, pods, i)
        invariant forall m | m in p.metrics[..i] ::
          (m.resource.CPU? ==> load.cpu == LoadOf(u, pods).cpu) && (m.resource.Memory? ==> load.memory == LoadOf(u, pods).memory)
      {
        var m := p.metrics[i];
        assert p.metrics[..i + 1] == p.metrics[..i] + [m];
        if m.resource.CPU? {
          var usage := SumDeploymentCPUUsage(u, pods);
          if usage.None? {
            return Some(false), load;
          }
          load := load.(cpu := usage.value);
          if replicas < p.max && load.cpu / |pods| as real > Expanded(m.target) {
            return Some(true), load;
          }
        } else if m.resource.Memory? {
          var usage := SumDeploymentMemoryUsage(u, pods);
          if usage.None? {
            return Some(false), load;
          }
          load := load.(memory := usage.value);
          if replicas < p.max && load.memory / |pods| > Expanded(m.target).Floor {
            return Some(true), load;
          }
        }
      }
      assert p.metrics[..|p.metrics|] == p.metrics;
      out := None;
    }

    /** The second loop counts the metrics that want to scale in. */
    method CountIn(p: Policy, n: nat, load: Load) returns (count: nat)
      requires p.Valid()
      ensures count == |p.metrics| <==> forall m | m in p.metrics :: WantsIn(m, n, load)
    {
      count := 0;
      for i := 0 to |p.metrics|
        invariant count <= i && (count == i <==> forall j | 0 <= j < i :: WantsIn(p.metrics[j], n, load))
      {
        var m := p.metrics[i];
        if m.resource.CPU? {
          if Ceil(load.cpu / m.target as real) < n {
            count := count + 1;
          }
        } else if m.resource.Memory? {
          var carry := if load.memory % m.target != 0 then 1 else 0;
          if load.memory / m.target + carry < n {
            count := count + 1;
          }
        }
      }
      assert forall m | m in p.metrics :: exists j :: 0 <= j < |p.metrics| && p.metrics[j] == m;
    }

    /** A tick of the autoscaler; only the wanted number of the deployment changes. */
    method MonitorAndScaleDeployment(p: Policy, d: string, u: Usage)
      requires p.Valid() && Keyed(cm.View()) && d in cm.deployments
      requires forall n | n in cm.deploymentToPods[d] :: n in cm.pods
      modifies cm`deployments
      ensures var dep, pods := old(cm.deployments)[d], old(cm.deploymentToPods)[d];
        var ready := forall n | n in pods :: old(cm.pods)[n].phase.Ready?;
        cm.deployments == old(cm.deployments)[d := dep.(spec := dep.spec.(replicas :=
          Moved(dep.spec.replicas, Verdict(p, dep.status.replicas, dep.status.ready, ready, u, pods))))]
    {
      hide FirstOut, WantsIn, Inc, Dec;
      var dep, pods := cm.deployments[d], cm.deploymentToPods[d];
      if |pods| == 0 || dep.status.ready > p.max || dep.status.ready < p.min {
        return;
      }
      var ready := AllPodsReady(pods);
      if !ready {
        return;
      }
      var out, load := WalkMetrics(p, dep.status.replicas, u, pods);
      if out.Some? {
        if out.value {
          cm.UpdateDeployment(dep.(spec := dep.spec.(replicas := Inc(dep.spec.replicas))));
        }
        return;
      }
      if dep.status.replicas <= p.min {
        return;
      }
      SameWants(p, |pods|, load, LoadOf(u, pods));
      var count := CountIn(p, |pods|, load);
      if count == |p.metrics| {
        cm.UpdateDeployment(dep.(spec := dep.spec.(replicas := Dec(dep.spec.replicas))));
      }
    }

    method CreateAutoscaler(a: Autoscaler) returns (ok: bool)
      requires Keyed(cm.View())
      modifies cm
      ensures forall s: State | s.ix == old(cm.View()) :: cm.View() == AddAutoscaler(s, a).ix
      ensures ok <==> !(a.name in old(cm.autoscalers) || a.target !in old(cm.deployments) || Autoscaled(old(cm.View()), a.target))
      ensures !ok ==> cm.View() == old(cm.View())
      ensures ok ==>
        && cm.autoscalers == old(cm.autoscalers)[a.name := a] && a.target in cm.deployments
        && var n, was := cm.deployments[a.target].spec.replicas, old(cm.deployments)[a.target].spec.replicas;
        (a.min <= a.max ==> a.min <= n <= a.max) && (a.min <= was <= a.max ==> n == was)
    {
      if a.name in cm.autoscalers || a.target !in cm.deployments {
        return false;
      }
      var watched := cm.DeploymentAutoscaled(a.target);
      if watched {
        return false;
      }
      cm.SetAutoscaler(a);
      ClipDeploymentReplicas(a.target, a.min, a.max);
      ok := true;
    }

    method ClipDeploymentReplicas(d: string, min: uint32, max: uint32)
      requires d in cm.deployments && cm.deployments[d].name == d
      modifies cm`deployments
      ensures var dep := old(cm.deployments)[d];
        cm.deployments == old(cm.deployments)[d := dep.(spec := dep.spec.(replicas := Clip(dep.spec.replicas, min, max)))]
      ensures min <= max ==> min <= cm.deployments[d].spec.replicas <= max
    {
      var dep := cm.deployments[d];
      if dep.spec.replicas < min {
        cm.UpdateDeployment(dep.(spec := dep.spec.(replicas := min)));
      } else if dep.spec.replicas > max {
        cm.UpdateDeployment(dep.(spec := dep.spec.(replicas := max)));
      }
    }
  }

  lemma SameWants(p: Policy, n: nat, a: Load, b: Load)
    requires p.Valid() && forall m | m in p.metrics ::
      (m.resource.CPU? ==> a.cpu == b.cpu) && (m.resource.Memory? ==> a.memory == b.memory)
    ensures forall m | m in p.metrics :: WantsIn(m, n, a) <==> WantsIn(m, n, b)
  {
  }
}
