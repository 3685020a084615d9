/**
 Whole runs of the API server: what holds in every state they reach.
 */
module ClusterRuns {
  import opened Sequences
  import opened Core
  import opened Cluster
  import opened ClusterInvariants
  import opened ClusterSteps
  import opened ClusterHandlers
  import opened ClusterEvents
  import opened ClusterDeletion

  /** A request, a tick, or a message, with what the environment makes of it. */
  datatype Op =
    | AddPod(pod: Pod, outcome: Creation)
    | RemovePod(name: string, ok: bool)
    | Report(name: string, phase: Phase, ip: string, ok: bool)
    | Notice(name: string)
    | ApplyDeployment(deployment: Deployment)
    | Tick(name: string, fate: Fate)
    | RemoveDeployment(name: string)
    | ScaleTo(name: string, replicas: uint32)
    | AddService(service: Service, order: seq<string>)
    | RemoveService(name: string)
    | Watch(autoscaler: Autoscaler)

  /** What the code relies on: new names are new, and reports are orderly. */
  ghost predicate Sensible(s: State, op: Op) {
    match op
    case AddPod(pod, _) => pod.name in s.ix.pods || Unused(s, pod.name)
    case Report(n, phase, _, _) => n in s.ix.pods ==> Orderly(s.ix.pods[n].phase, phase)
    case Notice(n) => n in s.wire
    case ApplyDeployment(d) => d.name != ""
    case Tick(d, fate) => HasDeployment(s, d) && forall i: nat :: Unused(s, fate.names(i))
    case ScaleTo(d, _) => HasDeployment(s, d)
    case AddService(svc, order) => Enumerates(s.ix, svc.selector, order)
    case _ => true
  }

  /** What the counters of one deployment rely on besides: none of its pods fails before it was ready, a template
      that is applied to it is not that of a pod which already counts, and it is not re-created while notices of
      its old pods are under way. */
  ghost predicate Careful(s: State, op: Op, d: string) {
    match op
    case Report(n, phase, _, _) => n in s.ix.pods && Owns(s.ix, d, n) ==> Tame(s.ix.pods[n].phase, phase)
    case ApplyDeployment(x) => x.name == d ==> CleanStart(s, x)
    case _ => true
  }

  /** None when the API server panics. */
  ghost function Step(s: State, op: Op): Option<State>
    requires Sensible(s, op)
  {
    match op
    case AddPod(pod, outcome) => Some(CreatePod(s, pod, outcome))
    case RemovePod(n, ok) => Some(DeletePod(s, n, ok, User))
    case Report(n, phase, ip, ok) => Some(UpdateStatus(s, n, phase, ip, ok))
    case Notice(n) => Some(Notify(s, n))
    case ApplyDeployment(d) => Some(Apply(s, d))
    case Tick(d, fate) => Monitor(s, d, fate)
    case RemoveDeployment(d) => Some(DeleteDeployment(s, d))
    case ScaleTo(d, n) => Some(Scale(s, d, n))
    case AddService(svc, order) => Some(CreateService(s, svc, order))
    case RemoveService(n) => Some(DeleteService(s, n))
    case Watch(a) => Some(AddAutoscaler(s, a))
  }

  lemma AddPodHealthy(s: State, pod: Pod, outcome: Creation)
    requires Healthy(s) && (pod.name in s.ix.pods || Unused(s, pod.name))
    ensures Healthy(CreatePod(s, pod, outcome)) && forall e | Exact(s, e) :: Exact(CreatePod(s, pod, outcome), e)
  {
    hide Sound, Kept, Exact, Unused;
    CreateSound(s, pod, outcome);
    HealthyFrom(s, CreatePod(s, pod, outcome));
  }

  /** A pod whose name is not live is recorded without harm exactly when nobody remembers the name: neither a notice
      under way nor a stored list of a deployment. */
  lemma AddPodIff(s: State, pod: Pod, outcome: Creation)
    requires Healthy(s)
    ensures Healthy(CreatePod(s, pod, outcome)) <==>
      pod.name in s.ix.pods || outcome.Rejected? || Unused(s, pod.name)
  {
    if pod.name in s.ix.pods || outcome.Rejected? {
    } else if Unused(s, pod.name) {
      AddPodHealthy(s, pod, outcome);
    } else {
      Remembered(s, pod, outcome);
    }
  }

  lemma Remembered(s: State, pod: Pod, outcome: Creation)
    requires Healthy(s) && pod.name !in s.ix.pods && !outcome.Rejected? && !Unused(s, pod.name)
    ensures !Healthy(CreatePod(s, pod, outcome))
  {
    hide NoDup, IsSubset, Exact;
    var r := CreatePod(s, pod, outcome);
    if pod.name !in s.wire {
      var d :| d in s.store.deploymentPods && pod.name in s.store.deploymentPods[d];
      assert d in r.store.deploymentPods && pod.name in Known(r.store.deploymentPods[d], r.ix.pods);
      assert !Owns(s.ix, d, pod.name);
      assert !Kept(r, d);
    }
  }

  lemma RemovePodHealthy(s: State, name: string, ok: bool)
    requires Healthy(s)
    ensures Healthy(DeletePod(s, name, ok, User)) && forall e | Exact(s, e) :: Exact(DeletePod(s, name, ok, User), e)
  {
    hide Sound, Kept, Exact, LegacyOf;
    DeleteSound(s, name, ok, User);
    HealthyFrom(s, DeletePod(s, name, ok, User));
  }

  lemma StepHealthy(s: State, op: Op)
    requires Healthy(s) && Sensible(s, op)
    ensures Step(s, op).Some? ==> Healthy(Step(s, op).value)
  {
    hide Healthy, Exact, CreatePod, DeletePod, UpdateStatus, Notify, Apply, Monitor, DeleteDeployment, Scale, CreateService,
      DeleteService, AddAutoscaler, CleanStart, Unused, Tame, Orderly, Enumerates;
    match op
    case AddPod(pod, outcome) => AddPodHealthy(s, pod, outcome);
    case RemovePod(n, ok) => RemovePodHealthy(s, n, ok);
    case Report(n, phase, ip, ok) => UpdateStatusHealthy(s, n, phase, ip, ok);
    case Notice(n) => NotifyHealthy(s, n);
    case ApplyDeployment(d) => ApplyHealthy(s, d);
    case Tick(d, fate) => MonitorHealthy(s, d, fate);
    case RemoveDeployment(d) => RemoveDeploymentHealthy(s, d);
    case ScaleTo(d, n) => ScaleHealthy(s, d, n);
    case AddService(svc, order) => CreateServiceHealthy(s, svc, order);
    case RemoveService(n) => DeleteServiceHealthy(s, n);
    case Watch(a) => AddAutoscalerHealthy(s, a);
  }

  /** A step that is careful about a deployment keeps its counters, or starts them right. */
  lemma StepExact(s: State, op: Op, d: string)
    requires Healthy(s) && Sensible(s, op) && Careful(s, op, d) && (HasDeployment(s, d) ==> Exact(s, d))
    ensures Step(s, op).Some? && HasDeployment(Step(s, op).value, d) ==> Exact(Step(s, op).value, d)
  {
    hide Healthy, Exact, CreatePod, DeletePod, UpdateStatus, Notify, Apply, Monitor, DeleteDeployment, Scale, CreateService,
      DeleteService, AddAutoscaler, CleanStart, Unused, Tame, Orderly, Enumerates, HasDeployment;
    if Step(s, op).Some? && HasDeployment(Step(s, op).value, d) {
      if op.ApplyDeployment? && op.deployment.name == d {
        Deployed(s, d);
        ApplyHealthy(s, op.deployment);
      } else {
        NothingNew(s, op, d);
        match op
        case AddPod(pod, outcome) => AddPodHealthy(s, pod, outcome);
        case RemovePod(n, ok) => RemovePodHealthy(s, n, ok);
        case Report(n, phase, ip, ok) => UpdateStatusHealthy(s, n, phase, ip, ok);
        case Notice(n) => NotifyHealthy(s, n);
        case ApplyDeployment(x) => ApplyHealthy(s, x);
        case Tick(e, fate) => MonitorHealthy(s, e, fate);
        case RemoveDeployment(e) => RemoveDeploymentHealthy(s, e);
        case ScaleTo(e, n) => ScaleHealthy(s, e, n);
        case AddService(svc, order) => CreateServiceHealthy(s, svc, order);
        case RemoveService(n) => DeleteServiceHealthy(s, n);
        case Watch(a) => AddAutoscalerHealthy(s, a);
      }
    }
  }

  lemma Deployed(s: State, d: string)
    requires Healthy(s)
    ensures HasDeployment(s, d) <==> d in s.ix.deployments
  {
  }

  /** Only an application brings a deployment into being. */
  lemma NothingNew(s: State, op: Op, d: string)
    requires Healthy(s) && Sensible(s, op) && Step(s, op).Some? && HasDeployment(Step(s, op).value, d)
    requires op.ApplyDeployment? ==> op.deployment.name != d
    ensures HasDeployment(s, d) && (op.RemoveDeployment? && HasDeployment(s, op.name) ==> op.name != d)
  {
    hide Healthy, UpdateStatus, Monitor, Enumerates, Unused, CleanStart, Autoscaled, TearDown, Notify, Apply, DeletePod, Orderly;
    match op {
      case RemovePod(n, ok) => RemoveKeys(s, n, ok, d);
      case Notice(n) => NotifyKeys(s, n, d);
      case ApplyDeployment(x) => ApplyKeys(s, x, d);
      case _ =>
    }
    if op.RemoveDeployment? && HasDeployment(s, op.name) {
      var names := s.ix.deploymentToPods[op.name];
      TeardownSound(s, op.name, |names|);
      assert names[|names|..] == [];
    }
  }

  lemma RemoveKeys(s: State, name: string, ok: bool, d: string)
    ensures HasDeployment(DeletePod(s, name, ok, User), d) <==> HasDeployment(s, d)
  {
    hide LegacyOf;
  }

  lemma NotifyKeys(s: State, name: string, d: string)
    requires name in s.wire
    ensures HasDeployment(Notify(s, name), d) <==> HasDeployment(s, d)
  {
    hide AfterRemoval;
  }

  lemma ApplyKeys(s: State, x: Deployment, d: string)
    requires x.name != d && HasDeployment(Apply(s, x), d)
    ensures HasDeployment(s, d)
  {
    hide Autoscaled, ApplyRefused;
  }

  lemma RemoveDeploymentHealthy(s: State, d: string)
    requires Healthy(s)
    ensures Healthy(DeleteDeployment(s, d))
    ensures forall e | Exact(s, e) && (HasDeployment(s, d) ==> e != d) :: Exact(DeleteDeployment(s, d), e)
  {
    hide Healthy, Exact;
    if HasDeployment(s, d) {
      DeleteDeploymentLeavesNothing(s, d);
    }
  }

  function Empty(): State {
    State(Index(map[], map[], map[], map[], map[], map[]), map[], {}, map[], Store(map[], map[], map[]))
  }

  lemma EmptyHealthy()
    ensures Healthy(Empty())
  {
  }

  /** A run from the state of a new API server. */
  ghost predicate IsRun(states: seq<State>, ops: seq<Op>) {
    && |states| == |ops| + 1 && states[0] == Empty()
    && forall i | 0 <= i < |ops| :: Sensible(states[i], ops[i]) && Step(states[i], ops[i]) == Some(states[i + 1])
  }

  /** Lists, messages and etcd agree in every state of every run, whatever happens to the counters. */
  lemma {:induction false} RunHealthy(states: seq<State>, ops: seq<Op>, i: nat)
    requires IsRun(states, ops) && i < |states|
    ensures Healthy(states[i])
    decreases i
  {
    hide Healthy, Sensible, Step;
    if i == 0 {
      EmptyHealthy();
    } else {
      RunHealthy(states, ops, i - 1);
      StepHealthy(states[i - 1], ops[i - 1]);
    }
  }

  /** The counters of a deployment are right in every state of every run that is careful about it, whatever
      happens to other deployments. */
  lemma {:induction false} RunExact(states: seq<State>, ops: seq<Op>, i: nat, d: string)
    requires IsRun(states, ops) && i < |states|
    requires forall j | 0 <= j < i :: Careful(states[j], ops[j], d)
    ensures HasDeployment(states[i], d) ==> Exact(states[i], d)
    decreases i
  {
    hide Healthy, Exact, Sensible, Careful, Step;
    if i > 0 {
      RunExact(states, ops, i - 1, d);
      RunHealthy(states, ops, i - 1);
      StepExact(states[i - 1], ops[i - 1], d);
    }
  }

  // ---- what this means ----

  lemma {:induction false} SetOfList(xs: seq<string>)
    requires NoDup(xs)
    ensures |set x | x in xs| == |xs|
  {
    if xs != [] {
      NoDupRest(xs);
      SetOfList(xs[1..]);
      assert (set x | x in xs) == (set x | x in xs[1..]) + {xs[0]};
    }
  }

  lemma MembersSplit(s: State, d: string)
    requires Healthy(s) && HasDeployment(s, d)
    ensures |Members(s, d)| == |s.ix.deploymentToPods[d]| + |InFlight(s, d)|
  {
    hide Served, Stored, AllKept;
    var list := s.ix.deploymentToPods[d];
    SetOfList(list);
    var listed := set n | n in list;
    forall n | n in listed ensures n !in InFlight(s, d) {
      assert Owns(s.ix, d, n);
    }
    DisjointSize(listed, InFlight(s, d));
  }

  lemma DisjointSize(a: set<string>, b: set<string>)
    requires forall n | n in a :: n !in b
    ensures |a + b| == |a| + |b|
  {
    assert a !! b;
  }

  /** Counter conservation in every state of every run that is careful about the deployment: Replicas is the length of
      the list plus the deletions still to be subtracted, the other counters are the pods among those that were ready,
      and those that were ready with the current template; an expected deletion is one the controller asked for and
      whose notice is under way. Hence every deletion is subtracted exactly once. */
  lemma CountersExact(states: seq<State>, ops: seq<Op>, i: nat, d: string)
    requires IsRun(states, ops) && i < |states| && HasDeployment(states[i], d)
    requires forall j | 0 <= j < i :: Careful(states[j], ops[j], d)
    requires |Members(states[i], d)| < 0x1_0000_0000
    ensures var s, dep := states[i], states[i].ix.deployments[d];
      && dep.status.replicas == |s.ix.deploymentToPods[d]| + |InFlight(s, d)|
      && dep.status.ready == |CountedMembers(s, d)|
      && dep.status.updated == |UpdatedMembers(s, d, dep.spec.template)|
      && dep.status.updated <= dep.status.ready <= dep.status.replicas
      && forall n :: n in s.expected <==> n in s.wire && s.wire[n].actor.Controller?
  {
    hide Indexed, Stored, Members, CountedMembers, UpdatedMembers, InFlight, Sensible, Careful, Step, AllKept;
    RunHealthy(states, ops, i);
    RunExact(states, ops, i, d);
    var s := states[i];
    MembersSplit(s, d);
    UpdatedWithin(s, d, s.ix.deployments[d].spec.template);
  }

  // ---- recovery ----

  /** What recovery puts into the component manager: the stored pods and deployments, and the stored lists
      without the names of pods that are gone. None when a deployment has no stored list: etcd answers with an error
      unless there is one, recovery returns it, and the API server ends. */
  function Recovered(store: Store): Option<map<string, seq<string>>> {
    if exists d | d in store.deployments :: d !in store.deploymentPods then None
    else Some(map d | d in store.deployments && d in store.deploymentPods :: Known(store.deploymentPods[d], store.pods))
  }

  /** After any run, recovery rebuilds the pods, the deployment names and every deployment's list in order; it
      is refused exactly when some deployment was applied but never got a tick that wrote its list. */
  lemma RecoveryRebuilds(states: seq<State>, ops: seq<Op>, i: nat)
    requires IsRun(states, ops) && i < |states|
    ensures var s := states[i];
      && s.store.pods == s.ix.pods
      && s.store.deployments.Keys == s.ix.deployments.Keys
      && (Recovered(s.store).Some? <==> forall d | d in s.ix.deployments :: d in s.store.deploymentPods)
      && (Recovered(s.store).Some? ==> Recovered(s.store).value == s.ix.deploymentToPods)
  {
    hide Posted, Owned, Served, Sensible, Step, Known, NoDup;
    RunHealthy(states, ops, i);
    var s := states[i];
    if Recovered(s.store).Some? {
      forall d | d in s.ix.deploymentToPods ensures Known(s.store.deploymentPods[d], s.store.pods) == s.ix.deploymentToPods[d] {
        assert Kept(s, d);
      }
    }
  }

  /** An instance: a deployment that is applied and not yet monitored when the API server restarts. */
  lemma RecoveryRefused(d: Deployment)
    requires d.name != ""
    ensures Sensible(Empty(), ApplyDeployment(d))
    ensures IsRun([Empty(), Apply(Empty(), d)], [ApplyDeployment(d)])
    ensures Recovered(Apply(Empty(), d).store).None?
  {
    assert d.name in Apply(Empty(), d).store.deployments;
  }
}
