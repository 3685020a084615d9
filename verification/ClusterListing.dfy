/**
 The lists of the services in whole runs of the API server: what is in them, and exactly when a ready pod is not.
 */
module ClusterListing {
  import opened Sequences
  import opened Core
  import opened Cluster
  import opened ClusterInvariants
  import opened ClusterSteps
  import opened ClusterHandlers
  import opened ClusterEvents
  import opened ClusterDeletion
  import opened ClusterRuns
  import opened Drift

  predicate BecomesReady(s: State, name: string, phase: Phase) {
    name in s.ix.pods && !s.ix.pods[name].phase.Ready? && phase.Ready?
  }

  lemma AddPodDrifts(s: State, pod: Pod, outcome: Creation)
    requires Sound(s)
    ensures Stays(s, CreatePod(s, pod, outcome))
  {
    hide Sound, Stays;
    StaysFrame(s, CreatePod(s, pod, outcome));
  }

  lemma ApplyDrifts(s: State, d: Deployment)
    requires Sound(s)
    ensures Stays(s, Apply(s, d))
  {
    hide Sound, Stays, Autoscaled;
    StaysFrame(s, Apply(s, d));
  }

  lemma ScaleDrifts(s: State, d: string, n: uint32)
    requires Sound(s) && d in s.ix.deployments
    ensures Stays(s, Scale(s, d, n))
  {
    hide Sound, Stays;
    StaysFrame(s, Scale(s, d, n));
  }

  lemma WatchDrifts(s: State, a: Autoscaler)
    requires Sound(s)
    ensures Stays(s, AddAutoscaler(s, a))
  {
    hide Sound, Stays, Autoscaled;
    StaysFrame(s, AddAutoscaler(s, a));
  }

  /** A ready pod that reports again keeps its address. */
  predicate Steady(s: State, op: Op) {
    op.Report? && op.name in s.ix.pods && s.ix.pods[op.name].phase.Ready? && op.phase.Ready? ==> op.ip == s.ix.pods[op.name].ip
  }

  lemma OtherDrifts(s: State, op: Op)
    requires Healthy(s) && Sensible(s, op)
    requires !op.AddService? && !op.RemoveService? && !op.Notice?
    requires op.Report? ==> !BecomesReady(s, op.name, op.phase)
    ensures Step(s, op).Some? ==> Drifts(s, Step(s, op).value) && (Steady(s, op) ==> Stays(s, Step(s, op).value))
  {
    hide Sound, Kept, CreatePod, DeletePod, UpdateStatus, Notify, Monitor, DeleteDeployment, CleanStart, Drifts,
      Apply, Scale, AddAutoscaler, Unused;
    match op
    case AddPod(pod, outcome) => AddPodDrifts(s, pod, outcome);
    case RemovePod(n, ok) => DeleteDrifts(s, n, ok, User);
    case Report(n, phase, ip, ok) => ReportDrifts(s, n, phase, ip, ok);
    case ApplyDeployment(d) => ApplyDrifts(s, d);
    case Tick(d, fate) => MonitorDrifts(s, d, fate);
    case RemoveDeployment(d) => DeleteDeploymentDrifts(s, d);
    case ScaleTo(d, n) => ScaleDrifts(s, d, n);
    case Watch(a) => WatchDrifts(s, a);
  }

  // ---- completeness ----

  lemma DriftComplete(s: State, r: State, k: string)
    requires Posted(r) && Drifts(s, r) && Complete(s.ix, k)
    ensures Complete(r.ix, k)
  {
    hide NoDup, IsSubset, Without;
    forall n | n in r.ix.pods && r.ix.pods[n].phase.Ready? && Selects(r.ix, k, r.ix.pods[n].labels) ensures Serves(r.ix, k, n) {
      assert Selects(s.ix, k, s.ix.pods[n].labels) && Serves(s.ix, k, n);
    }
  }

  /** What a pod that becomes ready does to the lists. */
  lemma ReadyLists(s: State, name: string, ip: string, ok: bool)
    requires Healthy(s) && name in s.ix.pods && !s.ix.pods[name].phase.Counted()
    ensures var r := UpdateStatus(s, name, Ready, ip, ok);
      && r.ix.services == s.ix.services && r.ix.pods == s.ix.pods[name := s.ix.pods[name].(phase := Ready, ip := ip)]
      && (forall k, n :: Serves(r.ix, k, n) <==>
            Serves(s.ix, k, n) || (ok && n == name && k in s.ix.servicesToPods && Selects(s.ix, k, s.ix.pods[name].labels)))
  {
    hide Sound, Kept, CountReady, AfterReady, IsPodUpdated, IsSubset;
    var u := Joined(s, name, ip, ok);
    CountReadyIs(u, name);
    OwnerFacts(s, name);
    JoinedParts(s, name, ip, ok);
    SameOwner(s.ix, u.ix, name);
    NameFits(s, name);
  }

  lemma NameFits(s: State, name: string)
    requires Sound(s) && name in s.ix.pods
    ensures s.ix.pods[name].name == name && s.ix.services.Keys == s.ix.servicesToPods.Keys
  {
  }

  /** A pod becomes ready: a service that had all its ready pods has them afterwards exactly when it does not select
      this one, or the nodes took the call. */
  lemma ReadyCompleteIff(s: State, name: string, ip: string, ok: bool, k: string)
    requires Healthy(s) && name in s.ix.pods && !s.ix.pods[name].phase.Counted()
    ensures Complete(UpdateStatus(s, name, Ready, ip, ok).ix, k) <==>
      Complete(s.ix, k) && (Selects(s.ix, k, s.ix.pods[name].labels) ==> ok)
  {
    hide Sound, Kept, UpdateStatus, IsSubset;
    ReadyLists(s, name, ip, ok);
    NameFits(s, name);
    NotListed(s, name);
    var r := UpdateStatus(s, name, Ready, ip, ok);
    forall n | n in s.ix.pods ensures n in r.ix.pods && r.ix.pods[n].labels == s.ix.pods[n].labels {
    }
    forall labels ensures Selects(r.ix, k, labels) <==> Selects(s.ix, k, labels) {
    }
    if Complete(r.ix, k) {
      forall n | n in s.ix.pods && s.ix.pods[n].phase.Ready? && Selects(s.ix, k, s.ix.pods[n].labels)
        ensures Serves(s.ix, k, n)
      {
        assert Serves(r.ix, k, n);
      }
      if Selects(s.ix, k, s.ix.pods[name].labels) {
        assert r.ix.pods[name].phase.Ready? && Selects(r.ix, k, r.ix.pods[name].labels);
        assert Serves(r.ix, k, name);
      }
    }
  }

  lemma NotListed(s: State, name: string)
    requires Sound(s) && name in s.ix.pods && !s.ix.pods[name].phase.Counted()
    ensures forall k :: !Serves(s.ix, k, name)
  {
  }

  /** The nodes take the call if this step makes a pod ready that the service selects. */
  predicate Announced(s: State, op: Op, k: string) {
    op.Report? && BecomesReady(s, op.name, op.phase) && Selects(s.ix, k, s.ix.pods[op.name].labels) ==> op.ok
  }

  lemma StepComplete(s: State, op: Op, k: string)
    requires Healthy(s) && Sensible(s, op) && Step(s, op).Some? && Announced(s, op, k) && Complete(s.ix, k)
    ensures Complete(Step(s, op).value.ix, k)
  {
    hide Sound, Kept, Complete, CreatePod, DeletePod, UpdateStatus, Notify, Apply, Monitor, DeleteDeployment, Scale,
      AddAutoscaler, CleanStart, Unused, Drifts, IsSubset, NoDup;
    var r := Step(s, op).value;
    StepHealthy(s, op);
    match op {
      case AddService(svc, order) => CreatedComplete(s, svc, order, k);
      case RemoveService(n) => DeletedComplete(s, n, k);
      case Notice(n) => NoticeComplete(s, n, k);
      case Report(n, phase, ip, ok) =>
        if BecomesReady(s, n, phase) {
          ReadyCompleteIff(s, n, ip, ok, k);
        } else {
          OtherDrifts(s, op);
          HealthyPosted(r);
          DriftComplete(s, r, k);
        }
      case _ =>
        OtherDrifts(s, op);
        HealthyPosted(r);
        DriftComplete(s, r, k);
    }
  }

  lemma HealthyPosted(s: State)
    requires Healthy(s)
    ensures Posted(s)
  {
  }

  lemma CreatedComplete(s: State, svc: Service, order: seq<string>, k: string)
    requires Complete(s.ix, k) && Enumerates(s.ix, svc.selector, order)
    ensures Complete(CreateService(s, svc, order).ix, k)
  {
    hide NoDup, IsSubset;
    var r := CreateService(s, svc, order).ix;
    forall n | n in r.pods && r.pods[n].phase.Ready? && Selects(r, k, r.pods[n].labels) ensures Serves(r, k, n) {
      assert k != svc.name ==> Selects(s.ix, k, s.ix.pods[n].labels) && Serves(s.ix, k, n);
    }
  }

  lemma DeletedComplete(s: State, name: string, k: string)
    requires Complete(s.ix, k)
    ensures Complete(DeleteService(s, name).ix, k)
  {
    hide IsSubset;
    var r := DeleteService(s, name).ix;
    forall n | n in r.pods && r.pods[n].phase.Ready? && Selects(r, k, r.pods[n].labels) ensures Serves(r, k, n) {
      assert Selects(s.ix, k, s.ix.pods[n].labels) && Serves(s.ix, k, n);
    }
  }

  lemma NoticeComplete(s: State, name: string, k: string)
    requires name in s.wire && Complete(s.ix, k)
    ensures Complete(Notify(s, name).ix, k)
  {
    hide IsSubset, AfterRemoval;
    var r := Notify(s, name).ix;
    assert r.pods == s.ix.pods && r.services == s.ix.services && r.servicesToPods == s.ix.servicesToPods;
    forall n | n in r.pods && r.pods[n].phase.Ready? && Selects(r, k, r.pods[n].labels) ensures Serves(r, k, n) {
      assert Selects(s.ix, k, s.ix.pods[n].labels) && Serves(s.ix, k, n);
    }
  }

  lemma {:induction false} RunComplete(states: seq<State>, ops: seq<Op>, i: nat, k: string)
    requires IsRun(states, ops) && i < |states|
    requires forall j | 0 <= j < i :: Announced(states[j], ops[j], k)
    ensures Complete(states[i].ix, k)
    decreases i
  {
    hide Healthy, Sensible, Step, Announced, Complete;
    if i == 0 {
      EmptyComplete(k);
    } else {
      var n := i - 1;
      RunComplete(states, ops, n, k);
      RunHealthy(states, ops, n);
      assert Announced(states[n], ops[n], k) && Step(states[n], ops[n]) == Some(states[n + 1]);
      StepComplete(states[n], ops[n], k);
    }
  }

  lemma EmptyComplete(k: string)
    ensures Complete(Empty().ix, k)
  {
  }

  /** Cached membership in every state of every run: the list of a service has no repetitions and only live pods its
      selector matches, and it has every ready pod the selector matches if the nodes took the calls about them;
      deployment lists have no repetitions and contain only live pods, and no pod is in two of them. */
  lemma MembershipExact(states: seq<State>, ops: seq<Op>, i: nat)
    requires IsRun(states, ops) && i < |states|
    ensures var ix := states[i].ix;
      && (forall k | k in ix.services :: k in ix.servicesToPods && NoDup(ix.servicesToPods[k])
            && (forall n | n in ix.servicesToPods[k] ::
                  n in ix.pods && ix.services[k].selector.Items <= ix.pods[n].labels.Items)
            && ((forall j | 0 <= j < i :: Announced(states[j], ops[j], k)) ==>
                  forall n | n in ix.pods && ix.pods[n].phase.Ready? && ix.services[k].selector.Items <= ix.pods[n].labels.Items ::
                    n in ix.servicesToPods[k]))
      && (forall d | d in ix.deployments :: d in ix.deploymentToPods && NoDup(ix.deploymentToPods[d])
            && forall n | n in ix.deploymentToPods[d] :: n in ix.pods && OwnerOf(ix, n) == Some(d))
  {
    hide Posted, Stored, AllKept, Sensible, Step, IsSubset, NoDup, Announced;
    RunHealthy(states, ops, i);
    var s := states[i];
    var ix := s.ix;
    forall k | k in ix.services
      ensures k in ix.servicesToPods && NoDup(ix.servicesToPods[k])
      ensures forall n | n in ix.servicesToPods[k] :: n in ix.pods && ix.services[k].selector.Items <= ix.pods[n].labels.Items
      ensures (forall j | 0 <= j < i :: Announced(states[j], ops[j], k)) ==>
        forall n | n in ix.pods && ix.pods[n].phase.Ready? && ix.services[k].selector.Items <= ix.pods[n].labels.Items ::
          n in ix.servicesToPods[k]
    {
      forall n | n in ix.pods
        ensures IsSubset(ix.services[k].selector, ix.pods[n].labels) <==> ix.services[k].selector.Items <= ix.pods[n].labels.Items
      {
        SubsetIff(ix.services[k].selector, ix.pods[n].labels);
      }
      assert forall n | n in ix.servicesToPods[k] :: Serves(ix, k, n);
      if forall j | 0 <= j < i :: Announced(states[j], ops[j], k) {
        RunComplete(states, ops, i, k);
        assert forall n | n in ix.pods && IsSubset(ix.services[k].selector, ix.pods[n].labels) ::
          Selects(ix, k, ix.pods[n].labels);
      }
    }
    forall d | d in ix.deployments ensures d in ix.deploymentToPods && NoDup(ix.deploymentToPods[d])
      && forall n | n in ix.deploymentToPods[d] :: n in ix.pods && OwnerOf(ix, n) == Some(d)
    {
      forall n | n in ix.deploymentToPods[d] ensures n in ix.pods && OwnerOf(ix, n) == Some(d) {
        assert Owns(ix, d, n);
        OwnerFacts(s, n);
      }
    }
  }
}
