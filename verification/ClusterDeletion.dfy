/**
 Deletion notices, the deletion of a whole deployment, and services.
 */
module ClusterDeletion {
  import opened Sequences
  import opened Core
  import opened Cluster
  import opened ClusterInvariants
  import opened ClusterSteps
  import opened ClusterHandlers
  import opened ClusterEvents

  // ---- notices ----

  function Arrived(s: State, name: string): State {
    s.(legacy := s.legacy - {name}, wire := s.wire - {name})
  }

  function Unexpected(s: State, name: string): State {
    s.(expected := s.expected - {name})
  }

  lemma ArrivedPosted(s: State, name: string)
    requires Posted(s) && name in s.wire
    ensures Posted(Arrived(Unexpected(s, name), name))
    ensures name in s.legacy && name !in s.ix.pods
  {
  }

  lemma ExpectedArrives(s: State, name: string, d: string)
    requires Posted(s) && HasDeployment(s, d) && Consistent(s, d) && name in s.expected
    requires forall n | Owns(s.ix, d, n) :: n in s.ix.pods
    ensures Consistent(Arrived(Unexpected(s, name), name), d)
  {
    hide Consistent;
    var r := Arrived(Unexpected(s, name), name);
    assert name !in s.ix.pods && !Owns(s.ix, d, name);
    assert Members(r, d) == Members(s, d);
    CountersKept(s, r, d);
  }

  lemma OtherArrives(s: State, name: string, d: string)
    requires Posted(s) && HasDeployment(s, d) && Consistent(s, d) && name in s.wire && name !in s.expected
    requires name in s.legacy && s.legacy[name] != d
    requires forall n | Owns(s.ix, d, n) :: n in s.ix.pods
    ensures Consistent(Arrived(s, name), d)
  {
    hide Consistent;
    var r := Arrived(s, name);
    assert name !in s.ix.pods && !Owns(s.ix, d, name);
    assert Members(r, d) == Members(s, d);
    CountersKept(s, r, d);
  }

  /** The deployment with the pod subtracted. */
  function Subtracted(s: State, d: string, pod: Pod): State
    requires d in s.ix.deployments
  {
    var dep := s.ix.deployments[d];
    PersistMeta(s.(ix := SetStatus(s.ix, d, AfterRemoval(dep.spec.template, dep.status, pod))), d)
  }

  lemma OwnArrives(s: State, name: string, d: string)
    requires Posted(s) && HasDeployment(s, d) && Consistent(s, d) && name in s.wire && name !in s.expected
    requires name in s.legacy && s.legacy[name] == d
    requires forall n | Owns(s.ix, d, n) :: n in s.ix.pods
    ensures var r := Arrived(Subtracted(s, d, s.wire[name].pod), name);
      HasDeployment(r, d) && Consistent(r, d)
  {
    hide Consistent, AfterRemoval;
    var r := Arrived(Subtracted(s, d, s.wire[name].pod), name);
    assert name !in s.ix.pods && !Owns(s.ix, d, name);
    assert Members(r, d) == Members(s, d) - {name};
    CountersLess(s, r, d, name);
  }

  lemma SubtractedOther(s: State, d: string, pod: Pod, e: string)
    requires HasDeployment(s, d) && HasDeployment(s, e) && Consistent(s, e) && d != e
    ensures var r := Subtracted(s, d, pod);
      && HasDeployment(r, e) && Consistent(r, e) && r.wire == s.wire && r.legacy == s.legacy && r.expected == s.expected
      && (forall n :: Owns(r.ix, e, n) <==> Owns(s.ix, e, n)) && r.ix.pods == s.ix.pods
  {
    hide Consistent, AfterRemoval;
    Untouched(s, Subtracted(s, d, pod), e);
  }

  lemma SubtractedFrame(s: State, d: string, pod: Pod)
    requires Indexed(s.ix) && Posted(s) && Stored(s) && AllKept(s) && HasDeployment(s, d)
    ensures var r := Subtracted(s, d, pod);
      Indexed(r.ix) && Posted(r) && Stored(r) && AllKept(r)
  {
    hide Indexed, AfterRemoval, NoDup, Known;
    var dep := s.ix.deployments[d];
    SetStatusIndexed(s.ix, d, AfterRemoval(dep.spec.template, dep.status, pod));
    KeyedName(s.ix, d);
  }

  /** The messages do not matter to the index and etcd. */
  lemma ArrivedFrame(s: State, name: string)
    requires Indexed(s.ix) && Stored(s) && AllKept(s)
    ensures var r := Arrived(Unexpected(s, name), name);
      Indexed(r.ix) && Stored(r) && AllKept(r)
  {
    hide Indexed, NoDup, Known;
  }

  lemma NotifyIs(s: State, name: string)
    requires name in s.wire && Posted(s)
    ensures name in s.legacy
    ensures Notify(s, name) ==
      if name in s.expected then Arrived(Unexpected(s, name), name)
      else if s.legacy[name] in s.ix.deployments then Arrived(Unexpected(Subtracted(s, s.legacy[name], s.wire[name].pod), name), name)
      else Arrived(Unexpected(s, name), name)
  {
  }

  /** Whatever notice arrives next, all invariants hold afterwards. */
  lemma NotifyHealthy(s: State, name: string)
    requires Healthy(s) && name in s.wire
    ensures Healthy(Notify(s, name)) && forall e | Exact(s, e) :: Exact(Notify(s, name), e)
  {
    hide Indexed, Posted, Consistent, Stored, AllKept, Notify, Subtracted;
    IndexParts(s.ix);
    ArrivedPosted(s, name);
    NotifyIs(s, name);
    var owner := s.legacy[name];
    if name !in s.expected && owner in s.ix.deployments {
      var t := Subtracted(s, owner, s.wire[name].pod);
      SubtractedFrame(s, owner, s.wire[name].pod);
      SubtractedKeys(s, owner, s.wire[name].pod);
      IndexParts(t.ix);
      ArrivedPosted(t, name);
      ArrivedFrame(t, name);
      assert t.expected - {name} == t.expected;
      forall d | Exact(s, d) ensures Exact(Arrived(t, name), d) {
        if d == owner {
          OwnArrives(s, name, d);
        } else {
          SubtractedOther(s, owner, s.wire[name].pod, d);
          OtherArrives(t, name, d);
        }
      }
    } else {
      ArrivedFrame(s, name);
      var r := Notify(s, name);
      forall d | Exact(s, d) ensures Exact(r, d) {
        if name in s.expected {
          ExpectedArrives(s, name, d);
        } else {
          assert s.expected - {name} == s.expected;
          OtherArrives(s, name, d);
        }
      }
    }
  }

  lemma SubtractedKeys(s: State, d: string, pod: Pod)
    requires d in s.ix.deployments
    ensures var r := Subtracted(s, d, pod);
      SameKeys(s, r) && r.wire == s.wire && r.legacy == s.legacy && r.expected == s.expected
  {
  }

  // ---- deleting a deployment ----

  /** Deleting the pods of a deployment one after the other empties exactly its list. */
  lemma {:induction false} TeardownSound(s: State, d: string, k: nat)
    requires Healthy(s) && HasDeployment(s, d) && k <= |s.ix.deploymentToPods[d]|
    ensures var names := s.ix.deploymentToPods[d];
      var r := TearDown(s, names, k);
      && Healthy(r) && r.ix.deployments == s.ix.deployments && SameKeys(s, r)
      && (forall e | Exact(s, e) :: Exact(r, e))
      && r.ix.autoscalers == s.ix.autoscalers
      && r.ix.deploymentToPods[d] == names[k..]
      && (forall n :: n in r.ix.pods <==> n in s.ix.pods && n !in names[..k])
      && (forall n | n in r.ix.pods :: r.ix.pods[n] == s.ix.pods[n])
      && (forall n | n in names[..k] :: n in r.wire && r.wire[n] == Notice(s.ix.pods[n], Teardown))
  {
    hide Healthy, Exact, DeletePod;
    var names := s.ix.deploymentToPods[d];
    if k == 0 {
      assert names[0..] == names;
    } else {
      TeardownSound(s, d, k - 1);
      var t := TearDown(s, names, k - 1);
      var name := names[k - 1];
      assert names[k - 1..][0] == name;
      FrontFacts(t, d);
      FrontDeleted(t, d, name);
      assert names[k - 1..][1..] == names[k..];
      assert names[..k] == names[..k - 1] + [name];
    }
  }

  lemma FrontFacts(s: State, d: string)
    requires Healthy(s) && HasDeployment(s, d) && s.ix.deploymentToPods[d] != []
    ensures s.ix.deploymentToPods[d][0] in s.ix.pods && s.ix.deploymentToPods[d][0] !in s.wire
  {
    assert Owns(s.ix, d, s.ix.deploymentToPods[d][0]);
  }

  lemma FrontDeleted(s: State, d: string, name: string)
    requires Healthy(s) && HasDeployment(s, d) && s.ix.deploymentToPods[d] != [] && name == s.ix.deploymentToPods[d][0]
    requires name in s.ix.pods
    ensures var r := DeletePod(s, name, true, Teardown);
      && Healthy(r) && SameKeys(s, r) && r.ix.deployments == s.ix.deployments && r.ix.autoscalers == s.ix.autoscalers
      && (forall e | Exact(s, e) :: Exact(r, e))
      && r.ix.pods == s.ix.pods - {name}
      && r.wire == s.wire[name := Notice(s.ix.pods[name], Teardown)]
      && r.ix.deploymentToPods[d] == s.ix.deploymentToPods[d][1..]
  {
    hide Sound, Kept, Exact, LegacyOf;
    DeleteSound(s, name, true, Teardown);
    HealthyFrom(s, DeletePod(s, name, true, Teardown));
  }

  lemma ForgottenHealthy(s: State, d: string)
    requires Healthy(s) && HasDeployment(s, d) && s.ix.deploymentToPods[d] == []
    ensures var r := s.(ix := ForgetDeployment(s.ix, d),
      store := s.store.(deployments := s.store.deployments - {d}, deploymentPods := s.store.deploymentPods - {d}));
      Healthy(r) && forall e | Exact(s, e) && e != d :: Exact(r, e)
  {
    hide Indexed, Posted, Consistent, NoDup, Known;
    var r := s.(ix := ForgetDeployment(s.ix, d),
      store := s.store.(deployments := s.store.deployments - {d}, deploymentPods := s.store.deploymentPods - {d}));
    assert s.ix.pods - (set n | n in s.ix.deploymentToPods[d]) == s.ix.pods;
    ForgottenIndexed(s.ix, d);
    ForgottenPosted(s, r);
    forall e | Exact(s, e) && e != d ensures Exact(r, e) {
      Untouched(s, r, e);
    }
  }

  lemma ForgottenPosted(s: State, r: State)
    requires Posted(s) && r == s.(ix := r.ix, store := r.store) && r.ix.pods == s.ix.pods
    ensures Posted(r)
  {
  }

  lemma ForgottenIndexed(ix: Index, d: string)
    requires Indexed(ix) && d in ix.deploymentToPods && ix.deploymentToPods[d] == []
    ensures Indexed(ForgetDeployment(ix, d))
  {
    hide NoDup, Served;
    var r := ForgetDeployment(ix, d);
    assert r.pods == ix.pods;
    ServedSame(ix, r);
    forall e, n ensures Owns(r, e, n) <==> Owns(ix, e, n) && e != d {
    }
  }

  /** Deleting a deployment leaves nothing of it behind: none of its pods is live or in any list, no autoscaler
      targets it, etcd has no record of it, one deletion notice per pod is under way, and no other pod is
      touched. */
  lemma DeleteDeploymentLeavesNothing(s: State, d: string)
    requires Healthy(s) && HasDeployment(s, d)
    ensures var r := DeleteDeployment(s, d);
      && Healthy(r) && (forall e | Exact(s, e) && e != d :: Exact(r, e))
      && d !in r.ix.deployments && d !in r.ix.deploymentToPods && !Autoscaled(r.ix, d)
      && d !in r.store.deployments && d !in r.store.deploymentPods
      && (forall n | Owns(s.ix, d, n) :: n !in r.ix.pods && n !in r.store.pods && n in r.wire &&
            (forall k :: !Serves(r.ix, k, n)) && (forall e :: !Owns(r.ix, e, n)))
      && (forall n | n in s.ix.pods && !Owns(s.ix, d, n) :: n in r.ix.pods && r.ix.pods[n] == s.ix.pods[n])
      && r.ix.deployments == s.ix.deployments - {d}
  {
    hide Healthy, Exact, TearDown;
    var names := s.ix.deploymentToPods[d];
    TeardownSound(s, d, |names|);
    var t := TearDown(s, names, |names|);
    assert names[|names|..] == [] && names[..|names|] == names;
    ForgottenHealthy(t, d);
    var r := DeleteDeployment(s, d);
    assert t.ix.pods - (set n | n in t.ix.deploymentToPods[d]) == t.ix.pods;
    forall n | Owns(s.ix, d, n)
      ensures n !in r.ix.pods && n !in r.store.pods && (forall k :: !Serves(r.ix, k, n)) && (forall e :: !Owns(r.ix, e, n))
    {
      GoneEverywhere(r, n);
    }
  }

  lemma GoneEverywhere(s: State, name: string)
    requires Healthy(s) && name !in s.ix.pods
    ensures name !in s.store.pods && (forall k :: !Serves(s.ix, k, name)) && (forall d :: !Owns(s.ix, d, name))
  {
  }

  // ---- services ----

  lemma CreateServiceHealthy(s: State, service: Service, order: seq<string>)
    requires Healthy(s) && Enumerates(s.ix, service.selector, order)
    ensures Healthy(CreateService(s, service, order))
    ensures forall e | Exact(s, e) :: Exact(CreateService(s, service, order), e)
  {
    hide Posted, Consistent, NoDup, Known, IsSubset, Keyed, Indexed;
    if service.name !in s.ix.services {
      var r := CreateService(s, service, order);
      CreateServiceIndexed(s.ix, service, order);
      ServicesPosted(s, r);
      forall d | Exact(s, d) ensures Exact(r, d) {
        Untouched(s, r, d);
      }
    }
  }

  lemma OwnedSame(a: Index, b: Index)
    requires Owned(a) && b.pods == a.pods && b.deploymentToPods == a.deploymentToPods
    ensures Owned(b)
  {
    hide NoDup;
    forall d, n ensures Owns(b, d, n) <==> Owns(a, d, n) {
    }
  }

  lemma CreateServiceIndexed(ix: Index, service: Service, order: seq<string>)
    requires Indexed(ix) && Enumerates(ix, service.selector, order) && service.name !in ix.services
    ensures Indexed(ix.(services := ix.services[service.name := service],
                        servicesToPods := ix.servicesToPods[service.name := order]))
  {
    hide NoDup, IsSubset, Owned;
    var r := ix.(services := ix.services[service.name := service],
                 servicesToPods := ix.servicesToPods[service.name := order]);
    OwnedSame(ix, r);
    forall k, n ensures Serves(r, k, n) <==> if k == service.name then n in order else Serves(ix, k, n) {
    }
    forall k, labels ensures Selects(r, k, labels) <==>
      if k == service.name then IsSubset(service.selector, labels) else Selects(ix, k, labels)
    {
    }
  }

  lemma DeleteServiceIndexed(ix: Index, name: string)
    requires Indexed(ix)
    ensures Indexed(ix.(services := ix.services - {name}, servicesToPods := ix.servicesToPods - {name}))
  {
    hide NoDup, IsSubset, Owned;
    var r := ix.(services := ix.services - {name}, servicesToPods := ix.servicesToPods - {name});
    OwnedSame(ix, r);
    forall k, n ensures Serves(r, k, n) <==> k != name && Serves(ix, k, n) {
    }
    forall k, labels ensures Selects(r, k, labels) <==> k != name && Selects(ix, k, labels) {
    }
  }

  lemma ServicesPosted(s: State, r: State)
    requires Posted(s) && r == s.(ix := r.ix) && r.ix.pods == s.ix.pods
    ensures Posted(r)
  {
  }

  lemma DeleteServiceHealthy(s: State, name: string)
    requires Healthy(s)
    ensures Healthy(DeleteService(s, name)) && forall e | Exact(s, e) :: Exact(DeleteService(s, name), e)
  {
    hide Posted, Consistent, NoDup, Known, IsSubset, Keyed, Indexed;
    if name in s.ix.services {
      var r := DeleteService(s, name);
      DeleteServiceIndexed(s.ix, name);
      ServicesPosted(s, r);
      forall d | Exact(s, d) ensures Exact(r, d) {
        Untouched(s, r, d);
      }
    }
  }

  lemma AddAutoscalerHealthy(s: State, a: Autoscaler)
    requires Healthy(s)
    ensures Healthy(AddAutoscaler(s, a)) && forall e | Exact(s, e) :: Exact(AddAutoscaler(s, a), e)
  {
    hide Posted, Consistent, NoDup, Known, IsSubset, Indexed;
    if !(a.name in s.ix.autoscalers || a.target !in s.ix.deployments || Autoscaled(s.ix, a.target)) {
      var t := s.(ix := s.ix.(autoscalers := s.ix.autoscalers[a.name := a]));
      AutoscalersIndexed(s.ix, t.ix);
      ServicesPosted(s, t);
      forall d | Exact(s, d) ensures Exact(t, d) {
        Untouched(s, t, d);
      }
      IndexParts(t.ix);
      ScaleHealthy(t, a.target, Clip(t.ix.deployments[a.target].spec.replicas, a.min, a.max));
    }
  }

  lemma AutoscalersIndexed(ix: Index, r: Index)
    requires Indexed(ix) && r == ix.(autoscalers := r.autoscalers)
    ensures Indexed(r)
  {
    hide NoDup, Served;
    ServedSame(ix, r);
    forall d, n ensures Owns(r, d, n) <==> Owns(ix, d, n) {
    }
  }
}
