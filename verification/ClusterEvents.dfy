/**
 Messages from the kubelets, services, and the deletion of a whole deployment.
 */
module ClusterEvents {
  import opened Sequences
  import opened Core
  import opened Cluster
  import opened ClusterInvariants
  import opened ClusterSteps
  import opened ClusterHandlers

  // ---- status reports ----

  /** A change of phase the lists can follow: a failed pod does not become ready, and a pod that was ready stays
      ready or fails. A pod may fail before it was ready. */
  predicate Orderly(was: Phase, next: Phase) {
    if next.Ready? then !was.Failed? else was.Counted() ==> next.Counted()
  }

  /** A change of phase after which the counters still count the right pods. */
  predicate Tame(was: Phase, next: Phase) {
    if next.Ready? then !was.Failed? else was.Counted() == next.Counted()
  }

  lemma PhaseIndexed(s: State, name: string, phase: Phase, ip: string)
    requires Indexed(s.ix) && name in s.ix.pods
    requires s.ix.pods[name].phase.Counted() ==> phase.Counted()
    ensures Indexed(WithPhase(s, name, phase, ip).ix)
  {
    hide NoDup, IsSubset;
    var r := WithPhase(s, name, phase, ip).ix;
    forall d, n ensures Owns(r, d, n) <==> Owns(s.ix, d, n) {
    }
    forall k, n ensures Serves(r, k, n) <==> Serves(s.ix, k, n) {
    }
    forall k, labels ensures Selects(r, k, labels) <==> Selects(s.ix, k, labels) {
    }
  }

  lemma PhaseFrame(s: State, name: string, phase: Phase, ip: string)
    requires name in s.ix.pods && Stored(s) && Posted(s)
    ensures var r := WithPhase(s, name, phase, ip);
      && Stored(r) && Posted(r)
      && (forall d | HasDeployment(s, d) && Kept(s, d) :: HasDeployment(r, d) && Kept(r, d))
  {
    hide NoDup, Known;
    var r := WithPhase(s, name, phase, ip);
    forall d | HasDeployment(s, d) && Kept(s, d) ensures Kept(r, d) {
      if d in s.store.deploymentPods {
        KnownSame(s.store.deploymentPods[d], s.ix.pods, r.ix.pods);
      }
    }
  }

  lemma PhaseBodies(s: State, name: string, phase: Phase, ip: string, d: string)
    requires name in s.ix.pods && HasDeployment(s, d)
    ensures var r := WithPhase(s, name, phase, ip);
      && HasDeployment(r, d) && Members(r, d) == Members(s, d)
      && Body(r, name) == s.ix.pods[name].(phase := phase, ip := ip)
      && (forall n | n != name :: Body(r, n) == Body(s, n))
  {
    assert InFlight(WithPhase(s, name, phase, ip), d) == InFlight(s, d);
  }

  /** A report that does not make a pod ready. The counters that do not hold the pod stay right, and all do when
      the report does not change whether the pod counts. */
  lemma PhaseHealthy(s: State, name: string, phase: Phase, ip: string)
    requires Healthy(s) && name in s.ix.pods
    requires Orderly(s.ix.pods[name].phase, phase) && (phase.Ready? ==> s.ix.pods[name].phase.Ready?)
    ensures var r := WithPhase(s, name, phase, ip);
      && Healthy(r)
      && forall e | Exact(s, e) && (Owns(s.ix, e, name) ==> Tame(s.ix.pods[name].phase, phase)) :: Exact(r, e)
  {
    hide Indexed, Posted, Consistent, Stored, Kept, Members, Body;
    var r := WithPhase(s, name, phase, ip);
    PhaseIndexed(s, name, phase, ip);
    PhaseFrame(s, name, phase, ip);
    BodyLive(s, name);
    forall d | Exact(s, d) && (Owns(s.ix, d, name) ==> Tame(s.ix.pods[name].phase, phase)) ensures Exact(r, d) {
      PhaseBodies(s, name, phase, ip, d);
      MemberIffOwned(s, d, name);
      CountersKept(s, r, d);
    }
    HealthyFrom(s, r);
  }

  /** The state after the services have reacted to a ready pod: it joins their lists if the nodes have been told. */
  function Joined(s: State, name: string, ip: string, ok: bool): State
    requires name in s.ix.pods
  {
    var t := WithPhase(s, name, Ready, ip);
    if ok then t.(ix := JoinServices(t.ix, t.ix.pods[name])) else t
  }

  lemma JoinedParts(s: State, name: string, ip: string, ok: bool)
    requires name in s.ix.pods
    ensures var t, r := WithPhase(s, name, Ready, ip), Joined(s, name, ip, ok);
      && r == t.(ix := r.ix) && r.ix == t.ix.(servicesToPods := r.ix.servicesToPods)
      && (forall d, n :: Owns(r.ix, d, n) <==> Owns(s.ix, d, n))
  {
    hide Selects;
  }

  lemma JoinedLists(ix: Index, pod: Pod)
    requires Indexed(ix) && forall k :: !Serves(ix, k, pod.name)
    ensures var r := JoinServices(ix, pod);
      && r.servicesToPods.Keys == ix.servicesToPods.Keys
      && (forall k | k in r.servicesToPods :: NoDup(r.servicesToPods[k]))
      && (forall k, n :: Serves(r, k, n) <==> Serves(ix, k, n) || (n == pod.name && Selects(ix, k, pod.labels)))
  {
    hide NoDup, IsSubset, Owned;
    var r := JoinServices(ix, pod);
    forall k | k in ix.servicesToPods ensures NoDup(r.servicesToPods[k]) {
      assert !Serves(ix, k, pod.name);
      NoDupAdd(ix.servicesToPods[k], pod.name);
      assert ix.servicesToPods[k] + [] == ix.servicesToPods[k];
    }
    forall k, n ensures Serves(r, k, n) <==> Serves(ix, k, n) || (n == pod.name && Selects(ix, k, pod.labels)) {
      assert k in ix.servicesToPods && n in ix.servicesToPods[k] <==> Serves(ix, k, n);
    }
  }

  lemma NotServed(ix: Index, name: string)
    requires Indexed(ix) && name in ix.pods && !ix.pods[name].phase.Counted()
    ensures forall k :: !Serves(ix, k, name)
  {
  }

  /** The index after a pod that did not count has become ready and joined its services. */
  lemma ReadyIndexed(s: State, name: string, ip: string, ok: bool)
    requires Indexed(s.ix) && name in s.ix.pods && !s.ix.pods[name].phase.Counted()
    ensures Indexed(Joined(s, name, ip, ok).ix)
  {
    hide NoDup, IsSubset, JoinServices, Owned;
    if !ok {
      PhaseIndexed(s, name, Ready, ip);
    } else {
      var r := Joined(s, name, ip, ok).ix;
      var pod := s.ix.pods[name].(phase := Ready, ip := ip);
      JoinedParts(s, name, ip, ok);
      JoinedOwned(s, name, ip, ok);
      NotServed(s.ix, name);
      var t := WithPhase(s, name, Ready, ip).ix;
      JoinedLists(s.ix, pod);
      assert r.servicesToPods == JoinServices(s.ix, pod).servicesToPods by { JoinIgnoresPods(s.ix, t, pod); }
      forall k, labels ensures Selects(r, k, labels) <==> Selects(s.ix, k, labels) {
      }
      forall k, n ensures Serves(r, k, n) <==> Serves(JoinServices(s.ix, pod), k, n) {
      }
    }
  }

  lemma JoinedOwned(s: State, name: string, ip: string, ok: bool)
    requires Owned(s.ix) && name in s.ix.pods
    ensures Owned(Joined(s, name, ip, ok).ix)
  {
    hide NoDup, JoinServices;
    JoinedParts(s, name, ip, ok);
  }

  lemma JoinIgnoresPods(a: Index, b: Index, pod: Pod)
    requires b == a.(pods := b.pods)
    ensures JoinServices(a, pod).servicesToPods == JoinServices(b, pod).servicesToPods
  {
  }

  lemma OwnerFacts(s: State, name: string)
    requires Sound(s)
    ensures var o := OwnerOf(s.ix, name);
      && (o.Some? ==> HasDeployment(s, o.value))
      && (forall d :: Owns(s.ix, d, name) <==> o == Some(d))
  {
  }

  lemma MemberIffOwned(s: State, d: string, name: string)
    requires Posted(s) && HasDeployment(s, d) && name in s.ix.pods
    ensures name in Members(s, d) <==> Owns(s.ix, d, name)
  {
  }

  /** The state in which the owner has counted the pod but not written itself to etcd. */
  function Counting(s: State, d: string, name: string): State
    requires d in s.ix.deployments && name in s.ix.pods
  {
    var dep := s.ix.deployments[d];
    s.(ix := SetStatus(s.ix, d, AfterReady(dep.spec.template, dep.status, s.ix.pods[name])))
  }

  lemma CountReadyIs(s: State, name: string)
    requires name in s.ix.pods
    ensures var o := OwnerOf(s.ix, name);
      && (o.None? ==> CountReady(s, name) == s)
      && (o.Some? && o.value in s.ix.deployments ==>
            CountReady(s, name) ==
            if IsPodUpdated(s.ix.deployments[o.value].spec.template, s.ix.pods[name])
            then PersistMeta(Counting(s, o.value, name), o.value) else Counting(s, o.value, name))
  {
    hide IsPodUpdated, AfterReady;
  }

  lemma SameOwner(a: Index, b: Index, name: string)
    requires forall d, n :: Owns(a, d, n) <==> Owns(b, d, n)
    requires forall d, e | Owns(a, d, name) && Owns(a, e, name) :: d == e
    ensures OwnerOf(a, name) == OwnerOf(b, name)
  {
  }

  lemma ReadyCounters(s: State, name: string, ip: string, ok: bool, o: string, d: string)
    requires Sound(s) && name in s.ix.pods && !s.ix.pods[name].phase.Counted()
    requires HasDeployment(s, o) && Exact(s, d) && Owns(s.ix, o, name)
    ensures var u := Joined(s, name, ip, ok);
      name in u.ix.pods && o in u.ix.deployments &&
      var r := Counting(u, o, name);
      HasDeployment(r, d) && Consistent(r, d)
  {
    hide Indexed, Posted, Stored, Consistent, Members, Body, JoinServices;
    JoinedParts(s, name, ip, ok);
    var t, u := WithPhase(s, name, Ready, ip), Joined(s, name, ip, ok);
    var r := Counting(u, o, name);
    PhaseBodies(s, name, Ready, ip, d);
    CountingMembers(t, u, o, name, d);
    MemberIffOwned(s, d, name);
    BodyLive(s, name);
    if d == o {
      CountersReady(s, r, d, name);
    } else {
      OneOwner(s.ix, o, d, name);
      CountersKept(s, r, d);
    }
  }

  lemma CountingMembers(t: State, u: State, o: string, name: string, d: string)
    requires u == t.(ix := u.ix) && u.ix == t.ix.(servicesToPods := u.ix.servicesToPods)
    requires HasDeployment(t, d) && o in t.ix.deployments && name in t.ix.pods
    ensures var r := Counting(u, o, name);
      && HasDeployment(r, d) && Members(r, d) == Members(t, d) && (forall n :: Body(r, n) == Body(t, n))
      && (forall n :: n in r.ix.pods <==> n in t.ix.pods)
  {
    assert InFlight(Counting(u, o, name), d) == InFlight(t, d);
  }

  lemma ReadyHealthy(s: State, name: string, ip: string, ok: bool)
    requires Healthy(s) && name in s.ix.pods && !s.ix.pods[name].phase.Counted()
    ensures name in Joined(s, name, ip, ok).ix.pods
    ensures var r := CountReady(Joined(s, name, ip, ok), name);
      Healthy(r) && forall e | Exact(s, e) :: Exact(r, e)
  {
    hide Indexed, Posted, Consistent, Stored, Kept, Members, Body, JoinServices, CountReady;
    var t, u := WithPhase(s, name, Ready, ip), Joined(s, name, ip, ok);
    JoinedParts(s, name, ip, ok);
    ReadyIndexed(s, name, ip, ok);
    PhaseFrame(s, name, Ready, ip);
    OwnerFacts(s, name);
    SameOwner(s.ix, u.ix, name);
    CountReadyIs(u, name);
    var o := OwnerOf(u.ix, name);
    var r := if o.Some? then Counting(u, o.value, name) else u;
    if o.Some? {
      SetStatusIndexed(u.ix, o.value, r.ix.deployments[o.value].status);
      SetStatusParts(u.ix, o.value, r.ix.deployments[o.value].status);
    }
    FrameSame(t, r);
    forall d | Exact(s, d) ensures Exact(r, d) {
      if o.Some? {
        ReadyCounters(s, name, ip, ok, o.value, d);
      } else {
        ReadyAlone(s, name, ip, ok, d);
      }
    }
    HealthyFrom(s, r);
    if o.Some? {
      WholeStored(r, o.value);
      PersistMetaHealthy(r, o.value);
    }
  }

  /** A ready pod without a deployment. */
  lemma ReadyAlone(s: State, name: string, ip: string, ok: bool, d: string)
    requires Sound(s) && name in s.ix.pods && Exact(s, d) && !Owns(s.ix, d, name)
    ensures Exact(Joined(s, name, ip, ok), d)
  {
    hide Indexed, Posted, Stored, Consistent, Members, Body, JoinServices;
    JoinedParts(s, name, ip, ok);
    var t, u := WithPhase(s, name, Ready, ip), Joined(s, name, ip, ok);
    PhaseBodies(s, name, Ready, ip, d);
    MemberIffOwned(s, d, name);
    JoinedMembers(t, u, d);
    CountersKept(s, u, d);
  }

  lemma JoinedMembers(t: State, u: State, d: string)
    requires u == t.(ix := u.ix) && u.ix == t.ix.(servicesToPods := u.ix.servicesToPods) && HasDeployment(t, d)
    ensures Members(u, d) == Members(t, d) && forall n :: Body(u, n) == Body(t, n)
  {
    assert InFlight(u, d) == InFlight(t, d);
  }

  /** Statuses and service lists do not matter to the messages and to etcd. */
  lemma FrameSame(t: State, r: State)
    requires Posted(t) && Stored(t) && r == t.(ix := r.ix)
    requires r.ix.pods == t.ix.pods && SameKeys(t, r) && r.ix.deploymentToPods == t.ix.deploymentToPods
    ensures Posted(r) && Stored(r)
    ensures forall d | HasDeployment(t, d) && Kept(t, d) :: HasDeployment(r, d) && Kept(r, d)
  {
    hide Known, NoDup;
  }

  lemma WholeStored(s: State, d: string)
    requires Stored(s) && d in s.ix.deployments
    ensures StoredBut(s, d)
  {
    hide NoDup;
  }

  lemma DropHealthy(s: State, name: string, ok: bool)
    requires Healthy(s)
    ensures Healthy(DropFailed(s, name, ok)) && forall e | Exact(s, e) :: Exact(DropFailed(s, name, ok), e)
  {
    hide Sound, Kept, Exact, Discard;
    OwnerFacts(s, name);
    var o := OwnerOf(s.ix, name);
    if o.Some? {
      DiscardSound(s, o.value, name, ok);
      HealthyFrom(s, DropFailed(s, name, ok));
    }
  }

  /** A pod that fails: its deployment deletes it, and expects the notice; a pod without one stays as it is. */
  lemma FailDeletes(s: State, name: string, ip: string, ok: bool)
    requires Healthy(s) && name in s.ix.pods && !s.ix.pods[name].phase.Failed?
    ensures var r, failed := UpdateStatus(s, name, Failed, ip, ok), s.ix.pods[name].(phase := Failed, ip := ip);
      if ok && exists d :: Owns(s.ix, d, name) then
        && r.ix.pods == s.ix.pods - {name} && name in r.wire && r.wire[name] == Notice(failed, Controller) && name in r.expected
        && (forall d, n :: Owns(r.ix, d, n) <==> Owns(s.ix, d, n) && n != name)
        && (forall k, n :: Serves(r.ix, k, n) <==> Serves(s.ix, k, n) && n != name)
      else
        && r.ix == s.ix.(pods := s.ix.pods[name := failed])
        && r.wire == s.wire && r.expected == s.expected && r.legacy == s.legacy
  {
    hide Kept, Posted, Stored, Forget, NoDup, IsSubset, DropFailed;
    var t := WithPhase(s, name, Failed, ip);
    OwnerFacts(s, name);
    SameOwner(s.ix, t.ix, name);
    if ok && OwnerOf(s.ix, name).Some? {
      DropOwned(t, name);
      ForgetListed(t.ix, name);
      ForgetParts(t.ix, name);
      var r, gone := UpdateStatus(s, name, Failed, ip, ok), Forget(t.ix, name);
      assert forall d, n :: (Owns(r.ix, d, n) <==> Owns(gone, d, n)) && (Owns(t.ix, d, n) <==> Owns(s.ix, d, n));
      assert forall k, n :: (Serves(r.ix, k, n) <==> Serves(gone, k, n)) && (Serves(t.ix, k, n) <==> Serves(s.ix, k, n));
    } else {
      DropNone(t, name, ok);
    }
  }

  lemma DropOwned(t: State, name: string)
    requires name in t.ix.pods && OwnerOf(t.ix, name).Some? && OwnerOf(t.ix, name).value in t.ix.deployments
    ensures var r, gone := DropFailed(t, name, true), Forget(t.ix, name);
      && r.ix.pods == gone.pods && r.ix.deploymentToPods == gone.deploymentToPods && r.ix.servicesToPods == gone.servicesToPods
      && name in r.wire && r.wire[name] == Notice(t.ix.pods[name], Controller) && name in r.expected
  {
    hide Forget, AfterRemoval, LegacyOf;
    ForgetParts(t.ix, name);
  }

  lemma DropNone(t: State, name: string, ok: bool)
    requires !ok || OwnerOf(t.ix, name) == None
    ensures DropFailed(t, name, ok) == t
  {
  }

  lemma ForgetListed(ix: Index, name: string)
    requires (forall d | d in ix.deploymentToPods :: NoDup(ix.deploymentToPods[d])) && forall k | k in ix.servicesToPods :: NoDup(ix.servicesToPods[k])
    ensures forall d, n :: Owns(Forget(ix, name), d, n) <==> Owns(ix, d, n) && n != name
    ensures forall k, n :: Serves(Forget(ix, name), k, n) <==> Serves(ix, k, n) && n != name
  {
    hide RemoveEverywhere, NoDup;
    RemovedFrom(ix.deploymentToPods, name);
    RemovedFrom(ix.servicesToPods, name);
  }

  /** Every orderly report keeps lists, messages and etcd, whether or not the deletion of a failed pod succeeds; it
      keeps the counters of every deployment that does not own the pod, and a tame one keeps them all. */
  lemma UpdateStatusHealthy(s: State, name: string, phase: Phase, ip: string, ok: bool)
    requires Healthy(s) && (name in s.ix.pods ==> Orderly(s.ix.pods[name].phase, phase))
    ensures var r := UpdateStatus(s, name, phase, ip, ok);
      && Healthy(r)
      && forall e | Exact(s, e) && (name in s.ix.pods && Owns(s.ix, e, name) ==> Tame(s.ix.pods[name].phase, phase)) ::
           Exact(r, e)
  {
    hide Healthy, Exact, CountReady, DropFailed, WithPhase, JoinServices;
    if name in s.ix.pods {
      var was := s.ix.pods[name].phase;
      if !was.Ready? && phase.Ready? {
        ReadyHealthy(s, name, ip, ok);
      } else {
        PhaseHealthy(s, name, phase, ip);
        if !was.Failed? && phase.Failed? {
          DropHealthy(WithPhase(s, name, phase, ip), name, ok);
        }
      }
    }
  }

  // ---- exactly when a status report keeps the counters ----

  /** The owner's counter of ready pods is off: it is right iff it is the number of counted members. */
  lemma ReadyCounterRight(s: State, d: string)
    requires HasDeployment(s, d) && Consistent(s, d)
    ensures s.ix.deployments[d].status.ready == Wrap(|CountedMembers(s, d)|)
  {
  }

  lemma PhaseCounted(s: State, name: string, phase: Phase, ip: string, d: string)
    requires Posted(s) && name in s.ix.pods && HasDeployment(s, d) && Owns(s.ix, d, name)
    ensures var r := WithPhase(s, name, phase, ip);
      && HasDeployment(r, d) && r.ix.deployments == s.ix.deployments
      && CountedMembers(r, d) ==
         (if phase.Counted() then CountedMembers(s, d) + {name} else CountedMembers(s, d) - {name})
      && (name in CountedMembers(s, d) <==> s.ix.pods[name].phase.Counted())
  {
    hide Posted, Members, Body;
    PhaseBodies(s, name, phase, ip, d);
    MemberIffOwned(s, d, name);
    BodyLive(s, name);
    var r := WithPhase(s, name, phase, ip);
    forall n ensures n in CountedMembers(r, d) <==>
      n in if phase.Counted() then CountedMembers(s, d) + {name} else CountedMembers(s, d) - {name}
    {
    }
  }

  lemma DiscardCounted(s: State, d: string, name: string)
    requires Indexed(s.ix) && Posted(s) && HasDeployment(s, d) && Owns(s.ix, d, name)
    ensures var r := Discard(s, d, name, true);
      && HasDeployment(r, d) && CountedMembers(r, d) == CountedMembers(s, d) - {name}
      && name in s.ix.pods
      && r.ix.deployments[d].status.ready ==
         if s.ix.pods[name].phase.Counted() then Dec(s.ix.deployments[d].status.ready) else s.ix.deployments[d].status.ready
  {
    hide Indexed, Posted, LegacyOf, Forget, Members, Body, IsPodUpdated;
    IndexParts(s.ix);
    var r := DeletePod(s, name, true, Controller);
    ForgetIndexed(s.ix, name);
    ForgetParts(s.ix, name);
    IndexParts(r.ix);
    DeleteMembers(s, name, Controller, d);
    NotWired(s, name);
    var dep := s.ix.deployments[d];
    ExpectedMembers(r, name, dep.(status := AfterRemoval(dep.spec.template, dep.status, s.ix.pods[name])), d, d);
    var q := Discard(s, d, name, true);
    forall n ensures n in CountedMembers(q, d) <==> n in CountedMembers(s, d) - {name} {
    }
  }

  lemma CountReadyCounted(s: State, name: string, ip: string, ok: bool, d: string)
    requires Healthy(s) && name in s.ix.pods && HasDeployment(s, d) && Owns(s.ix, d, name)
    ensures var u := Joined(s, name, ip, ok);
      && name in u.ix.pods
      && var r := CountReady(u, name);
      && HasDeployment(r, d)
      && CountedMembers(r, d) == CountedMembers(s, d) + {name}
      && r.ix.deployments[d].status.ready == Inc(s.ix.deployments[d].status.ready)
  {
    hide Indexed, Posted, Consistent, Stored, Kept, Members, Body, JoinServices, CountReady, IsPodUpdated;
    var t, u := WithPhase(s, name, Ready, ip), Joined(s, name, ip, ok);
    JoinedParts(s, name, ip, ok);
    OwnerFacts(s, name);
    SameOwner(s.ix, u.ix, name);
    CountReadyIs(u, name);
    PhaseCounted(s, name, Ready, ip, d);
    CountingMembers(t, u, d, name, d);
    var r := CountReady(u, name);
    PersistedMembers(Counting(u, d, name), d);
    forall n ensures n in CountedMembers(r, d) <==> n in CountedMembers(t, d) {
    }
  }

  lemma PersistedMembers(s: State, d: string)
    requires HasDeployment(s, d)
    ensures var r := PersistMeta(s, d);
      HasDeployment(r, d) && Members(r, d) == Members(s, d) && forall n :: Body(r, n) == Body(s, n)
  {
    assert InFlight(PersistMeta(s, d), d) == InFlight(s, d);
  }

  /** The counters of the pod's deployment survive a status report exactly when the report is tame. A pod that
      fails before it was ready, or that leaves the phases that count, throws them off for good. */
  lemma UpdateStatusIff(s: State, name: string, phase: Phase, ip: string, ok: bool, d: string)
    requires Healthy(s) && name in s.ix.pods && Exact(s, d) && Owns(s.ix, d, name)
    ensures HasDeployment(UpdateStatus(s, name, phase, ip, ok), d)
    ensures Consistent(UpdateStatus(s, name, phase, ip, ok), d) <==> Tame(s.ix.pods[name].phase, phase)
  {
    hide Indexed, Posted, Consistent, Stored, Kept, Members, Body, CountReady, DropFailed, WithPhase, Wrap, CountedMembers;
    var was := s.ix.pods[name].phase;
    var r := UpdateStatus(s, name, phase, ip, ok);
    ReadyCounterRight(s, d);
    WrapStep(|CountedMembers(s, d)|);
    WrapStep(|CountedMembers(s, d)| - 1);
    if Tame(was, phase) {
      UpdateStatusHealthy(s, name, phase, ip, ok);
    } else {
      PhaseCounted(s, name, phase, ip, d);
      if phase.Ready? {
        CountReadyCounted(s, name, ip, ok, d);
        assert CountedMembers(s, d) + {name} == CountedMembers(s, d);
      } else {
        UntameCounted(s, name, phase, ip, ok, d);
      }
      if Consistent(r, d) {
        ReadyCounterRight(r, d);
      }
    }
  }

  /** In the cases in which the counter should move and does not, or moves and should not. */
  lemma UntameCounted(s: State, name: string, phase: Phase, ip: string, ok: bool, d: string)
    requires Healthy(s) && name in s.ix.pods && HasDeployment(s, d) && Owns(s.ix, d, name)
    requires !phase.Ready? && s.ix.pods[name].phase.Counted() != phase.Counted()
    ensures var r := UpdateStatus(s, name, phase, ip, ok);
      var c, ready := CountedMembers(s, d), s.ix.deployments[d].status.ready;
      && HasDeployment(r, d)
      && r.ix.deployments[d].status.ready == (if phase.Failed? && ok then Dec(ready) else ready)
      && |CountedMembers(r, d)| ==
         (if !phase.Failed? then |c| - 1 else if ok then |c| else |c| + 1)
  {
    hide Indexed, Posted, Consistent, Stored, Kept, Members, Body, Discard, CountedMembers, AfterRemoval;
    PhaseCounted(s, name, phase, ip, d);
    if phase.Failed? {
      OwnerFacts(s, name);
      var t := WithPhase(s, name, phase, ip);
      PhaseOwns(s, name, phase, ip);
      SameOwner(s.ix, t.ix, name);
      if ok {
        assert Owns(t.ix, d, name);
        PhaseDiscard(s, name, phase, ip, d);
        assert CountedMembers(s, d) + {name} - {name} == CountedMembers(s, d);
      } else {
        assert Discard(t, d, name, false) == t by { DiscardFails(t, d, name); }
      }
    }
  }

  /** In any such state: a pod of a deployment without ready pods fails before it was ready, and their counter
      becomes 4294967295. */
  lemma EarlyFailureWraps(s: State, name: string, ip: string, d: string)
    requires Healthy(s) && name in s.ix.pods && HasDeployment(s, d) && Owns(s.ix, d, name)
    requires s.ix.pods[name].phase.Pending? && s.ix.deployments[d].status.ready == 0
    ensures HasDeployment(UpdateStatus(s, name, Failed, ip, true), d)
    ensures UpdateStatus(s, name, Failed, ip, true).ix.deployments[d].status.ready == 0xFFFF_FFFF
  {
    hide Healthy, UpdateStatus, CountedMembers;
    UntameCounted(s, name, Failed, ip, true, d);
  }

  lemma DiscardFails(s: State, d: string, name: string)
    requires d in s.ix.deployments
    ensures Discard(s, d, name, false) == s
  {
  }

  lemma PhaseOwns(s: State, name: string, phase: Phase, ip: string)
    requires name in s.ix.pods
    ensures forall d, n :: Owns(WithPhase(s, name, phase, ip).ix, d, n) <==> Owns(s.ix, d, n)
  {
  }

  lemma PhaseDiscard(s: State, name: string, phase: Phase, ip: string, d: string)
    requires Sound(s) && name in s.ix.pods && HasDeployment(s, d) && Owns(s.ix, d, name) && phase.Failed?
    ensures var t := WithPhase(s, name, phase, ip);
      && HasDeployment(t, d)
      && var r := Discard(t, d, name, true);
      && HasDeployment(r, d) && CountedMembers(r, d) == CountedMembers(t, d) - {name}
      && r.ix.deployments[d].status.ready == Dec(s.ix.deployments[d].status.ready)
  {
    hide Indexed, Posted, Consistent, Stored, Kept, Members, Body, CountedMembers, Discard;
    PhaseIndexed(s, name, phase, ip);
    PhaseFrame(s, name, phase, ip);
    PhaseOwns(s, name, phase, ip);
    DiscardCounted(WithPhase(s, name, phase, ip), d, name);
  }
}
