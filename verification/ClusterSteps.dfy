/**
 Every handler of the API server keeps the invariants.
 */
module ClusterSteps {
  import opened Sequences
  import opened Core
  import opened Cluster
  import opened ClusterInvariants

  // ---- a pod is deleted ----

  lemma RemovedFrom(lists: map<string, seq<string>>, name: string)
    requires forall k | k in lists :: NoDup(lists[k])
    ensures var r := RemoveEverywhere(lists, name);
      && r.Keys == lists.Keys
      && (forall k | k in lists :: NoDup(r[k]))
      && (forall k, n :: k in r && n in r[k] <==> k in lists && n in lists[k] && n != name)
  {
    hide NoDup, RemoveFirst;
    forall k | k in lists ensures NoDup(RemoveFirst(lists[k], name))
      && forall n :: n in RemoveFirst(lists[k], name) <==> n in lists[k] && n != name
    {
      RemoveFirstMembers(lists[k], name);
    }
  }

  lemma ForgetIndexed(ix: Index, name: string)
    requires Indexed(ix)
    ensures Indexed(Forget(ix, name))
    ensures forall d, n :: Owns(Forget(ix, name), d, n) <==> Owns(ix, d, n) && n != name
  {
    hide NoDup, RemoveEverywhere, IsSubset;
    RemovedFrom(ix.deploymentToPods, name);
    RemovedFrom(ix.servicesToPods, name);
    var r := Forget(ix, name);
    forall k, n | Serves(r, k, n)
      ensures n in r.pods && Selects(r, k, r.pods[n].labels) && r.pods[n].phase.Counted()
    {
      assert Serves(ix, k, n) && Selects(ix, k, ix.pods[n].labels);
    }
    forall d, n ensures Owns(r, d, n) <==> Owns(ix, d, n) && n != name {
    }
  }

  lemma ForgetParts(ix: Index, name: string)
    ensures var r := Forget(ix, name);
      && r.deployments == ix.deployments && r.services == ix.services && r.autoscalers == ix.autoscalers
      && r.pods == ix.pods - {name} && r.deploymentToPods.Keys == ix.deploymentToPods.Keys
  {
    hide RemoveFirst;
  }

  lemma LegacyIsOwner(ix: Index, name: string, d: string)
    requires Indexed(ix) && d in ix.deployments
    ensures LegacyOf(ix, name) == d <==> Owns(ix, d, name)
  {
  }

  /** A pod has left, a notice and a legacy have been added, and the deletion is expected if the controller
      asked for it. */
  lemma PostedMore(s: State, r: State, name: string, owner: string, actor: Actor)
    requires Posted(s) && Keyed(s.ix) && name in s.ix.pods
    requires r.ix.pods == s.ix.pods - {name} && r.legacy == s.legacy[name := owner]
    requires r.wire == s.wire[name := Notice(s.ix.pods[name], actor)]
    requires r.expected == if actor.Controller? then s.expected + {name} else s.expected
    ensures Posted(r)
  {
  }

  lemma DeleteMembers(s: State, name: string, actor: Actor, d: string)
    requires Indexed(s.ix) && Posted(s) && HasDeployment(s, d) && name in s.ix.pods
    ensures var r := DeletePod(s, name, true, actor);
      && HasDeployment(r, d) && r.ix.deployments == s.ix.deployments
      && Members(r, d) == Members(s, d)
      && (name in Members(s, d) <==> Owns(s.ix, d, name))
      && (forall n | n in Members(s, d) :: Body(r, n) == Body(s, n))
  {
    hide NoDup, Served, Forget, LegacyOf;
    ForgetIndexed(s.ix, name);
    ForgetParts(s.ix, name);
    LegacyIsOwner(s.ix, name, d);
    var r := DeletePod(s, name, true, actor);
    assert name !in s.expected && name !in s.wire;
    forall n ensures n in Members(r, d) <==> n in Members(s, d) {
      assert Owns(r.ix, d, n) <==> Owns(s.ix, d, n) && n != name;
      assert n in r.ix.deploymentToPods[d] <==> Owns(r.ix, d, n);
      assert n in s.ix.deploymentToPods[d] <==> Owns(s.ix, d, n);
      assert n != name ==> (n in InFlight(r, d) <==> n in InFlight(s, d));
    }
  }

  lemma DeleteKept(s: State, name: string, d: string)
    requires Stored(s) && HasDeployment(s, d) && NoDup(s.ix.deploymentToPods[d]) && Kept(s, d) && name in s.ix.pods
    ensures d in Forget(s.ix, name).deploymentToPods
    ensures Kept(s.(ix := Forget(s.ix, name)), d)
  {
    hide NoDup, Known, RemoveFirst;
    if d in s.store.deploymentPods {
      KnownLess(s.store.deploymentPods[d], s.ix.pods, name);
    } else {
      RemoveFirstAbsent([], name);
    }
  }

  /** Deleting a pod on behalf of a user or with its deployment. */
  lemma DeleteSound(s: State, name: string, ok: bool, actor: Actor)
    requires Sound(s) && !actor.Controller?
    ensures var r := DeletePod(s, name, ok, actor);
      && Sound(r) && r.ix.deployments == s.ix.deployments
      && (forall d | HasDeployment(s, d) && Kept(s, d) :: HasDeployment(r, d) && Kept(r, d))
      && (forall d | Exact(s, d) :: Exact(r, d))
  {
    hide Indexed, Posted, Consistent, Kept, LegacyOf, Forget;
    if Deletable(s, name, ok) {
      var r := DeletePod(s, name, ok, actor);
      IndexParts(s.ix);
      ForgetIndexed(s.ix, name);
      ForgetParts(s.ix, name);
      PostedMore(s, r, name, LegacyOf(s.ix, name), actor);
      forall d | Exact(s, d) ensures Exact(r, d) {
        IndexParts(r.ix);
        DeleteMembers(s, name, actor, d);
        CountersKept(s, r, d);
      }
      DeleteStored(s, name, ok, actor);
      forall d | HasDeployment(s, d) && Kept(s, d) ensures HasDeployment(r, d) && Kept(r, d) {
        DeleteKept(s, name, d);
        KeptSame(s.(ix := Forget(s.ix, name)), r, d);
      }
    }
  }

  lemma IndexParts(ix: Index)
    requires Indexed(ix)
    ensures Keyed(ix) && ix.deployments.Keys == ix.deploymentToPods.Keys && ix.services.Keys == ix.servicesToPods.Keys
    ensures forall d | d in ix.deploymentToPods :: NoDup(ix.deploymentToPods[d])
    ensures forall d, n | Owns(ix, d, n) :: n in ix.pods
  {
  }

  lemma KeptSame(s: State, r: State, d: string)
    requires d in s.ix.deploymentToPods && d in r.ix.deploymentToPods && Kept(s, d)
    requires r.ix.deploymentToPods[d] == s.ix.deploymentToPods[d] && r.ix.pods == s.ix.pods
    requires r.store.deploymentPods == s.store.deploymentPods
    ensures Kept(r, d)
  {
    hide Known;
  }

  /** Nothing that concerns the deployment has changed. */
  lemma Untouched(s: State, r: State, d: string)
    requires HasDeployment(s, d) && HasDeployment(r, d) && Consistent(s, d)
    requires r.ix.deployments[d].status == s.ix.deployments[d].status
    requires r.ix.deployments[d].spec.template == s.ix.deployments[d].spec.template
    requires r.ix.deploymentToPods[d] == s.ix.deploymentToPods[d] && r.ix.pods == s.ix.pods
    requires r.wire == s.wire && r.legacy == s.legacy && r.expected == s.expected
    ensures Consistent(r, d)
  {
    hide Consistent;
    assert Members(r, d) == Members(s, d);
    CountersKept(s, r, d);
  }

  lemma DeleteStored(s: State, name: string, ok: bool, actor: Actor)
    requires Stored(s)
    ensures Stored(DeletePod(s, name, ok, actor))
  {
  }

  // ---- the controller deletes a pod of a deployment ----

  /** The service lists stay right when nothing they are about changes. */
  lemma ServedSame(a: Index, b: Index)
    requires Served(a) && b.pods == a.pods && b.services == a.services && b.servicesToPods == a.servicesToPods
    ensures Served(b)
  {
    hide NoDup, IsSubset;
    forall k, n ensures Serves(b, k, n) <==> Serves(a, k, n) {
    }
    forall k, labels ensures Selects(b, k, labels) <==> Selects(a, k, labels) {
    }
  }

  lemma SetStatusIndexed(ix: Index, d: string, st: Status)
    requires Indexed(ix) && d in ix.deployments
    ensures Indexed(SetStatus(ix, d, st))
  {
    hide NoDup, Served;
    var r := SetStatus(ix, d, st);
    ServedSame(ix, r);
    forall e, n ensures Owns(r, e, n) <==> Owns(ix, e, n) {
    }
  }

  lemma ExpectedMembers(r: State, name: string, dep: Deployment, d: string, e: string)
    requires HasDeployment(r, e) && HasDeployment(r, d) && name in r.wire && name !in r.ix.pods
    requires forall n | Owns(r.ix, e, n) :: n in r.ix.pods
    ensures var q := r.(expected := r.expected + {name}, ix := SetStatus(r.ix, d, dep.status));
      && Members(q, e) == Members(r, e) - {name}
      && (forall n :: Body(q, n) == Body(r, n))
  {
  }

  lemma DiscardCounters(s: State, d: string, name: string, e: string)
    requires Indexed(s.ix) && Posted(s) && Owns(s.ix, d, name) && d in s.ix.deployments
    requires Exact(s, e)
    ensures Exact(Discard(s, d, name, true), e)
  {
    hide Indexed, Posted, Consistent, LegacyOf, Forget, AfterRemoval, Members, Body;
    IndexParts(s.ix);
    var r := DeletePod(s, name, true, Controller);
    ForgetIndexed(s.ix, name);
    ForgetParts(s.ix, name);
    IndexParts(r.ix);
    DeleteMembers(s, name, Controller, d);
    DeleteMembers(s, name, Controller, e);
    NotWired(s, name);
    var dep := s.ix.deployments[d];
    var q := Discard(s, d, name, true);
    var gone := dep.(status := AfterRemoval(dep.spec.template, dep.status, s.ix.pods[name]));
    ExpectedMembers(r, name, gone, d, e);
    BodyLive(s, name);
    if e == d {
      CountersLess(s, q, d, name);
    } else {
      OneOwner(s.ix, d, e, name);
      CountersKept(s, q, e);
    }
  }

  lemma NotWired(s: State, name: string)
    requires Posted(s) && name in s.ix.pods
    ensures name !in s.wire && name !in s.expected && name !in s.legacy
  {
  }

  lemma OneOwner(ix: Index, d: string, e: string, name: string)
    requires Indexed(ix) && Owns(ix, d, name) && e != d
    ensures !Owns(ix, e, name)
  {
  }

  lemma BodyLive(s: State, name: string)
    requires name in s.ix.pods
    ensures Body(s, name) == s.ix.pods[name]
  {
  }

  /** Deleting a pod on behalf of the controller: subtracted now, and never again. */
  lemma DiscardSound(s: State, d: string, name: string, ok: bool)
    requires Sound(s) && d in s.ix.deployments && Owns(s.ix, d, name)
    ensures var r := Discard(s, d, name, ok);
      && Sound(r)
      && (forall e | HasDeployment(s, e) && Kept(s, e) :: HasDeployment(r, e) && Kept(r, e))
      && (forall e | Exact(s, e) :: Exact(r, e))
      && (forall e, n :: Owns(r.ix, e, n) <==> Owns(s.ix, e, n) && (!ok || n != name))
      && (forall n | Unused(s, n) :: Unused(r, n))
  {
    hide Indexed, Posted, Consistent, Kept, LegacyOf, Forget, AfterRemoval, SetStatus;
    IndexParts(s.ix);
    if ok {
      var t := DeletePod(s, name, true, Controller);
      var r := Discard(s, d, name, true);
      ForgetIndexed(s.ix, name);
      ForgetParts(s.ix, name);
      var dep := s.ix.deployments[d];
      var st := AfterRemoval(dep.spec.template, dep.status, s.ix.pods[name]);
      SetStatusIndexed(t.ix, d, st);
      SetStatusParts(t.ix, d, st);
      PostedMore(s, r, name, LegacyOf(s.ix, name), Controller);
      forall e | Exact(s, e) ensures Exact(r, e) {
        DiscardCounters(s, d, name, e);
      }
      DeleteStored(s, name, true, Controller);
      forall e | HasDeployment(s, e) && Kept(s, e) ensures HasDeployment(r, e) && Kept(r, e) {
        DeleteKept(s, name, e);
        KeptSame(s.(ix := Forget(s.ix, name)), r, e);
      }
    }
  }

  lemma SetStatusParts(ix: Index, d: string, st: Status)
    requires d in ix.deployments
    ensures var r := SetStatus(ix, d, st);
      && r.pods == ix.pods && r.deploymentToPods == ix.deploymentToPods && r.deployments.Keys == ix.deployments.Keys
      && (forall e, n :: Owns(r, e, n) <==> Owns(ix, e, n))
  {
  }

  lemma {:induction false} DiscardEachSound(s: State, d: string, targets: seq<string>, k: nat, ok: nat -> bool)
    requires Sound(s) && HasDeployment(s, d) && k <= |targets| && NoDup(targets)
    requires forall n | n in targets :: Owns(s.ix, d, n)
    ensures var r := DiscardEach(s, d, targets, k, ok);
      && Sound(r)
      && (forall e | HasDeployment(s, e) && Kept(s, e) :: HasDeployment(r, e) && Kept(r, e))
      && (forall e | Exact(s, e) :: Exact(r, e))
      && (forall i | k <= i < |targets| :: Owns(r.ix, d, targets[i]))
      && (forall n | Unused(s, n) :: Unused(r, n))
  {
    hide Sound, Discard, Kept, Exact, Unused, Owns;
    if k > 0 {
      DiscardEachSound(s, d, targets, k - 1, ok);
      DiscardSound(DiscardEach(s, d, targets, k - 1, ok), d, targets[k - 1], ok(k - 1));
    }
  }

  lemma OwnsLast(ix: Index, d: string)
    requires d in ix.deploymentToPods && ix.deploymentToPods[d] != []
    ensures Owns(ix, d, ix.deploymentToPods[d][|ix.deploymentToPods[d]| - 1])
  {
  }

  lemma {:induction false} DiscardBackSound(s: State, d: string, count: nat, ok: nat -> bool, offset: nat)
    requires Sound(s) && HasDeployment(s, d)
    ensures var r := DiscardBack(s, d, count, ok, offset);
      r.Some? ==>
      && Sound(r.value)
      && (forall e | HasDeployment(s, e) && Kept(s, e) :: HasDeployment(r.value, e) && Kept(r.value, e))
      && (forall e | Exact(s, e) :: Exact(r.value, e))
      && (forall n | Unused(s, n) :: Unused(r.value, n))
  {
    hide Sound, Discard, Kept, Exact, Unused, Owns;
    if count > 0 {
      DiscardBackSound(s, d, count - 1, ok, offset);
      var w := DiscardBack(s, d, count - 1, ok, offset);
      if w.Some? && w.value.ix.deploymentToPods[d] != [] {
        var list := w.value.ix.deploymentToPods[d];
        OwnsLast(w.value.ix, d);
        DiscardSound(w.value, d, list[|list| - 1], ok(offset + count - 1));
      }
    }
  }

  // ---- writing to etcd ----

  lemma PersistSound(s: State, d: string)
    requires Sound(s) && HasDeployment(s, d)
    ensures var r := Persist(s, d);
      && Sound(r) && Kept(r, d)
      && (forall e | HasDeployment(s, e) && Kept(s, e) :: HasDeployment(r, e) && Kept(r, e))
      && (forall e | Exact(s, e) :: Exact(r, e))
      && (forall n | Unused(s, n) :: Unused(r, n))
  {
    hide Indexed, Consistent, NoDup, Kept, Unused, Stored;
    IndexParts(s.ix);
    KeyedName(s.ix, d);
    var r := Persist(s, d);
    forall n | n in s.ix.deploymentToPods[d] ensures n in s.ix.pods {
      assert Owns(s.ix, d, n);
    }
    PersistStored(s, d);
    forall e | Exact(s, e) ensures Exact(r, e) {
      Untouched(s, r, e);
    }
    forall e | HasDeployment(s, e) && Kept(s, e) ensures Kept(r, e) {
      PersistOther(s, d, e);
    }
    forall n | Unused(s, n) ensures Unused(r, n) {
      PersistUnused(s, d, n);
    }
  }

  lemma PersistStored(s: State, d: string)
    requires Stored(s) && HasDeployment(s, d) && s.ix.deployments[d].name == d && NoDup(s.ix.deploymentToPods[d])
    requires forall n | n in s.ix.deploymentToPods[d] :: n in s.ix.pods
    ensures Stored(Persist(s, d)) && Kept(Persist(s, d), d)
  {
    hide NoDup, Known;
    KnownAll(s.ix.deploymentToPods[d], s.ix.pods);
  }

  lemma PersistOther(s: State, d: string, e: string)
    requires HasDeployment(s, d) && HasDeployment(s, e) && Kept(s, e)
    requires forall n | n in s.ix.deploymentToPods[d] :: n in s.ix.pods
    ensures Kept(Persist(s, d), e)
  {
    hide Known;
    if e == d {
      KnownAll(s.ix.deploymentToPods[d], s.ix.pods);
    }
  }

  lemma PersistUnused(s: State, d: string, name: string)
    requires HasDeployment(s, d) && Unused(s, name) && forall n | n in s.ix.deploymentToPods[d] :: n in s.ix.pods
    ensures Unused(Persist(s, d), name)
  {
  }

  lemma KeyedName(ix: Index, d: string)
    requires Indexed(ix) && d in ix.deployments
    ensures ix.deployments[d].name == d
  {
  }

  // ---- a pod is created ----

  lemma CreateIndexed(ix: Index, pod: Pod)
    requires Indexed(ix) && pod.name !in ix.pods && pod.phase.Pending?
    ensures Indexed(ix.(pods := ix.pods[pod.name := pod]))
    ensures forall d :: !Owns(ix, d, pod.name)
  {
    hide NoDup, IsSubset;
    var r := ix.(pods := ix.pods[pod.name := pod]);
    forall d, n ensures Owns(r, d, n) <==> Owns(ix, d, n) {
    }
    forall k, n ensures Serves(r, k, n) <==> Serves(ix, k, n) {
    }
    forall k, labels ensures Selects(r, k, labels) <==> Selects(ix, k, labels) {
    }
  }

  lemma CreateSound(s: State, pod: Pod, outcome: Creation)
    requires Sound(s) && (pod.name in s.ix.pods || Unused(s, pod.name))
    ensures var r := CreatePod(s, pod, outcome);
      && Sound(r)
      && (forall e | HasDeployment(s, e) && Kept(s, e) :: HasDeployment(r, e) && Kept(r, e))
      && (forall e | Exact(s, e) :: Exact(r, e))
      && (forall n | Unused(s, n) && n != pod.name :: Unused(r, n))
      && r.ix.deployments == s.ix.deployments && r.ix.deploymentToPods == s.ix.deploymentToPods
  {
    hide Indexed, Consistent, NoDup, Known;
    var r := CreatePod(s, pod, outcome);
    if r != s {
      CreateIndexed(s.ix, pod.(phase := Pending));
      forall e | Exact(s, e) ensures Exact(r, e) {
        CreateCounters(s, r, pod.(phase := Pending), e);
      }
      forall e | HasDeployment(s, e) && Kept(s, e) ensures Kept(r, e) {
        if e in s.store.deploymentPods {
          KnownSame(s.store.deploymentPods[e], s.ix.pods, r.ix.pods);
        }
      }
    }
  }

  lemma CreateCounters(s: State, r: State, pod: Pod, d: string)
    requires Indexed(s.ix) && HasDeployment(s, d) && Consistent(s, d)
    requires pod.name !in s.ix.pods && pod.name !in s.wire && (forall e :: !Owns(s.ix, e, pod.name))
    requires r == s.(ix := s.ix.(pods := s.ix.pods[pod.name := pod]), store := r.store)
    ensures Consistent(r, d) && pod.name !in Members(s, d) && Members(r, d) == Members(s, d)
  {
    hide Indexed, Consistent;
    assert !Owns(s.ix, d, pod.name);
    CountersKept(s, r, d);
  }

  lemma JoinIndexed(ix: Index, d: string, name: string, st: Status)
    requires Indexed(ix) && d in ix.deployments && d in ix.deploymentToPods && name in ix.pods && forall e :: !Owns(ix, e, name)
    ensures Indexed(SetStatus(ix, d, st).(deploymentToPods := ix.deploymentToPods[d := ix.deploymentToPods[d] + [name]]))
  {
    hide NoDup, Served;
    var r := SetStatus(ix, d, st).(deploymentToPods := ix.deploymentToPods[d := ix.deploymentToPods[d] + [name]]);
    ServedSame(ix, r);
    assert !Owns(ix, d, name);
    NoDupAdd(ix.deploymentToPods[d], name);
    forall e, n ensures Owns(r, e, n) <==> Owns(ix, e, n) || (e == d && n == name) {
    }
  }

  lemma GrowSound(s: State, d: string, name: string, outcome: Creation)
    requires Sound(s) && HasDeployment(s, d) && (name in s.ix.pods || Unused(s, name))
    ensures var r := Grow(s, d, name, outcome);
      && Sound(r)
      && (forall e | e != d && HasDeployment(s, e) && Kept(s, e) :: HasDeployment(r, e) && Kept(r, e))
      && (forall e | Exact(s, e) :: Exact(r, e))
      && (forall n | Unused(s, n) && n != name :: Unused(r, n))
      && (Unused(s, name) ==> name in r.ix.pods || Unused(r, name))
      && (forall n | n in s.ix.pods :: n in r.ix.pods)
  {
    hide Indexed, Consistent, NoDup, Known, SetStatus, Inc;
    var dep := s.ix.deployments[d];
    var pod := Pod(name, dep.spec.template.labels, dep.spec.template.spec, Pending, "");
    CreateSound(s, pod, outcome);
    if name !in s.ix.pods && outcome.Created? {
      var t := CreatePod(s, pod, outcome);
      var r := Grow(s, d, name, outcome);
      var st := dep.status.(replicas := Inc(dep.status.replicas));
      CreateIndexed(s.ix, pod);
      forall e ensures !Owns(t.ix, e, name) {
        assert !Owns(s.ix, e, name);
      }
      JoinIndexed(t.ix, d, name, st);
      SetStatusParts(t.ix, d, st);
      forall e | Exact(s, e) ensures Exact(r, e) {
        GrowCounters(s, t, d, name, e);
      }
    }
  }

  lemma GrowCounters(s: State, t: State, d: string, name: string, e: string)
    requires HasDeployment(t, d) && HasDeployment(t, e) && Consistent(t, e)
    requires name in t.ix.pods && t.ix.pods[name].phase.Pending? && name !in t.wire && !Owns(t.ix, d, name)
    ensures var st := t.ix.deployments[d].status;
      var r := t.(ix := SetStatus(t.ix, d, st.(replicas := Inc(st.replicas)))
                          .(deploymentToPods := t.ix.deploymentToPods[d := t.ix.deploymentToPods[d] + [name]]));
      Consistent(r, e)
  {
    hide Consistent;
    var st := t.ix.deployments[d].status;
    var r := t.(ix := SetStatus(t.ix, d, st.(replicas := Inc(st.replicas)))
                        .(deploymentToPods := t.ix.deploymentToPods[d := t.ix.deploymentToPods[d] + [name]]));
    if e == d {
      assert Members(r, d) == Members(t, d) + {name};
      CountersMore(t, r, d, name);
    } else {
      assert Members(r, e) == Members(t, e);
      CountersKept(t, r, e);
    }
  }

  lemma {:induction false} GrowEachSound(s: State, d: string, fate: Fate, k: nat, n: nat)
    requires Sound(s) && HasDeployment(s, d) && k <= n && forall i | 0 <= i < n :: Unused(s, fate.names(i))
    ensures var r := GrowEach(s, d, fate, k);
      && Sound(r)
      && (forall e | e != d && HasDeployment(s, e) && Kept(s, e) :: HasDeployment(r, e) && Kept(r, e))
      && (forall e | Exact(s, e) :: Exact(r, e))
      && (forall i | 0 <= i < n :: fate.names(i) in r.ix.pods || Unused(r, fate.names(i)))
  {
    hide Sound, Grow, Kept, Exact, Unused;
    if k > 0 {
      GrowEachSound(s, d, fate, k - 1, n);
      var w := GrowEach(s, d, fate, k - 1);
      GrowSound(w, d, fate.names(k - 1), fate.outcomes(k - 1));
    }
  }
}
