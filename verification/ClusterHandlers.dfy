/**
 The handlers of the API server keep the invariants, and exactly when the ones that can break them do.
 */
module ClusterHandlers {
  import opened Sequences
  import opened Core
  import opened Cluster
  import opened ClusterInvariants
  import opened ClusterSteps

  ghost predicate Healthy(s: State) {
    Sound(s) && AllKept(s)
  }

  // ---- monitoring ----

  lemma {:induction false} OutdatedFrom(ix: Index, t: Template, names: seq<string>)
    requires NoDup(names)
    ensures NoDup(OutdatedNames(ix, t, names))
  {
    if names != [] {
      NoDupRest(names);
      OutdatedFrom(ix, t, names[1..]);
      NoDupAdd(OutdatedNames(ix, t, names[1..]), names[0]);
    }
  }

  lemma ListOwned(s: State, d: string)
    requires Sound(s) && d in s.ix.deploymentToPods
    ensures NoDup(s.ix.deploymentToPods[d])
    ensures forall n | n in s.ix.deploymentToPods[d] :: Owns(s.ix, d, n)
  {
  }

  lemma FewerSound(s: State, d: string, n: nat, ok: nat -> bool)
    requires Sound(s) && HasDeployment(s, d)
    ensures var r := FewerPods(s, d, n, ok);
      r.Some? ==>
      && Sound(r.value) && Kept(r.value, d)
      && (forall e | HasDeployment(s, e) && Kept(s, e) :: HasDeployment(r.value, e) && Kept(r.value, e))
      && (forall e | Exact(s, e) :: Exact(r.value, e))
      && (forall x | Unused(s, x) :: Unused(r.value, x))
  {
    hide Sound, Kept, Exact, Unused, Owns, NoDup, DiscardEach, DiscardBack;
    var outdated := OutdatedNames(s.ix, s.ix.deployments[d].spec.template, s.ix.deploymentToPods[d]);
    ListOwned(s, d);
    OutdatedFrom(s.ix, s.ix.deployments[d].spec.template, s.ix.deploymentToPods[d]);
    var first := Min(n, |outdated|);
    DiscardEachSound(s, d, outdated, first, ok);
    var t := DiscardEach(s, d, outdated, first, ok);
    DiscardBackSound(t, d, Max(0, n - |outdated|), ok, first);
    var w := DiscardBack(t, d, Max(0, n - |outdated|), ok, first);
    if w.Some? {
      PersistSound(w.value, d);
    }
  }

  lemma MoreSound(s: State, d: string, n: nat, fate: Fate)
    requires Sound(s) && HasDeployment(s, d) && forall i: nat :: Unused(s, fate.names(i))
    ensures var r := MorePods(s, d, n, fate);
      && Sound(r) && Kept(r, d)
      && (forall e | e != d && HasDeployment(s, e) && Kept(s, e) :: HasDeployment(r, e) && Kept(r, e))
      && (forall e | Exact(s, e) :: Exact(r, e))
  {
    hide Sound, Kept, Exact, Unused, GrowEach;
    GrowEachSound(s, d, fate, n, n);
    PersistSound(GrowEach(s, d, fate, n), d);
  }

  lemma HealthyFrom(s: State, r: State)
    requires Healthy(s) && Sound(r) && SameKeys(s, r)
    requires forall e | HasDeployment(s, e) && Kept(s, e) :: HasDeployment(r, e) && Kept(r, e)
    ensures Healthy(r)
  {
  }

  /** A tick for one deployment keeps everything, whatever fails, as long as the names it draws are new. */
  lemma MonitorHealthy(s: State, d: string, fate: Fate)
    requires Healthy(s) && HasDeployment(s, d) && forall i: nat :: Unused(s, fate.names(i))
    ensures Monitor(s, d, fate).Some? ==>
      var r := Monitor(s, d, fate).value;
      Healthy(r) && forall e | Exact(s, e) :: Exact(r, e)
  {
    hide Sound, Kept, Exact, Unused, MorePods, FewerPods, RollingCreation, RollingDeletion, SameKeys;
    var dep := s.ix.deployments[d];
    if dep.status.updated < dep.status.ready {
      var deletion := RollingDeletion(s.ix, d);
      var w := if deletion > 0 then FewerPods(s, d, deletion, fate.deletes) else Some(s);
      if deletion > 0 {
        FewerHealthy(s, d, deletion, fate.deletes);
      }
      if w.Some? && RollingCreation(w.value.ix, d) > 0 {
        MoreHealthy(w.value, d, RollingCreation(w.value.ix, d), fate);
      }
    } else {
      var diff := dep.spec.replicas - dep.status.replicas;
      if diff > 0 {
        MoreHealthy(s, d, diff, fate);
      } else if diff < 0 {
        FewerHealthy(s, d, -diff, fate.deletes);
      }
    }
  }

  lemma FewerHealthy(s: State, d: string, n: nat, ok: nat -> bool)
    requires Healthy(s) && HasDeployment(s, d)
    ensures var r := FewerPods(s, d, n, ok);
      r.Some? ==>
      && Healthy(r.value) && HasDeployment(r.value, d) && (forall x | Unused(s, x) :: Unused(r.value, x))
      && (forall e | Exact(s, e) :: Exact(r.value, e))
  {
    hide Sound, Kept, Exact, Unused, FewerPods;
    FewerSound(s, d, n, ok);
    var r := FewerPods(s, d, n, ok);
    if r.Some? {
      HealthyFrom(s, r.value);
    }
  }

  lemma MoreHealthy(s: State, d: string, n: nat, fate: Fate)
    requires Healthy(s) && HasDeployment(s, d) && forall i: nat :: Unused(s, fate.names(i))
    ensures Healthy(MorePods(s, d, n, fate)) && forall e | Exact(s, e) :: Exact(MorePods(s, d, n, fate), e)
  {
    hide Sound, Kept, Exact, Unused, MorePods;
    MoreSound(s, d, n, fate);
    HealthyFrom(s, MorePods(s, d, n, fate));
  }

  // ---- applying ----

  /** The deployments changed, but neither their names nor any list. */
  lemma DeploymentsIndexed(ix: Index, d: string, dep: Deployment)
    requires Indexed(ix) && dep.name == d && d != ""
    requires d !in ix.deployments ==> d !in ix.deploymentToPods
    ensures var lists := if d in ix.deployments then ix.deploymentToPods else ix.deploymentToPods[d := []];
      Indexed(ix.(deployments := ix.deployments[d := dep], deploymentToPods := lists))
  {
    hide NoDup, Served;
    var lists := if d in ix.deployments then ix.deploymentToPods else ix.deploymentToPods[d := []];
    var r := ix.(deployments := ix.deployments[d := dep], deploymentToPods := lists);
    assert NoDup<string>([]) by { NoDupNone(); }
    ServedSame(ix, r);
    forall e, n ensures Owns(r, e, n) <==> Owns(ix, e, n) {
    }
  }

  lemma NoDupNone()
    ensures NoDup<string>([])
  {
  }

  /** The state after an accepted application, before it is written to etcd. */
  function Applied(s: State, d: Deployment): State {
    if d.name in s.ix.deployments then
      var dep := s.ix.deployments[d.name];
      var st := if dep.spec.template != d.spec.template then dep.status.(updated := 0) else dep.status;
      s.(ix := s.ix.(deployments := s.ix.deployments[d.name := dep.(spec := d.spec, status := st)]))
    else
      s.(ix := s.ix.(deployments := s.ix.deployments[d.name := d.(status := Status(0, 0, 0))],
                     deploymentToPods := s.ix.deploymentToPods[d.name := []]))
  }

  lemma ApplyIs(s: State, d: Deployment)
    requires !ApplyRefused(s, d)
    ensures d.name in Applied(s, d).ix.deployments && Apply(s, d) == PersistMeta(Applied(s, d), d.name)
  {
    hide Autoscaled;
  }

  lemma AppliedOthers(s: State, d: Deployment, e: string)
    requires HasDeployment(s, e) && Consistent(s, e) && e != d.name && !ApplyRefused(s, d)
    ensures HasDeployment(Applied(s, d), e) && Consistent(Applied(s, d), e)
  {
    hide Consistent;
    Untouched(s, Applied(s, d), e);
  }

  /** Whether the counters can be taken over: a new template must not be that of a pod which already counts,
      and a new deployment must not inherit notices that are still under way. */
  ghost predicate CleanStart(s: State, d: Deployment) {
    if d.name in s.ix.deployments then
      (HasDeployment(s, d.name) && d.spec.template != s.ix.deployments[d.name].spec.template ==>
         UpdatedMembers(s, d.name, d.spec.template) == {})
    else InFlight(s, d.name) == {}
  }

  lemma SameMembers(s: State, d: Deployment)
    requires HasDeployment(s, d.name)
    ensures var r := Applied(s, d);
      && HasDeployment(r, d.name) && Members(r, d.name) == Members(s, d.name)
      && CountedMembers(r, d.name) == CountedMembers(s, d.name)
      && UpdatedMembers(r, d.name, d.spec.template) == UpdatedMembers(s, d.name, d.spec.template)
  {
  }

  lemma NoMembers(s: State, d: Deployment)
    requires d.name !in s.ix.deployments
    ensures var r := Applied(s, d);
      && HasDeployment(r, d.name) && Members(r, d.name) == InFlight(s, d.name)
      && (forall n :: Body(r, n) == Body(s, n))
  {
  }

  /** Setting the updated counter to zero, or all counters, is right exactly when nothing counts already. */
  lemma ApplyIff(s: State, d: Deployment)
    requires Sound(s) && !ApplyRefused(s, d) && (HasDeployment(s, d.name) ==> Consistent(s, d.name))
    ensures HasDeployment(Applied(s, d), d.name)
    ensures CleanStart(s, d) ==> Consistent(Applied(s, d), d.name)
    ensures Consistent(Applied(s, d), d.name) && |Members(Applied(s, d), d.name)| < 0x1_0000_0000 ==> CleanStart(s, d)
  {
    hide Indexed, Posted, Stored, Members, CountedMembers, UpdatedMembers, InFlight, Body, NoDup;
    IndexParts(s.ix);
    var r := Applied(s, d);
    if d.name in s.ix.deployments {
      SameMembers(s, d);
      UpdatedWithin(r, d.name, d.spec.template);
    } else {
      NoMembers(s, d);
      UpdatedWithin(r, d.name, d.spec.template);
    }
  }

  lemma UpdatedWithin(s: State, d: string, t: Template)
    requires HasDeployment(s, d)
    ensures UpdatedMembers(s, d, t) <= CountedMembers(s, d) <= Members(s, d)
    ensures |UpdatedMembers(s, d, t)| <= |CountedMembers(s, d)| <= |Members(s, d)|
  {
    hide IsPodUpdated, Members;
    Sizes(UpdatedMembers(s, d, t), CountedMembers(s, d));
    Sizes(CountedMembers(s, d), Members(s, d));
  }

  lemma {:induction false} Sizes(a: set<string>, b: set<string>)
    requires a <= b
    ensures |a| <= |b|
  {
    assert |b| == |a| + |b - a| by { assert b == a + (b - a); }
  }

  /** Applying keeps everything but, when it does not start clean, the counters of that deployment. */
  lemma ApplyHealthy(s: State, d: Deployment)
    requires Healthy(s) && d.name != ""
    ensures Healthy(Apply(s, d))
    ensures forall e | Exact(s, e) && (e == d.name ==> CleanStart(s, d)) :: Exact(Apply(s, d), e)
    ensures d.name !in s.ix.deployments && HasDeployment(Apply(s, d), d.name) && CleanStart(s, d) ==>
      Exact(Apply(s, d), d.name)
  {
    hide Indexed, Posted, Consistent, Members, CountedMembers, UpdatedMembers, InFlight, Body, NoDup, Known, CleanStart, Kept;
    if !ApplyRefused(s, d) {
      IndexParts(s.ix);
      var r := Applied(s, d);
      AppliedIndexed(s, d);
      forall e | e == d.name && CleanStart(s, d) && (HasDeployment(s, e) ==> Exact(s, e)) ensures Exact(r, e) {
        ApplyIff(s, d);
      }
      forall e | Exact(s, e) && e != d.name ensures Exact(r, e) {
        AppliedOthers(s, d, e);
      }
      AppliedPosted(s, d);
      AppliedStored(s, d);
      forall e | e in r.ix.deploymentToPods ensures Kept(r, e) {
        AppliedKept(s, d, e);
      }
      PersistMetaHealthy(r, d.name);
      ApplyIs(s, d);
    }
  }

  /** In any such state: a template is changed and changed back while a pod that counts has it. The counter of updated
      pods stays at zero although that pod is up to date again. */
  lemma RollbackBreaks(s: State, away: Deployment, back: Deployment)
    requires Healthy(s) && Exact(s, away.name) && back.name == away.name != ""
    requires back.spec.template == s.ix.deployments[away.name].spec.template != away.spec.template
    requires CleanStart(s, away) && !ApplyRefused(s, away) && !ApplyRefused(Apply(s, away), back)
    requires UpdatedMembers(s, away.name, back.spec.template) != {} && |Members(s, away.name)| < 0x1_0000_0000
    ensures HasDeployment(Apply(Apply(s, away), back), away.name)
    ensures !Consistent(Apply(Apply(s, away), back), away.name)
  {
    hide Indexed, Posted, Consistent, Stored, Members, UpdatedMembers, CountedMembers, Autoscaled, Kept;
    var d := away.name;
    var t := Apply(s, away);
    ApplyHealthy(s, away);
    ApplyIs(s, away);
    ChangedMembers(s, away, back.spec.template);
    ChangedMembers(t, back, back.spec.template);
    var r := Applied(t, back);
    ApplyIs(t, back);
    ApplyIff(t, back);
    if Consistent(PersistMeta(r, d), d) {
      Untouched(PersistMeta(r, d), r, d);
    }
  }

  lemma ChangedMembers(s: State, d: Deployment, t: Template)
    requires HasDeployment(s, d.name) && !ApplyRefused(s, d)
    ensures var r := Applied(s, d);
      && HasDeployment(r, d.name) && Members(r, d.name) == Members(s, d.name)
      && UpdatedMembers(r, d.name, t) == UpdatedMembers(s, d.name, t)
      && HasDeployment(PersistMeta(r, d.name), d.name)
      && Members(PersistMeta(r, d.name), d.name) == Members(s, d.name)
      && UpdatedMembers(PersistMeta(r, d.name), d.name, t) == UpdatedMembers(s, d.name, t)
  {
  }

  lemma AppliedIndexed(s: State, d: Deployment)
    requires Indexed(s.ix) && d.name != ""
    ensures Indexed(Applied(s, d).ix)
  {
    hide NoDup, Owned, Served;
    if d.name in s.ix.deployments {
      DeploymentsIndexed(s.ix, d.name, Applied(s, d).ix.deployments[d.name]);
      assert Applied(s, d).ix == s.ix.(deployments := Applied(s, d).ix.deployments, deploymentToPods := s.ix.deploymentToPods);
    } else {
      DeploymentsIndexed(s.ix, d.name, d.(status := Status(0, 0, 0)));
    }
  }

  lemma AppliedPosted(s: State, d: Deployment)
    requires Posted(s)
    ensures Posted(Applied(s, d))
  {
  }

  lemma AppliedStored(s: State, d: Deployment)
    requires Stored(s)
    ensures StoredBut(Applied(s, d), d.name)
  {
    hide NoDup;
  }

  lemma AppliedKept(s: State, d: Deployment, e: string)
    requires e in s.ix.deploymentToPods ==> Kept(s, e)
    requires d.name !in s.ix.deployments ==> d.name !in s.ix.deploymentToPods && d.name !in s.store.deploymentPods
    requires e in Applied(s, d).ix.deploymentToPods
    ensures Kept(Applied(s, d), e)
  {
    hide Known, Kept;
    if e in s.ix.deploymentToPods {
      KeptSame(s, Applied(s, d), e);
    } else {
      NeverKept(Applied(s, d), e);
    }
  }

  lemma NeverKept(s: State, d: string)
    requires d in s.ix.deploymentToPods && s.ix.deploymentToPods[d] == [] && d !in s.store.deploymentPods
    ensures Kept(s, d)
  {
  }

  /** etcd misses the record of at most one deployment. */
  ghost predicate StoredBut(s: State, d: string) {
    && s.store.pods == s.ix.pods
    && s.store.deployments.Keys + {d} == s.ix.deployments.Keys
    && s.store.deploymentPods.Keys <= s.ix.deployments.Keys
    && (forall e | e in s.store.deployments :: s.store.deployments[e].name == e)
    && (forall e | e in s.store.deploymentPods :: NoDup(s.store.deploymentPods[e]))
  }

  lemma PersistMetaHealthy(s: State, d: string)
    requires Indexed(s.ix) && Posted(s) && HasDeployment(s, d) && StoredBut(s, d) && AllKept(s)
    ensures Healthy(PersistMeta(s, d)) && forall e | Exact(s, e) :: Exact(PersistMeta(s, d), e)
  {
    hide Indexed, Consistent, NoDup, Known;
    KeyedName(s.ix, d);
    var r := PersistMeta(s, d);
    forall e | Exact(s, e) ensures Exact(r, e) {
      Untouched(s, r, e);
    }
  }

  lemma ScaleHealthy(s: State, d: string, n: uint32)
    requires Healthy(s) && HasDeployment(s, d)
    ensures Healthy(Scale(s, d, n)) && forall e | Exact(s, e) :: Exact(Scale(s, d, n), e)
  {
    hide Indexed, Posted, Consistent, NoDup, Known;
    var r := Scale(s, d, n);
    KeyedName(s.ix, d);
    KeyedNonempty(s.ix, d);
    DeploymentsIndexed(s.ix, d, r.ix.deployments[d]);
    assert r.ix == s.ix.(deployments := r.ix.deployments, deploymentToPods := s.ix.deploymentToPods);
    ScaledPosted(s, d, n);
    forall e | Exact(s, e) ensures Exact(r, e) {
      Untouched(s, r, e);
    }
  }

  lemma KeyedNonempty(ix: Index, d: string)
    requires Indexed(ix) && d in ix.deployments
    ensures d != ""
  {
  }

  lemma ScaledPosted(s: State, d: string, n: uint32)
    requires Posted(s) && d in s.ix.deployments
    ensures Posted(Scale(s, d, n))
  {
  }
}
