/**
 How the service lists and the notices under way move together while the nodes hear nothing.
 */
module Drift {
  import opened Sequences
  import opened Core
  import opened Cluster
  import opened ClusterInvariants
  import opened ClusterSteps
  import opened ClusterHandlers
  import opened ClusterEvents
  import opened ClusterDeletion
  import opened ClusterRollout
  import opened RolloutRuns

  /** Each pod that has left has a notice under way with its labels, every service list has lost exactly the pods whose
      notices are under way, and no pod has become ready. */
  ghost predicate Drifts(s: State, r: State) {
    && r.ix.services == s.ix.services && r.ix.servicesToPods.Keys == s.ix.servicesToPods.Keys
    && (forall k | k in s.ix.servicesToPods :: r.ix.servicesToPods[k] == Without(s.ix.servicesToPods[k], r.wire.Keys))
    && (forall n | n in s.wire :: n in r.wire && r.wire[n] == s.wire[n])
    && (forall n | n in r.wire && n !in s.wire && n in s.ix.pods :: r.wire[n].pod.labels == s.ix.pods[n].labels)
    && (forall n | n in s.ix.pods :: n in r.wire || (n in r.ix.pods && r.ix.pods[n].labels == s.ix.pods[n].labels))
    && (forall n | n in r.ix.pods && r.ix.pods[n].phase.Ready? ::
          n in s.ix.pods && s.ix.pods[n].phase.Ready? && r.ix.pods[n].labels == s.ix.pods[n].labels)
  }

  /** And the ready pods keep their addresses. */
  ghost predicate Stays(s: State, r: State) {
    Drifts(s, r) && forall n | n in r.ix.pods && r.ix.pods[n].phase.Ready? :: n in s.ix.pods && r.ix.pods[n].ip == s.ix.pods[n].ip
  }

  lemma ServedNotWired(s: State, k: string)
    requires Sound(s) && k in s.ix.servicesToPods
    ensures NoDup(s.ix.servicesToPods[k]) && forall n | n in s.ix.servicesToPods[k] :: n in s.ix.pods && n !in s.wire
  {
    assert forall n | n in s.ix.servicesToPods[k] :: Serves(s.ix, k, n);
  }

  /** Nothing that concerns services has changed, nor an address of a ready pod. */
  lemma StaysFrame(s: State, r: State)
    requires Sound(s) && r.wire == s.wire
    requires r.ix.services == s.ix.services && r.ix.servicesToPods == s.ix.servicesToPods
    requires forall n | n in s.ix.pods :: n in r.ix.pods && r.ix.pods[n].labels == s.ix.pods[n].labels
    requires forall n | n in r.ix.pods && r.ix.pods[n].phase.Ready? :: n in s.ix.pods && s.ix.pods[n].phase.Ready?
    requires forall n | n in r.ix.pods && r.ix.pods[n].phase.Ready? :: n in s.ix.pods && r.ix.pods[n].ip == s.ix.pods[n].ip
    ensures Stays(s, r)
  {
    hide Sound, Drifts;
    DriftsFrame(s, r);
  }

  lemma DriftsFrame(s: State, r: State)
    requires Sound(s) && r.wire == s.wire
    requires r.ix.services == s.ix.services && r.ix.servicesToPods == s.ix.servicesToPods
    requires forall n | n in s.ix.pods :: n in r.ix.pods && r.ix.pods[n].labels == s.ix.pods[n].labels
    requires forall n | n in r.ix.pods && r.ix.pods[n].phase.Ready? :: n in s.ix.pods && s.ix.pods[n].phase.Ready?
    ensures Drifts(s, r)
  {
    hide Sound;
    forall k | k in s.ix.servicesToPods ensures s.ix.servicesToPods[k] == Without(s.ix.servicesToPods[k], s.wire.Keys) {
      ServedNotWired(s, k);
      WithoutNothing(s.ix.servicesToPods[k], s.wire.Keys);
    }
  }

  lemma StaysTwice(s: State, t: State, r: State)
    requires Stays(s, t) && Stays(t, r)
    ensures Stays(s, r)
  {
    DriftsTwice(s, t, r);
  }

  lemma DriftsTwice(s: State, t: State, r: State)
    requires Drifts(s, t) && Drifts(t, r)
    ensures Drifts(s, r)
  {
    hide Without;
    forall k | k in s.ix.servicesToPods ensures r.ix.servicesToPods[k] == Without(s.ix.servicesToPods[k], r.wire.Keys) {
      WithoutTwice(s.ix.servicesToPods[k], t.wire.Keys, r.wire.Keys);
      assert t.wire.Keys + r.wire.Keys == r.wire.Keys;
    }
  }

  /** A pod left with a notice; whatever else changed does not concern services. */
  lemma StaysLess(s: State, r: State, name: string, actor: Actor)
    requires Sound(s) && name in s.ix.pods
    requires r.ix.pods == s.ix.pods - {name} && r.wire == s.wire[name := Notice(s.ix.pods[name], actor)]
    requires r.ix.services == s.ix.services && r.ix.servicesToPods == RemoveEverywhere(s.ix.servicesToPods, name)
    ensures Stays(s, r)
  {
    hide Sound, Without, RemoveFirst, NoDup;
    NameNotWired(s, name);
    forall k | k in s.ix.servicesToPods ensures RemoveFirst(s.ix.servicesToPods[k], name) == Without(s.ix.servicesToPods[k], r.wire.Keys) {
      ServedNotWired(s, k);
      RemoveFirstIsWithout(s.ix.servicesToPods[k], name);
      WithoutSame(s.ix.servicesToPods[k], {name}, r.wire.Keys);
    }
  }

  lemma NameNotWired(s: State, name: string)
    requires Sound(s) && name in s.ix.pods
    ensures name !in s.wire
  {
  }

  lemma DeleteDrifts(s: State, name: string, ok: bool, actor: Actor)
    requires Sound(s)
    ensures Stays(s, DeletePod(s, name, ok, actor))
  {
    hide Sound, LegacyOf, RemoveEverywhere, Stays;
    if Deletable(s, name, ok) {
      StaysLess(s, DeletePod(s, name, ok, actor), name, actor);
    } else {
      StaysFrame(s, s);
    }
  }

  lemma DiscardDrifts(s: State, d: string, name: string, ok: bool)
    requires Sound(s) && d in s.ix.deployments
    ensures Stays(s, Discard(s, d, name, ok))
  {
    hide Sound, LegacyOf, RemoveEverywhere, Stays, AfterRemoval;
    if Deletable(s, name, ok) {
      StaysLess(s, Discard(s, d, name, ok), name, Controller);
    } else {
      StaysFrame(s, s);
    }
  }

  lemma {:induction false} DiscardEachDrifts(s: State, d: string, targets: seq<string>, k: nat, ok: nat -> bool)
    requires Sound(s) && HasDeployment(s, d) && k <= |targets| && Targeted(s, d, targets)
    ensures Stays(s, DiscardEach(s, d, targets, k, ok))
    decreases k
  {
    hide Sound, Discard, DiscardEach, Owns, Targeted, Stays;
    if k == 0 {
      DiscardNone(s, d, targets, ok);
      StaysFrame(s, s);
    } else {
      DiscardEachNext(s, d, targets, k, ok);
      DiscardEachDrifts(s, d, targets, k - 1, ok);
      DiscardEachLive(s, d, targets, k - 1, ok);
      var t := DiscardEach(s, d, targets, k - 1, ok);
      DiscardDrifts(t, d, targets[k - 1], ok(k - 1));
      StaysTwice(s, t, DiscardEach(s, d, targets, k, ok));
    }
  }

  lemma {:induction false} DiscardBackDrifts(s: State, d: string, count: nat, ok: nat -> bool, offset: nat)
    requires Sound(s) && HasDeployment(s, d)
    ensures var r := DiscardBack(s, d, count, ok, offset);
      r.Some? ==> Stays(s, r.value)
    decreases count
  {
    hide Sound, Discard, Owns, Stays, Kept, Unused;
    if count == 0 {
      StaysFrame(s, s);
    } else {
      DiscardBackDrifts(s, d, count - 1, ok, offset);
      DiscardBackSound(s, d, count - 1, ok, offset);
      var w := DiscardBack(s, d, count - 1, ok, offset);
      if w.Some? && w.value.ix.deploymentToPods[d] != [] {
        var list := w.value.ix.deploymentToPods[d];
        DiscardDrifts(w.value, d, list[|list| - 1], ok(offset + count - 1));
        StaysTwice(s, w.value, Discard(w.value, d, list[|list| - 1], ok(offset + count - 1)));
      }
    }
  }

  lemma FewerDrifts(s: State, d: string, n: nat, ok: nat -> bool)
    requires Sound(s) && HasDeployment(s, d)
    ensures FewerPods(s, d, n, ok).Some? ==> Stays(s, FewerPods(s, d, n, ok).value)
  {
    hide Sound, DiscardEach, DiscardBack, OutdatedNames, Owns, NoDup, Stays, Kept, Unused;
    var outdated := OutdatedNames(s.ix, s.ix.deployments[d].spec.template, s.ix.deploymentToPods[d]);
    ListOwned(s, d);
    OutdatedFrom(s.ix, s.ix.deployments[d].spec.template, s.ix.deploymentToPods[d]);
    assert Targeted(s, d, outdated);
    var first := Min(n, |outdated|);
    DiscardEachSound(s, d, outdated, first, ok);
    DiscardEachDrifts(s, d, outdated, first, ok);
    var t := DiscardEach(s, d, outdated, first, ok);
    DiscardBackDrifts(t, d, Max(0, n - |outdated|), ok, first);
    DiscardBackSound(t, d, Max(0, n - |outdated|), ok, first);
    var w := DiscardBack(t, d, Max(0, n - |outdated|), ok, first);
    if w.Some? {
      StaysFrame(w.value, Persist(w.value, d));
      StaysTwice(s, t, w.value);
      StaysTwice(s, w.value, Persist(w.value, d));
    }
  }

  lemma GrowDrifts(s: State, d: string, name: string, outcome: Creation)
    requires Sound(s) && HasDeployment(s, d)
    ensures Stays(s, Grow(s, d, name, outcome))
  {
    hide Sound, Stays, Grow;
    GrowServices(s, d, name, outcome);
    StaysFrame(s, Grow(s, d, name, outcome));
  }

  lemma GrowServices(s: State, d: string, name: string, outcome: Creation)
    requires HasDeployment(s, d)
    ensures var r := Grow(s, d, name, outcome);
      && r.wire == s.wire && r.ix.services == s.ix.services && r.ix.servicesToPods == s.ix.servicesToPods
      && (forall n | n in s.ix.pods :: n in r.ix.pods && r.ix.pods[n] == s.ix.pods[n])
      && (forall n | n in r.ix.pods && n !in s.ix.pods :: r.ix.pods[n].phase.Pending?)
  {
  }

  lemma {:induction false} GrowEachDrifts(s: State, d: string, fate: Fate, k: nat)
    requires Sound(s) && HasDeployment(s, d) && forall i: nat :: Unused(s, fate.names(i))
    ensures Stays(s, GrowEach(s, d, fate, k))
    decreases k
  {
    hide Sound, Grow, GrowEach, Unused, Stays;
    if k == 0 {
      GrowNone(s, d, fate);
      StaysFrame(s, s);
    } else {
      GrowEachNext(s, d, fate, k);
      GrowEachDrifts(s, d, fate, k - 1);
      GrowEachLive(s, d, fate, k - 1);
      var t := GrowEach(s, d, fate, k - 1);
      GrowDrifts(t, d, fate.names(k - 1), fate.outcomes(k - 1));
      StaysTwice(s, t, GrowEach(s, d, fate, k));
    }
  }

  lemma MoreDrifts(s: State, d: string, n: nat, fate: Fate)
    requires Sound(s) && HasDeployment(s, d) && forall i: nat :: Unused(s, fate.names(i))
    ensures Stays(s, MorePods(s, d, n, fate))
  {
    hide Sound, GrowEach, Unused, Stays;
    GrowEachDrifts(s, d, fate, n);
    GrowEachLive(s, d, fate, n);
    var t := GrowEach(s, d, fate, n);
    StaysFrame(t, Persist(t, d));
    StaysTwice(s, t, Persist(t, d));
  }

  lemma MonitorDrifts(s: State, d: string, fate: Fate)
    requires Sound(s) && HasDeployment(s, d) && forall i: nat :: Unused(s, fate.names(i))
    ensures Monitor(s, d, fate).Some? ==> Stays(s, Monitor(s, d, fate).value)
  {
    hide Sound, FewerPods, MorePods, Unused, RollingDeletion, RollingCreation, Stays, Kept;
    var dep := s.ix.deployments[d];
    if dep.status.updated < dep.status.ready {
      var deletion := RollingDeletion(s.ix, d);
      var w := if deletion > 0 then FewerPods(s, d, deletion, fate.deletes) else Some(s);
      if deletion > 0 {
        FewerDrifts(s, d, deletion, fate.deletes);
        FewerSound(s, d, deletion, fate.deletes);
      } else {
        StaysFrame(s, s);
      }
      if w.Some? && RollingCreation(w.value.ix, d) > 0 {
        MoreDrifts(w.value, d, RollingCreation(w.value.ix, d), fate);
        StaysTwice(s, w.value, MorePods(w.value, d, RollingCreation(w.value.ix, d), fate));
      }
    } else {
      var diff := dep.spec.replicas - dep.status.replicas;
      if diff > 0 {
        MoreDrifts(s, d, diff, fate);
      } else if diff < 0 {
        FewerDrifts(s, d, -diff, fate.deletes);
      } else {
        StaysFrame(s, s);
      }
    }
  }

  lemma {:induction false} TearDownDrifts(s: State, d: string, k: nat)
    requires Healthy(s) && HasDeployment(s, d) && k <= |s.ix.deploymentToPods[d]|
    ensures Stays(s, TearDown(s, s.ix.deploymentToPods[d], k))
    decreases k
  {
    hide Sound, Kept, DeletePod, Stays;
    var names := s.ix.deploymentToPods[d];
    if k == 0 {
      StaysFrame(s, s);
    } else {
      TearDownDrifts(s, d, k - 1);
      TeardownSound(s, d, k - 1);
      var t := TearDown(s, names, k - 1);
      DeleteDrifts(t, names[k - 1], true, Teardown);
      StaysTwice(s, t, TearDown(s, names, k));
    }
  }

  lemma DeleteDeploymentDrifts(s: State, d: string)
    requires Healthy(s)
    ensures Stays(s, DeleteDeployment(s, d))
  {
    hide Sound, Kept, TearDown, Stays;
    if HasDeployment(s, d) {
      var names := s.ix.deploymentToPods[d];
      TearDownDrifts(s, d, |names|);
      TeardownSound(s, d, |names|);
      var t := TearDown(s, names, |names|);
      assert names[|names|..] == [];
      assert t.ix.pods - (set n | n in t.ix.deploymentToPods[d]) == t.ix.pods;
      StaysFrame(t, DeleteDeployment(s, d));
      StaysTwice(s, t, DeleteDeployment(s, d));
    } else {
      StaysFrame(s, s);
    }
  }

  /** A report that does not make a pod ready; a ready pod keeps its address if it reports the one it has. */
  lemma ReportDrifts(s: State, name: string, phase: Phase, ip: string, ok: bool)
    requires Healthy(s) && (name in s.ix.pods ==> Orderly(s.ix.pods[name].phase, phase))
    requires name in s.ix.pods && phase.Ready? ==> s.ix.pods[name].phase.Ready?
    ensures Drifts(s, UpdateStatus(s, name, phase, ip, ok))
    ensures (name in s.ix.pods && phase.Ready? ==> ip == s.ix.pods[name].ip) ==> Stays(s, UpdateStatus(s, name, phase, ip, ok))
  {
    hide Sound, Kept, Drifts, DropFailed, CountReady, JoinServices;
    if name in s.ix.pods {
      var t := WithPhase(s, name, phase, ip);
      DriftsFrame(s, t);
      PhaseHealthy(s, name, phase, ip);
      if !s.ix.pods[name].phase.Failed? && phase.Failed? {
        StaysFrame(s, t);
        DropDrifts(t, name, ok);
        StaysTwice(s, t, DropFailed(t, name, ok));
      } else if phase.Ready? ==> ip == s.ix.pods[name].ip {
        StaysFrame(s, t);
      }
    } else {
      StaysFrame(s, s);
    }
  }

  lemma DropDrifts(s: State, name: string, ok: bool)
    requires Sound(s)
    ensures Stays(s, DropFailed(s, name, ok))
  {
    hide Sound, Stays, Discard;
    OwnerFacts(s, name);
    var o := OwnerOf(s.ix, name);
    if o.Some? {
      DiscardDrifts(s, o.value, name, ok);
    } else {
      StaysFrame(s, s);
    }
  }
}
