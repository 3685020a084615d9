/**
 Rolling updates in whole runs of the API server, whatever else the server does meanwhile.
 */
module RolloutRuns {
  import opened Sequences
  import opened Core
  import opened Cluster
  import opened ClusterInvariants
  import opened ClusterSteps
  import opened ClusterHandlers
  import opened ClusterEvents
  import opened ClusterDeletion
  import opened ClusterRuns
  import opened ClusterRollout
  import R = Rollout
  import P = RolloutProofs
  import T = RolloutTheorems

  // ---- the counters of a deployment without pending deletions ----

  function CountedOf(pods: map<string, Pod>, names: seq<string>): set<string> {
    set n | n in names && Object(pods, n).phase.Counted()
  }

  function UpdatedOf(pods: map<string, Pod>, names: seq<string>, t: Template): set<string> {
    set n | n in names && Object(pods, n).phase.Counted() && IsPodUpdated(t, Object(pods, n))
  }

  lemma FirstOrRest(names: seq<string>)
    requires names != []
    ensures forall n :: n in names <==> n == names[0] || n in names[1..]
  {
  }

  lemma CountedMore(pods: map<string, Pod>, names: seq<string>, first: string, rest: seq<string>)
    requires first !in rest && forall n :: n in names <==> n == first || n in rest
    ensures |CountedOf(pods, names)| == |CountedOf(pods, rest)| + if Object(pods, first).phase.Counted() then 1 else 0
  {
    hide Object;
    if Object(pods, first).phase.Counted() {
      assert CountedOf(pods, names) == CountedOf(pods, rest) + {first};
    } else {
      assert CountedOf(pods, names) == CountedOf(pods, rest);
    }
  }

  lemma UpdatedMore(pods: map<string, Pod>, names: seq<string>, first: string, rest: seq<string>, t: Template)
    requires first !in rest && forall n :: n in names <==> n == first || n in rest
    ensures var p := Object(pods, first);
      |UpdatedOf(pods, names, t)| == |UpdatedOf(pods, rest, t)| + if p.phase.Counted() && IsPodUpdated(t, p) then 1 else 0
  {
    hide Object, IsPodUpdated;
    var p := Object(pods, first);
    if p.phase.Counted() && IsPodUpdated(t, p) {
      assert UpdatedOf(pods, names, t) == UpdatedOf(pods, rest, t) + {first};
    } else {
      assert UpdatedOf(pods, names, t) == UpdatedOf(pods, rest, t);
    }
  }

  lemma {:induction false} SumOfList(pods: map<string, Pod>, names: seq<string>, t: Template)
    requires NoDup(names)
    ensures var sum := P.Sum(t, Objects(pods, names));
      && sum.pods == |names| && sum.ready == |CountedOf(pods, names)| && sum.updatedReady == |UpdatedOf(pods, names, t)|
  {
    hide Object, IsPodUpdated, NoDup;
    if names == [] {
      assert CountedOf(pods, []) == {} && UpdatedOf(pods, [], t) == {};
    } else {
      hide CountedOf, UpdatedOf;
      NoDupRest(names);
      SumOfList(pods, names[1..], t);
      assert Objects(pods, names)[1..] == Objects(pods, names[1..]);
      FirstOrRest(names);
      CountedMore(pods, names, names[0], names[1..]);
      UpdatedMore(pods, names, names[0], names[1..], t);
    }
  }

  /** When all its deletions are subtracted, a deployment's counters are those of its list. */
  lemma ViewSound(s: State, d: string)
    requires Healthy(s) && Exact(s, d) && InFlight(s, d) == {}
    ensures P.Sound(ViewOf(s, d))
  {
    hide Served, Posted, Stored, Objects, Wrap, P.Sum, AllKept, IsPodUpdated;
    var list, t := s.ix.deploymentToPods[d], s.ix.deployments[d].spec.template;
    ListLive(s, d);
    ListOwned(s, d);
    ObjectsDistinct(s.ix.pods, list);
    SumOfList(s.ix.pods, list, t);
    SetOfList(list);
    assert Members(s, d) == set n | n in list;
    ObjectsOfMembers(s, d, t);
  }

  lemma ObjectsOfMembers(s: State, d: string, t: Template)
    requires HasDeployment(s, d) && InFlight(s, d) == {}
    requires forall n | n in s.ix.deploymentToPods[d] :: n in s.ix.pods
    ensures CountedMembers(s, d) == CountedOf(s.ix.pods, s.ix.deploymentToPods[d])
    ensures UpdatedMembers(s, d, t) == UpdatedOf(s.ix.pods, s.ix.deploymentToPods[d], t)
  {
    hide InFlight;
  }

  // ---- when a tick panics ----

  /** Whatever fails, a tick dereferences nil exactly when no rolling update is under way, fewer pods are wanted than
      are counted, and the attempts before the last already deleted every pod in the list. */
  lemma MonitorPanics(s: State, d: string, fate: Fate)
    requires Healthy(s) && HasDeployment(s, d) && forall i: nat :: Unused(s, fate.names(i))
    ensures var dep := s.ix.deployments[d];
      var surplus := dep.status.replicas - dep.spec.replicas;
      Monitor(s, d, fate).None? <==>
        && dep.status.updated >= dep.status.ready && surplus > 0
        && T.Successes(fate.deletes, surplus - 1) >= |s.ix.deploymentToPods[d]|
  {
    hide Sound, Unused, Objects, R.Tick, LuckOf, R.Possible;
    MonitorView(s, d, fate);
    LuckDeletes(s, d, fate);
    ListLive(s, d);
    ListOwned(s, d);
    ObjectsDistinct(s.ix.pods, s.ix.deploymentToPods[d]);
    T.TickFails(ViewOf(s, d), LuckOf(s, d, fate));
  }

  /** With right counters: no tick panics during a rolling update, or while no more deletions by users are pending
      than pods are wanted; otherwise a tick in which all deletions succeed does. */
  lemma PanicsIff(s: State, d: string, fate: Fate)
    requires Healthy(s) && Exact(s, d) && |Members(s, d)| < 0x1_0000_0000 && forall i: nat :: Unused(s, fate.names(i))
    ensures var dep := s.ix.deployments[d];
      var risky := dep.status.updated >= dep.status.ready && |InFlight(s, d)| > dep.spec.replicas;
      && (!risky ==> Monitor(s, d, fate).Some?)
      && (risky && (forall i: nat :: fate.deletes(i)) ==> Monitor(s, d, fate).None?)
  {
    hide Healthy, Unused, InFlight, Members, Consistent, Monitor;
    MonitorPanics(s, d, fate);
    MembersSplit(s, d);
    ReplicasAre(s, d);
    var dep := s.ix.deployments[d];
    var surplus := dep.status.replicas - dep.spec.replicas;
    if surplus > 0 && forall i: nat :: fate.deletes(i) {
      T.AllSucceed(fate.deletes, surplus - 1);
    }
  }

  lemma LuckDeletes(s: State, d: string, fate: Fate)
    requires HasDeployment(s, d)
    ensures LuckOf(s, d, fate).deletes == fate.deletes
  {
  }

  lemma ReplicasAre(s: State, d: string)
    requires Exact(s, d) && |Members(s, d)| < 0x1_0000_0000
    ensures s.ix.deployments[d].status.replicas == |Members(s, d)|
  {
    hide Members, CountedMembers, UpdatedMembers;
  }

  // ---- what other operations leave alone ----

  /** The deployment sees no difference and has no new deletion to subtract. */
  ghost predicate Aside(s: State, r: State, d: string)
    requires HasDeployment(s, d)
  {
    HasDeployment(r, d) && ViewOf(r, d) == ViewOf(s, d) && InFlight(r, d) == InFlight(s, d)
  }

  lemma AsideBy(s: State, r: State, d: string)
    requires HasDeployment(s, d) && HasDeployment(r, d)
    requires r.ix.deployments[d].spec == s.ix.deployments[d].spec && r.ix.deployments[d].status == s.ix.deployments[d].status
    requires r.ix.deploymentToPods[d] == s.ix.deploymentToPods[d]
    requires forall n | n in s.ix.deploymentToPods[d] :: Object(r.ix.pods, n) == Object(s.ix.pods, n)
    requires r.wire == s.wire && r.legacy == s.legacy && r.expected == s.expected
    ensures Aside(s, r, d)
  {
    hide Object;
    ObjectsSame(r.ix.pods, s.ix.pods, s.ix.deploymentToPods[d]);
    assert InFlight(r, d) == InFlight(s, d);
  }

  lemma ForgetAside(ix: Index, name: string, d: string)
    requires d in ix.deploymentToPods && name !in ix.deploymentToPods[d]
    ensures d in Forget(ix, name).deploymentToPods && Forget(ix, name).deploymentToPods[d] == ix.deploymentToPods[d]
  {
    RemoveFirstAbsent(ix.deploymentToPods[d], name);
  }

  lemma DeleteAside(s: State, name: string, ok: bool, actor: Actor, d: string)
    requires Sound(s) && HasDeployment(s, d) && !Owns(s.ix, d, name)
    ensures Aside(s, DeletePod(s, name, ok, actor), d)
  {
    hide Served, Stored, Forget, LegacyOf, Object, Objects;
    if Deletable(s, name, ok) {
      var r := DeletePod(s, name, ok, actor);
      ForgetParts(s.ix, name);
      ForgetAside(s.ix, name, d);
      LegacyIsOwner(s.ix, name, d);
      ObjectsLess(s.ix.pods, name, s.ix.deploymentToPods[d]);
      forall n ensures n in InFlight(r, d) <==> n in InFlight(s, d) {
      }
    }
  }

  lemma ObjectsLess(pods: map<string, Pod>, name: string, names: seq<string>)
    requires name !in names
    ensures Objects(pods - {name}, names) == Objects(pods, names)
  {
    ObjectsSame(pods - {name}, pods, names);
  }

  lemma DiscardAside(s: State, e: string, name: string, ok: bool, d: string)
    requires Sound(s) && HasDeployment(s, d) && HasDeployment(s, e) && Owns(s.ix, e, name) && e != d
    ensures Aside(s, Discard(s, e, name, ok), d)
  {
    hide Served, Stored, Forget, LegacyOf, Object, Objects, AfterRemoval, Owns;
    OneOwner(s.ix, e, d, name);
    DeleteAside(s, name, ok, Controller, d);
    LegacyIsOwner(s.ix, name, d);
    ForgetParts(s.ix, name);
    var t, r := DeletePod(s, name, ok, Controller), Discard(s, e, name, ok);
    if Deletable(s, name, ok) {
      assert ViewOf(r, d) == ViewOf(t, d);
      forall n ensures n in InFlight(r, d) <==> n in InFlight(t, d) {
      }
    }
  }

  lemma {:induction false} DiscardEachAside(s: State, e: string, targets: seq<string>, k: nat, ok: nat -> bool, d: string)
    requires Sound(s) && HasDeployment(s, e) && HasDeployment(s, d) && e != d
    requires k <= |targets| && Targeted(s, e, targets)
    ensures Aside(s, DiscardEach(s, e, targets, k, ok), d)
    decreases k
  {
    hide Sound, Discard, DiscardEach, Owns, Targeted, ViewOf, InFlight;
    if k == 0 {
      DiscardNone(s, e, targets, ok);
    } else {
      DiscardEachNext(s, e, targets, k, ok);
      DiscardEachAside(s, e, targets, k - 1, ok, d);
      DiscardEachLive(s, e, targets, k - 1, ok);
      DiscardAside(DiscardEach(s, e, targets, k - 1, ok), e, targets[k - 1], ok(k - 1), d);
    }
  }

  lemma {:induction false} DiscardBackAside(s: State, e: string, count: nat, ok: nat -> bool, offset: nat, d: string)
    requires Sound(s) && HasDeployment(s, e) && HasDeployment(s, d) && e != d
    ensures var r := DiscardBack(s, e, count, ok, offset);
      r.Some? ==> Aside(s, r.value, d)
    decreases count
  {
    hide Sound, Discard, Owns, ViewOf, InFlight, Kept, Unused;
    if count > 0 {
      DiscardBackAside(s, e, count - 1, ok, offset, d);
      DiscardBackSound(s, e, count - 1, ok, offset);
      var w := DiscardBack(s, e, count - 1, ok, offset);
      if w.Some? && w.value.ix.deploymentToPods[e] != [] {
        OwnsLast(w.value.ix, e);
        var list := w.value.ix.deploymentToPods[e];
        DiscardAside(w.value, e, list[|list| - 1], ok(offset + count - 1), d);
      }
    }
  }

  lemma PersistAside(s: State, e: string, d: string)
    requires HasDeployment(s, e) && HasDeployment(s, d)
    ensures Aside(s, Persist(s, e), d)
  {
    AsideBy(s, Persist(s, e), d);
  }

  lemma FewerAside(s: State, e: string, n: nat, ok: nat -> bool, d: string)
    requires Sound(s) && HasDeployment(s, e) && HasDeployment(s, d) && e != d
    ensures FewerPods(s, e, n, ok).Some? ==> Aside(s, FewerPods(s, e, n, ok).value, d)
  {
    hide Sound, DiscardEach, DiscardBack, OutdatedNames, Owns, NoDup, Persist, ViewOf, InFlight, Kept, Unused;
    var outdated := OutdatedNames(s.ix, s.ix.deployments[e].spec.template, s.ix.deploymentToPods[e]);
    ListOwned(s, e);
    OutdatedFrom(s.ix, s.ix.deployments[e].spec.template, s.ix.deploymentToPods[e]);
    assert Targeted(s, e, outdated);
    var first := Min(n, |outdated|);
    DiscardEachSound(s, e, outdated, first, ok);
    DiscardEachAside(s, e, outdated, first, ok, d);
    var t := DiscardEach(s, e, outdated, first, ok);
    DiscardBackAside(t, e, Max(0, n - |outdated|), ok, first, d);
    var w := DiscardBack(t, e, Max(0, n - |outdated|), ok, first);
    if w.Some? {
      PersistAside(w.value, e, d);
    }
  }

  lemma GrowAside(s: State, e: string, name: string, outcome: Creation, d: string)
    requires Sound(s) && HasDeployment(s, e) && HasDeployment(s, d) && e != d
    ensures Aside(s, Grow(s, e, name, outcome), d)
  {
    hide Sound;
    ListLive(s, d);
    AsideBy(s, Grow(s, e, name, outcome), d);
  }

  lemma GrowNone(s: State, e: string, fate: Fate)
    requires HasDeployment(s, e)
    ensures GrowEach(s, e, fate, 0) == s
  {
  }

  lemma GrowEachNext(s: State, e: string, fate: Fate, k: nat)
    requires HasDeployment(s, e) && k > 0
    ensures GrowEach(s, e, fate, k) == Grow(GrowEach(s, e, fate, k - 1), e, fate.names(k - 1), fate.outcomes(k - 1))
  {
  }

  lemma {:induction false} GrowEachAside(s: State, e: string, fate: Fate, k: nat, d: string)
    requires Sound(s) && HasDeployment(s, e) && HasDeployment(s, d) && e != d && forall i: nat :: Unused(s, fate.names(i))
    ensures Aside(s, GrowEach(s, e, fate, k), d)
    decreases k
  {
    hide Sound, Grow, GrowEach, ViewOf, InFlight, Unused;
    if k == 0 {
      GrowNone(s, e, fate);
    } else {
      GrowEachNext(s, e, fate, k);
      GrowEachAside(s, e, fate, k - 1, d);
      GrowEachLive(s, e, fate, k - 1);
      GrowAside(GrowEach(s, e, fate, k - 1), e, fate.names(k - 1), fate.outcomes(k - 1), d);
    }
  }

  lemma MoreAside(s: State, e: string, n: nat, fate: Fate, d: string)
    requires Sound(s) && HasDeployment(s, e) && HasDeployment(s, d) && e != d && forall i: nat :: Unused(s, fate.names(i))
    ensures Aside(s, MorePods(s, e, n, fate), d)
  {
    hide Sound, GrowEach, ViewOf, InFlight, Unused, Persist;
    GrowEachAside(s, e, fate, n, d);
    PersistAside(GrowEach(s, e, fate, n), e, d);
  }

  /** A tick for one deployment leaves every other alone. */
  lemma MonitorAside(s: State, e: string, fate: Fate, d: string)
    requires Sound(s) && HasDeployment(s, e) && HasDeployment(s, d) && e != d && forall i: nat :: Unused(s, fate.names(i))
    ensures Monitor(s, e, fate).Some? ==> Aside(s, Monitor(s, e, fate).value, d)
  {
    hide Sound, FewerPods, MorePods, ViewOf, InFlight, Unused, RollingDeletion, RollingCreation, Kept;
    var dep := s.ix.deployments[e];
    if dep.status.updated < dep.status.ready {
      var deletion := RollingDeletion(s.ix, e);
      var w := if deletion > 0 then FewerPods(s, e, deletion, fate.deletes) else Some(s);
      if deletion > 0 {
        FewerAside(s, e, deletion, fate.deletes, d);
        FewerSound(s, e, deletion, fate.deletes);
      }
      if w.Some? && RollingCreation(w.value.ix, e) > 0 {
        MoreAside(w.value, e, RollingCreation(w.value.ix, e), fate, d);
      }
    } else {
      var diff := dep.spec.replicas - dep.status.replicas;
      if diff > 0 {
        MoreAside(s, e, diff, fate, d);
      } else if diff < 0 {
        FewerAside(s, e, -diff, fate.deletes, d);
      }
    }
  }

  // ---- ticks leave no deletion to be subtracted later ----

  /** Every deletion that is still to be subtracted was so before. */
  predicate NoNewDebt(s: State, r: State) {
    forall n | n in r.wire && n !in r.expected ::
      n in s.wire && n !in s.expected && (n in r.legacy ==> n in s.legacy && s.legacy[n] == r.legacy[n])
  }

  lemma DiscardDebt(s: State, d: string, name: string, ok: bool)
    requires d in s.ix.deployments
    ensures NoNewDebt(s, Discard(s, d, name, ok))
  {
    hide Forget, LegacyOf, AfterRemoval;
  }

  lemma {:induction false} DiscardEachDebt(s: State, d: string, targets: seq<string>, k: nat, ok: nat -> bool)
    requires HasDeployment(s, d) && k <= |targets|
    ensures NoNewDebt(s, DiscardEach(s, d, targets, k, ok))
    decreases k
  {
    hide Discard, DiscardEach;
    if k == 0 {
      DiscardNone(s, d, targets, ok);
    } else {
      DiscardEachNext(s, d, targets, k, ok);
      DiscardEachDebt(s, d, targets, k - 1, ok);
      DiscardDebt(DiscardEach(s, d, targets, k - 1, ok), d, targets[k - 1], ok(k - 1));
    }
  }

  lemma {:induction false} DiscardBackDebt(s: State, d: string, count: nat, ok: nat -> bool, offset: nat)
    requires HasDeployment(s, d)
    ensures var r := DiscardBack(s, d, count, ok, offset);
      r.Some? ==> NoNewDebt(s, r.value)
    decreases count
  {
    hide Discard;
    if count > 0 {
      DiscardBackDebt(s, d, count - 1, ok, offset);
      var w := DiscardBack(s, d, count - 1, ok, offset);
      if w.Some? && w.value.ix.deploymentToPods[d] != [] {
        var list := w.value.ix.deploymentToPods[d];
        DiscardDebt(w.value, d, list[|list| - 1], ok(offset + count - 1));
      }
    }
  }

  lemma FewerDebt(s: State, d: string, n: nat, ok: nat -> bool)
    requires HasDeployment(s, d)
    ensures FewerPods(s, d, n, ok).Some? ==> NoNewDebt(s, FewerPods(s, d, n, ok).value)
  {
    hide DiscardEach, DiscardBack, OutdatedNames;
    var outdated := OutdatedNames(s.ix, s.ix.deployments[d].spec.template, s.ix.deploymentToPods[d]);
    var first := Min(n, |outdated|);
    DiscardEachDebt(s, d, outdated, first, ok);
    DiscardBackDebt(DiscardEach(s, d, outdated, first, ok), d, Max(0, n - |outdated|), ok, first);
  }

  lemma {:induction false} GrowEachWire(s: State, d: string, fate: Fate, k: nat)
    requires HasDeployment(s, d)
    ensures var r := GrowEach(s, d, fate, k);
      r.wire == s.wire && r.expected == s.expected && r.legacy == s.legacy
    decreases k
  {
    hide Grow, GrowEach;
    if k == 0 {
      GrowNone(s, d, fate);
    } else {
      GrowEachNext(s, d, fate, k);
      GrowEachWire(s, d, fate, k - 1);
      GrowWire(GrowEach(s, d, fate, k - 1), d, fate.names(k - 1), fate.outcomes(k - 1));
    }
  }

  lemma GrowWire(s: State, d: string, name: string, outcome: Creation)
    requires HasDeployment(s, d)
    ensures var r := Grow(s, d, name, outcome);
      r.wire == s.wire && r.expected == s.expected && r.legacy == s.legacy
  {
  }

  lemma MonitorDebt(s: State, d: string, fate: Fate)
    requires HasDeployment(s, d)
    ensures Monitor(s, d, fate).Some? ==> NoNewDebt(s, Monitor(s, d, fate).value)
  {
    hide FewerPods, RollingDeletion, RollingCreation, GrowEach;
    var dep := s.ix.deployments[d];
    if dep.status.updated < dep.status.ready {
      var deletion := RollingDeletion(s.ix, d);
      if deletion > 0 {
        FewerDebt(s, d, deletion, fate.deletes);
      }
      var w := if deletion > 0 then FewerPods(s, d, deletion, fate.deletes) else Some(s);
      if w.Some? && RollingCreation(w.value.ix, d) > 0 {
        GrowEachWire(w.value, d, fate, RollingCreation(w.value.ix, d));
      }
    } else {
      var diff := dep.spec.replicas - dep.status.replicas;
      if diff > 0 {
        GrowEachWire(s, d, fate, diff);
      } else if diff < 0 {
        FewerDebt(s, d, -diff, fate.deletes);
      }
    }
  }

  lemma NoDebt(s: State, r: State, d: string)
    requires NoNewDebt(s, r) && InFlight(s, d) == {}
    ensures InFlight(r, d) == {}
  {
  }

  // ---- the tick and the reports of the deployment itself ----

  lemma TickHappens(s: State, d: string, fate: Fate)
    requires Healthy(s) && HasDeployment(s, d) && InFlight(s, d) == {} && forall i: nat :: Unused(s, fate.names(i))
    requires T.InRollout(ViewOf(s, d))
    ensures var r := Monitor(s, d, fate);
      && r.Some? && InFlight(r.value, d) == {} && T.Happens(ViewOf(s, d), ViewOf(r.value, d))
  {
    hide Sound, T.InRollout, ViewOf, R.Tick, R.Possible, InFlight, P.FreshLuck, Unused;
    MonitorView(s, d, fate);
    MonitorDebt(s, d, fate);
    var luck := LuckOf(s, d, fate);
    LuckIsFresh(s, d, fate);
    T.TickSafe(ViewOf(s, d), luck);
    NoDebt(s, Monitor(s, d, fate).value, d);
  }

  /** The names drawn for the pods of a tick differ from each other and from those in the list. */
  lemma LuckIsFresh(s: State, d: string, fate: Fate)
    requires Sound(s) && HasDeployment(s, d) && forall i: nat :: Unused(s, fate.names(i))
    ensures P.FreshLuck(ViewOf(s, d), LuckOf(s, d, fate))
  {
    hide Sound, RollingCreation, RollingDeletion, MadeBy, Unused, P.FreshPods, FewerPods, Objects;
    var dep := s.ix.deployments[d];
    if dep.status.updated < dep.status.ready {
      var w := AfterFewer(s, d, fate);
      AfterFewerView(s, d, fate);
      if w.Some? && RollingCreation(w.value.ix, d) > 0 {
        MadeFresh(s, w.value, d, fate, RollingCreation(w.value.ix, d));
      } else {
        MadeNone(s, d);
      }
    } else if dep.spec.replicas > dep.status.replicas {
      MadeFresh(s, s, d, fate, dep.spec.replicas - dep.status.replicas);
    } else {
      MadeNone(s, d);
    }
  }

  lemma MadeNone(s: State, d: string)
    requires Sound(s) && HasDeployment(s, d)
    ensures P.FreshPods(ViewOf(s, d).pods, [])
  {
    hide Sound, Objects;
    ListLive(s, d);
    ListOwned(s, d);
    ObjectsDistinct(s.ix.pods, s.ix.deploymentToPods[d]);
    assert ViewOf(s, d).pods + [] == ViewOf(s, d).pods;
  }

  lemma MadeFresh(s: State, w: State, d: string, fate: Fate, k: nat)
    requires Sound(s) && Sound(w) && HasDeployment(s, d) && HasDeployment(w, d)
    requires forall i: nat :: Unused(s, fate.names(i)) && Unused(w, fate.names(i))
    ensures P.FreshPods(ViewOf(s, d).pods, MadeBy(w, d, fate, k))
  {
    hide Sound, Objects, MadeBy;
    ListLive(s, d);
    ListOwned(s, d);
    ObjectsDistinct(s.ix.pods, s.ix.deploymentToPods[d]);
    MadeDistinct(w, d, fate, k);
    var pods, made := ViewOf(s, d).pods, MadeBy(w, d, fate, k);
    forall i, j | 0 <= i < |pods| && 0 <= j < |made| ensures pods[i].name != made[j].name {
      ObjectAt(s.ix.pods, s.ix.deploymentToPods[d], i);
      var x := MadeNamed(w, d, fate, k, j);
      assert Unused(s, fate.names(x));
    }
    forall i, j | 0 <= i < j < |pods + made| ensures (pods + made)[i].name != (pods + made)[j].name {
    }
  }

  lemma MadeStep(before: map<string, Pod>, after: map<string, Pod>, made: seq<Pod>, one: seq<Pod>, name: string)
    requires P.DistinctPods(made) && |one| <= 1 && forall p | p in one :: p.name == name && name !in before && name in after
    requires forall j | 0 <= j < |made| :: made[j].name in before
    requires forall n | n in before :: n in after
    ensures P.DistinctPods(made + one)
    ensures forall j | 0 <= j < |made + one| :: (made + one)[j].name in after
  {
    assert one != [] ==> one[0] in one;
  }

  lemma {:induction false} MadeDistinct(s: State, d: string, fate: Fate, k: nat)
    requires Sound(s) && HasDeployment(s, d)
    ensures var made := MadeBy(s, d, fate, k);
      && P.DistinctPods(made)
      && (forall j | 0 <= j < |made| :: made[j].name in GrowEach(s, d, fate, k).ix.pods)
    decreases k
  {
    hide Sound, Grow, GrowEach, MadeOne, P.DistinctPods;
    if k == 0 {
      NoPods();
    } else {
      MadeDistinct(s, d, fate, k - 1);
      GrowEachNext(s, d, fate, k);
      var w := GrowEach(s, d, fate, k - 1);
      var t := s.ix.deployments[d].spec.template;
      var name, outcome := fate.names(k - 1), fate.outcomes(k - 1);
      GrowKeepsPods(w, d, name, outcome, t);
      MadeStep(w.ix.pods, GrowEach(s, d, fate, k).ix.pods, MadeBy(s, d, fate, k - 1), MadeOne(w, t, name, outcome), name);
    }
  }

  lemma NoPods()
    ensures P.DistinctPods([])
  {
  }

  lemma {:induction false} MadeNamed(s: State, d: string, fate: Fate, k: nat, j: nat) returns (x: nat)
    requires HasDeployment(s, d) && j < |MadeBy(s, d, fate, k)|
    ensures MadeBy(s, d, fate, k)[j].name == fate.names(x)
    decreases k
  {
    hide GrowEach;
    if j < |MadeBy(s, d, fate, k - 1)| {
      x := MadeNamed(s, d, fate, k - 1, j);
    } else {
      x := k - 1;
    }
  }

  lemma GrowKeepsPods(s: State, d: string, name: string, outcome: Creation, t: Template)
    requires HasDeployment(s, d)
    ensures forall n | n in s.ix.pods :: n in Grow(s, d, name, outcome).ix.pods
    ensures forall p | p in MadeOne(s, t, name, outcome) ::
      p.name == name && name !in s.ix.pods && name in Grow(s, d, name, outcome).ix.pods
  {
  }

  /** A name stays unused as long as it is not drawn. */
  lemma {:induction false} GrowEachUnused(s: State, d: string, fate: Fate, k: nat, name: string)
    requires HasDeployment(s, d) && Unused(s, name) && forall i | 0 <= i < k :: fate.names(i) != name
    ensures Unused(GrowEach(s, d, fate, k), name)
    decreases k
  {
    hide Unused, GrowEach, Grow;
    if k == 0 {
      GrowNone(s, d, fate);
    } else {
      GrowEachNext(s, d, fate, k);
      GrowEachUnused(s, d, fate, k - 1, name);
      GrowUnused(GrowEach(s, d, fate, k - 1), d, fate.names(k - 1), fate.outcomes(k - 1), name);
    }
  }

  lemma GrowUnused(s: State, d: string, other: string, outcome: Creation, name: string)
    requires HasDeployment(s, d) && Unused(s, name) && other != name
    ensures Unused(Grow(s, d, other, outcome), name)
  {
  }

  // ---- when everything succeeds ----

  /** Deletions and creations succeed and all names drawn are different. */
  ghost predicate Smooth(fate: Fate) {
    && (forall i: nat :: fate.deletes(i) && fate.outcomes(i).Created?)
    && (forall i: nat, j: nat | i != j :: fate.names(i) != fate.names(j))
  }

  lemma {:induction false} AllMade(s: State, d: string, fate: Fate, k: nat)
    requires HasDeployment(s, d) && Smooth(fate) && forall i: nat :: Unused(s, fate.names(i))
    ensures |MadeBy(s, d, fate, k)| == k
    decreases k
  {
    hide Unused, GrowEach;
    if k > 0 {
      AllMade(s, d, fate, k - 1);
      GrowEachUnused(s, d, fate, k - 1, fate.names(k - 1));
      UnusedAbsent(GrowEach(s, d, fate, k - 1), fate.names(k - 1));
    }
  }

  lemma UnusedAbsent(s: State, name: string)
    requires Unused(s, name)
    ensures name !in s.ix.pods
  {
  }

  lemma SmoothIsFortunate(s: State, d: string, fate: Fate)
    requires Sound(s) && HasDeployment(s, d) && Smooth(fate) && forall i: nat :: Unused(s, fate.names(i))
    ensures T.Fortunate(ViewOf(s, d), LuckOf(s, d, fate))
  {
    hide Sound, RollingCreation, RollingDeletion, R.RollingCreation, R.RollingDeletion, MadeBy, Unused, FewerPods, Objects, R.Fewer;
    var dep := s.ix.deployments[d];
    if dep.status.updated < dep.status.ready {
      var w := AfterFewer(s, d, fate);
      AfterFewerView(s, d, fate);
      if w.Some? {
        NumbersAgree(w.value, d);
        if RollingCreation(w.value.ix, d) > 0 {
          AllMade(w.value, d, fate, RollingCreation(w.value.ix, d));
        }
      }
    } else if dep.spec.replicas > dep.status.replicas {
      AllMade(s, d, fate, dep.spec.replicas - dep.status.replicas);
    }
  }

  /** A tick of the server in which everything succeeds, when all pods of the deployment are ready and all its
      deletions subtracted: what remains to be done for the rolling update shrinks exactly when there is room
      to move, and when nothing remains the deployment stays as it is. */
  lemma ServerTickProgress(s: State, d: string, fate: Fate)
    requires Healthy(s) && HasDeployment(s, d) && InFlight(s, d) == {} && T.Settled(ViewOf(s, d))
    requires Smooth(fate) && forall i: nat :: Unused(s, fate.names(i))
    ensures Monitor(s, d, fate).Some?
    ensures var r := Monitor(s, d, fate).value;
      var v, w := ViewOf(s, d), ViewOf(r, d);
      && T.InRollout(w) && w.spec == v.spec && InFlight(r, d) == {} && 0 <= T.Remaining(w)
      && (T.Remaining(v) > 0 ==> (T.Remaining(w) < T.Remaining(v) <==> T.CanMove(v)))
      && (T.Remaining(v) == 0 ==> w == v)
  {
    hide Sound, T.InRollout, T.AllReady, ViewOf, R.Tick, R.Possible, InFlight, P.FreshLuck, Unused, Kept, T.Remaining, T.CanMove,
      T.Fortunate, Smooth;
    MonitorView(s, d, fate);
    MonitorDebt(s, d, fate);
    LuckIsFresh(s, d, fate);
    SmoothIsFortunate(s, d, fate);
    T.TickProgress(ViewOf(s, d), LuckOf(s, d, fate));
    NoDebt(s, Monitor(s, d, fate).value, d);
  }
}
