/**
 One deployment inside the API server: a tick of the server is a tick of Rollout.dfy on what the deployment sees,
 so the guarantees of rolling updates hold in whole runs of the server.
 */
module ClusterRollout {
  import opened Sequences
  import opened Core
  import opened Cluster
  import opened ClusterInvariants
  import opened ClusterSteps
  import opened ClusterHandlers
  import opened ClusterEvents
  import opened ClusterDeletion
  import opened ClusterRuns
  import R = Rollout
  import P = RolloutProofs
  import T = RolloutTheorems

  /** The pods behind the names. Rolling updates do not look at addresses. */
  function Objects(pods: map<string, Pod>, names: seq<string>): (r: seq<Pod>)
    ensures |r| == |names|
  {
    if names == [] then [] else [Object(pods, names[0])] + Objects(pods, names[1..])
  }

  function Object(pods: map<string, Pod>, name: string): Pod {
    if name in pods then pods[name].(ip := "") else Pod(name, map[], "", Pending, "")
  }

  function ViewOf(s: State, d: string): R.View
    requires HasDeployment(s, d)
  {
    var dep := s.ix.deployments[d];
    R.View(dep.spec, dep.status, Objects(s.ix.pods, s.ix.deploymentToPods[d]))
  }

  lemma {:induction false} ObjectAt(pods: map<string, Pod>, names: seq<string>, i: nat)
    requires i < |names|
    ensures Objects(pods, names)[i] == Object(pods, names[i])
  {
    if i > 0 {
      ObjectAt(pods, names[1..], i - 1);
    }
  }

  lemma {:induction false} ObjectsAppend(pods: map<string, Pod>, a: seq<string>, b: seq<string>)
    ensures Objects(pods, a + b) == Objects(pods, a) + Objects(pods, b)
  {
    if a == [] {
      assert a + b == b;
    } else {
      assert (a + b)[1..] == a[1..] + b;
      ObjectsAppend(pods, a[1..], b);
    }
  }

  lemma {:induction false} ObjectsSame(a: map<string, Pod>, b: map<string, Pod>, names: seq<string>)
    requires forall n | n in names :: Object(a, n) == Object(b, n)
    ensures Objects(a, names) == Objects(b, names)
  {
    hide Object;
    if names != [] {
      assert names[0] in names && forall n | n in names[1..] :: n in names;
      ObjectsSame(a, b, names[1..]);
    }
  }

  ghost predicate NamesFit(pods: map<string, Pod>) {
    forall n | n in pods :: pods[n].name == n
  }

  lemma ObjectName(pods: map<string, Pod>, name: string)
    requires NamesFit(pods)
    ensures Object(pods, name).name == name
  {
  }

  lemma {:induction false} ObjectsDistinct(pods: map<string, Pod>, names: seq<string>)
    requires NamesFit(pods) && NoDup(names)
    ensures P.DistinctPods(Objects(pods, names))
  {
    hide Objects;
    var objects := Objects(pods, names);
    forall i, j | 0 <= i < j < |names| ensures objects[i].name != objects[j].name {
      ObjectAt(pods, names, i);
      ObjectAt(pods, names, j);
    }
  }

  lemma {:induction false} ObjectsRemove(pods: map<string, Pod>, names: seq<string>, name: string)
    requires NamesFit(pods)
    ensures R.RemoveNamed(Objects(pods, names), name) == Objects(pods, RemoveFirst(names, name))
  {
    hide Object;
    if names != [] {
      ObjectName(pods, names[0]);
      assert Objects(pods, names)[1..] == Objects(pods, names[1..]);
      ObjectsRemove(pods, names[1..], name);
      if names[0] != name {
        assert ([names[0]] + RemoveFirst(names[1..], name))[1..] == RemoveFirst(names[1..], name);
      }
    }
  }

  lemma ObjectOutdated(ix: Index, t: Template, name: string)
    requires name in ix.pods
    ensures IsOutdated(ix, t, name) <==> !IsPodUpdated(t, Object(ix.pods, name))
  {
  }

  lemma OneObject(pods: map<string, Pod>, name: string)
    ensures Objects(pods, [name]) == [Object(pods, name)]
  {
  }

  lemma {:induction false} OutdatedObjects(ix: Index, t: Template, names: seq<string>)
    requires forall n | n in names :: n in ix.pods
    ensures R.Outdated(t, Objects(ix.pods, names)) == Objects(ix.pods, OutdatedNames(ix, t, names))
    ensures |R.Outdated(t, Objects(ix.pods, names))| == |OutdatedNames(ix, t, names)|
  {
    hide Object, IsOutdated, IsPodUpdated;
    if names != [] {
      assert names[0] in names && forall n | n in names[1..] :: n in names;
      assert Objects(ix.pods, names)[1..] == Objects(ix.pods, names[1..]);
      OutdatedObjects(ix, t, names[1..]);
      ObjectOutdated(ix, t, names[0]);
      OneObject(ix.pods, names[0]);
      var first := if IsOutdated(ix, t, names[0]) then [names[0]] else [];
      ObjectsAppend(ix.pods, first, OutdatedNames(ix, t, names[1..]));
    }
  }

  // ---- deletions ----

  lemma DiscardView(s: State, d: string, name: string, ok: bool)
    requires Sound(s) && HasDeployment(s, d) && Owns(s.ix, d, name)
    ensures HasDeployment(Discard(s, d, name, ok), d)
    ensures ViewOf(Discard(s, d, name, ok), d) == R.DeleteOne(ViewOf(s, d), Object(s.ix.pods, name), ok)
    ensures Discard(s, d, name, ok).ix.deployments[d].spec == s.ix.deployments[d].spec
  {
    hide Served, Posted, Stored, LegacyOf, Objects, RemoveFirst, R.RemoveNamed;
    var list := s.ix.deploymentToPods[d];
    ObjectsRemove(s.ix.pods, list, name);
    RemoveFirstMembers(list, name);
    ObjectsSame(s.ix.pods, s.ix.pods - {name}, RemoveFirst(list, name));
  }

  lemma DiscardOther(s: State, d: string, name: string, ok: bool, n: string)
    requires d in s.ix.deployments && n != name
    ensures Object(Discard(s, d, name, ok).ix.pods, n) == Object(s.ix.pods, n)
  {
    hide LegacyOf, RemoveEverywhere, AfterRemoval;
  }

  /** Different pods of one deployment, to be deleted one after the other. */
  ghost predicate Targeted(s: State, d: string, targets: seq<string>) {
    NoDup(targets) && forall n | n in targets :: Owns(s.ix, d, n)
  }

  lemma DiscardEachLive(s: State, d: string, targets: seq<string>, k: nat, ok: nat -> bool)
    requires Sound(s) && HasDeployment(s, d) && k < |targets| && Targeted(s, d, targets)
    ensures var r := DiscardEach(s, d, targets, k, ok);
      Sound(r) && HasDeployment(r, d) && Owns(r.ix, d, targets[k])
  {
    hide Sound, Kept, Unused, Owns, DiscardEach;
    DiscardEachSound(s, d, targets, k, ok);
  }

  lemma TargetsDiffer(s: State, d: string, targets: seq<string>, i: nat, j: nat)
    requires Targeted(s, d, targets) && i < j < |targets|
    ensures targets[i] != targets[j]
  {
  }

  lemma DiscardNone(s: State, d: string, targets: seq<string>, ok: nat -> bool)
    requires HasDeployment(s, d)
    ensures DiscardEach(s, d, targets, 0, ok) == s
  {
  }

  lemma DiscardEachNext(s: State, d: string, targets: seq<string>, k: nat, ok: nat -> bool)
    requires HasDeployment(s, d) && 0 < k <= |targets|
    ensures DiscardEach(s, d, targets, k, ok) ==
      Discard(DiscardEach(s, d, targets, k - 1, ok), d, targets[k - 1], ok(k - 1))
  {
  }

  /** The pods still to be deleted are untouched by the deletions before them. */
  lemma {:induction false} DiscardEachObjects(s: State, d: string, targets: seq<string>, k: nat, ok: nat -> bool, i: nat)
    requires Sound(s) && HasDeployment(s, d) && k <= i < |targets| && Targeted(s, d, targets)
    ensures Object(DiscardEach(s, d, targets, k, ok).ix.pods, targets[i]) == Object(s.ix.pods, targets[i])
    decreases k
  {
    hide Sound, Discard, DiscardEach, Object, Owns, ViewOf, Targeted;
    if k == 0 {
      DiscardNone(s, d, targets, ok);
    } else {
      DiscardEachNext(s, d, targets, k, ok);
      DiscardEachObjects(s, d, targets, k - 1, ok, i);
      DiscardEachLive(s, d, targets, k - 1, ok);
      TargetsDiffer(s, d, targets, k - 1, i);
      DiscardOther(DiscardEach(s, d, targets, k - 1, ok), d, targets[k - 1], ok(k - 1), targets[i]);
    }
  }

  lemma {:induction false} DiscardEachView(s: State, d: string, targets: seq<string>, k: nat, ok: nat -> bool)
    requires Sound(s) && HasDeployment(s, d) && k <= |targets| && Targeted(s, d, targets)
    ensures ViewOf(DiscardEach(s, d, targets, k, ok), d) == R.DeleteEach(ViewOf(s, d), Objects(s.ix.pods, targets), k, ok)
    decreases k
  {
    hide Sound, Discard, DiscardEach, Objects, Object, R.DeleteOne, Owns, ViewOf, Targeted;
    if k == 0 {
      DiscardNone(s, d, targets, ok);
    } else {
      DiscardEachNext(s, d, targets, k, ok);
      DiscardEachView(s, d, targets, k - 1, ok);
      DiscardEachLive(s, d, targets, k - 1, ok);
      DiscardEachObjects(s, d, targets, k - 1, ok, k - 1);
      DiscardView(DiscardEach(s, d, targets, k - 1, ok), d, targets[k - 1], ok(k - 1));
      ObjectAt(s.ix.pods, targets, k - 1);
    }
  }

  lemma {:induction false} DiscardBackView(s: State, d: string, count: nat, ok: nat -> bool, offset: nat)
    requires Sound(s) && HasDeployment(s, d)
    ensures var r := DiscardBack(s, d, count, ok, offset);
      var v := R.DeleteBack(ViewOf(s, d), count, ok, offset);
      (r.Some? <==> v.Some?) && (r.Some? ==> v.value == ViewOf(r.value, d))
  {
    hide Sound, Discard, Objects, Object, R.DeleteOne, Owns;
    if count > 0 {
      DiscardBackView(s, d, count - 1, ok, offset);
      DiscardBackSound(s, d, count - 1, ok, offset);
      var w := DiscardBack(s, d, count - 1, ok, offset);
      if w.Some? && w.value.ix.deploymentToPods[d] != [] {
        var list := w.value.ix.deploymentToPods[d];
        OwnsLast(w.value.ix, d);
        ObjectAt(w.value.ix.pods, list, |list| - 1);
        DiscardView(w.value, d, list[|list| - 1], ok(offset + count - 1));
      }
    }
  }

  lemma PersistView(s: State, d: string)
    requires HasDeployment(s, d)
    ensures HasDeployment(Persist(s, d), d) && ViewOf(Persist(s, d), d) == ViewOf(s, d)
  {
  }

  lemma ListLive(s: State, d: string)
    requires Sound(s) && d in s.ix.deploymentToPods
    ensures forall n | n in s.ix.deploymentToPods[d] :: n in s.ix.pods
    ensures NamesFit(s.ix.pods)
  {
    assert forall n | n in s.ix.deploymentToPods[d] :: Owns(s.ix, d, n);
  }

  /** fewerPods on the server is fewerPods on what the deployment sees. */
  lemma FewerView(s: State, d: string, n: nat, ok: nat -> bool)
    requires Sound(s) && HasDeployment(s, d)
    ensures var r := FewerPods(s, d, n, ok);
      var v := R.Fewer(ViewOf(s, d), n, ok);
      (r.Some? <==> v.Some?) && (r.Some? ==> v.value == ViewOf(r.value, d))
  {
    hide Sound, DiscardEach, DiscardBack, Objects, R.DeleteEach, R.DeleteBack, R.Outdated, OutdatedNames, Owns, NoDup, Persist;
    var t := s.ix.deployments[d].spec.template;
    var outdated := OutdatedNames(s.ix, t, s.ix.deploymentToPods[d]);
    ListOwned(s, d);
    ListLive(s, d);
    OutdatedFrom(s.ix, t, s.ix.deploymentToPods[d]);
    OutdatedObjects(s.ix, t, s.ix.deploymentToPods[d]);
    var first := Min(n, |outdated|);
    assert Targeted(s, d, outdated);
    DiscardEachView(s, d, outdated, first, ok);
    DiscardEachSound(s, d, outdated, first, ok);
    var w := DiscardEach(s, d, outdated, first, ok);
    DiscardBackView(w, d, Max(0, n - |outdated|), ok, first);
    var x := DiscardBack(w, d, Max(0, n - |outdated|), ok, first);
    if x.Some? {
      PersistView(x.value, d);
    }
  }

  // ---- new pods ----

  /** The pod that one attempt makes, if it makes one. */
  function MadeOne(s: State, t: Template, name: string, outcome: Creation): (made: seq<Pod>)
    ensures |made| <= 1 && forall p | p in made :: R.IsNew(t, p)
  {
    if name in s.ix.pods || !outcome.Created? then [] else [Pod(name, t.labels, t.spec, Pending, "")]
  }

  /** The pods that the first k attempts make. */
  ghost function MadeBy(s: State, d: string, fate: Fate, k: nat): (made: seq<Pod>)
    requires HasDeployment(s, d)
    ensures |made| <= k && forall p | p in made :: R.IsNew(s.ix.deployments[d].spec.template, p)
  {
    if k == 0 then []
    else
      MadeBy(s, d, fate, k - 1) +
      MadeOne(GrowEach(s, d, fate, k - 1), s.ix.deployments[d].spec.template, fate.names(k - 1), fate.outcomes(k - 1))
  }

  /** Creating a pod elsewhere changes nothing for the pods in the list. */
  lemma CreateView(s: State, d: string, pod: Pod, outcome: Creation)
    requires Sound(s) && HasDeployment(s, d)
    ensures var r := CreatePod(s, pod, outcome);
      && r.ix.deployments == s.ix.deployments && r.ix.deploymentToPods == s.ix.deploymentToPods
      && Objects(r.ix.pods, s.ix.deploymentToPods[d]) == Objects(s.ix.pods, s.ix.deploymentToPods[d])
  {
    hide Sound, Objects;
    ListLive(s, d);
    ObjectsSame(s.ix.pods, CreatePod(s, pod, outcome).ix.pods, s.ix.deploymentToPods[d]);
  }

  lemma GrowView(s: State, d: string, name: string, outcome: Creation)
    requires Sound(s) && HasDeployment(s, d)
    ensures HasDeployment(Grow(s, d, name, outcome), d)
    ensures ViewOf(Grow(s, d, name, outcome), d) ==
      R.More(ViewOf(s, d), MadeOne(s, s.ix.deployments[d].spec.template, name, outcome))
    ensures Grow(s, d, name, outcome).ix.deployments[d].spec == s.ix.deployments[d].spec
  {
    hide Sound, Objects, Wrap;
    var list, t := s.ix.deploymentToPods[d], s.ix.deployments[d].spec.template;
    var pod := Pod(name, t.labels, t.spec, Pending, "");
    CreateView(s, d, pod, outcome);
    if name in s.ix.pods || !outcome.Created? {
      MoreNone(s, d);
    } else {
      var pods := s.ix.pods[name := pod];
      ObjectsAppend(pods, list, [name]);
      OneObject(pods, name);
    }
  }

  lemma StatusUnchanged(st: Status)
    ensures Wrap(st.replicas + 0) == st.replicas
  {
  }

  lemma MoreTwice(v: R.View, a: seq<Pod>, b: seq<Pod>)
    ensures R.More(R.More(v, a), b) == R.More(v, a + b)
  {
  }

  lemma GrowStepView(v: R.View, w: State, d: string, name: string, outcome: Creation, made: seq<Pod>)
    requires Sound(w) && HasDeployment(w, d) && ViewOf(w, d) == R.More(v, made)
    ensures var r := Grow(w, d, name, outcome);
      && ViewOf(r, d) == R.More(v, made + MadeOne(w, w.ix.deployments[d].spec.template, name, outcome))
      && r.ix.deployments[d].spec == w.ix.deployments[d].spec
  {
    hide Sound, Grow, ViewOf, R.More, MadeOne;
    GrowView(w, d, name, outcome);
    MoreTwice(v, made, MadeOne(w, w.ix.deployments[d].spec.template, name, outcome));
  }

  lemma GrowEachLive(s: State, d: string, fate: Fate, k: nat)
    requires Sound(s) && HasDeployment(s, d) && forall i: nat :: Unused(s, fate.names(i))
    ensures Sound(GrowEach(s, d, fate, k)) && HasDeployment(GrowEach(s, d, fate, k), d)
  {
    hide Sound, Unused, Kept;
    GrowEachSound(s, d, fate, k, k);
  }

  lemma {:induction false} GrowEachView(s: State, d: string, fate: Fate, k: nat)
    requires Sound(s) && HasDeployment(s, d) && forall i: nat :: Unused(s, fate.names(i))
    ensures var r := GrowEach(s, d, fate, k);
      ViewOf(r, d) == R.More(ViewOf(s, d), MadeBy(s, d, fate, k)) && r.ix.deployments[d].spec == s.ix.deployments[d].spec
  {
    hide Sound, Grow, ViewOf, Unused, R.More, MadeOne;
    if k == 0 {
      MoreNone(s, d);
    } else {
      GrowEachView(s, d, fate, k - 1);
      GrowEachLive(s, d, fate, k - 1);
      GrowStepView(ViewOf(s, d), GrowEach(s, d, fate, k - 1), d, fate.names(k - 1), fate.outcomes(k - 1),
        MadeBy(s, d, fate, k - 1));
    }
  }

  lemma MoreNone(s: State, d: string)
    requires HasDeployment(s, d)
    ensures R.More(ViewOf(s, d), []) == ViewOf(s, d)
  {
    StatusUnchanged(s.ix.deployments[d].status);
  }

  lemma MoreView(s: State, d: string, n: nat, fate: Fate)
    requires Sound(s) && HasDeployment(s, d) && forall i: nat :: Unused(s, fate.names(i))
    ensures ViewOf(MorePods(s, d, n, fate), d) == R.More(ViewOf(s, d), MadeBy(s, d, fate, n))
  {
    hide Sound, GrowEach, ViewOf, Unused, R.More;
    GrowEachView(s, d, fate, n);
    PersistView(GrowEach(s, d, fate, n), d);
  }

  // ---- a tick ----

  lemma {:induction false} ObjectsSplit(t: Template, pods: seq<Pod>)
    ensures |R.Updated(t, pods)| == |pods| - |R.Outdated(t, pods)|
  {
  }

  lemma NumbersAgree(s: State, d: string)
    requires Sound(s) && HasDeployment(s, d)
    ensures RollingDeletion(s.ix, d) == R.RollingDeletion(ViewOf(s, d))
    ensures RollingCreation(s.ix, d) == R.RollingCreation(ViewOf(s, d))
  {
    hide Sound, Objects, OutdatedNames, R.Outdated, R.Updated;
    ListLive(s, d);
    var t := s.ix.deployments[d].spec.template;
    OutdatedObjects(s.ix, t, s.ix.deploymentToPods[d]);
    ObjectsSplit(t, ViewOf(s, d).pods);
  }

  /** Between the two halves of a tick during a rolling update. */
  ghost function AfterFewer(s: State, d: string, fate: Fate): (r: Option<State>)
    requires HasDeployment(s, d)
    ensures r.Some? ==> HasDeployment(r.value, d)
  {
    if RollingDeletion(s.ix, d) > 0 then FewerPods(s, d, RollingDeletion(s.ix, d), fate.deletes) else Some(s)
  }

  /** The tick of Rollout.dfy that this tick of the server is. */
  ghost function LuckOf(s: State, d: string, fate: Fate): R.Luck
    requires HasDeployment(s, d)
  {
    var dep := s.ix.deployments[d];
    R.Luck(fate.deletes,
      if dep.status.updated < dep.status.ready then
        match AfterFewer(s, d, fate)
        case None => []
        case Some(w) => if RollingCreation(w.ix, d) > 0 then MadeBy(w, d, fate, RollingCreation(w.ix, d)) else []
      else if dep.spec.replicas > dep.status.replicas then MadeBy(s, d, fate, dep.spec.replicas - dep.status.replicas)
      else [])
  }

  lemma NoDeletion(s: State, d: string, ok: nat -> bool)
    requires HasDeployment(s, d) && R.RollingDeletion(ViewOf(s, d)) <= 0
    ensures R.RollingDeletion(ViewOf(s, d)) == 0 && R.Fewer(ViewOf(s, d), 0, ok) == Some(ViewOf(s, d))
  {
  }

  lemma AfterFewerView(s: State, d: string, fate: Fate)
    requires Sound(s) && HasDeployment(s, d) && s.ix.deployments[d].status.updated < s.ix.deployments[d].status.ready
    ensures var r := AfterFewer(s, d, fate);
      var v := R.AfterDeletion(ViewOf(s, d), LuckOf(s, d, fate));
      && (r.Some? <==> v.Some?)
      && (r.Some? ==> Sound(r.value) && ViewOf(r.value, d) == v.value && forall n | Unused(s, n) :: Unused(r.value, n))
  {
    hide Sound, FewerPods, R.Fewer, RollingDeletion, R.RollingDeletion, MadeBy, Unused, Objects, RollingCreation;
    NumbersAgree(s, d);
    if RollingDeletion(s.ix, d) > 0 {
      FewerView(s, d, RollingDeletion(s.ix, d), fate.deletes);
      FewerSound(s, d, RollingDeletion(s.ix, d), fate.deletes);
    } else {
      NoDeletion(s, d, fate.deletes);
    }
  }

  /** A tick of the server for a deployment is a tick on what the deployment sees; both panic together. */
  lemma MonitorView(s: State, d: string, fate: Fate)
    requires Sound(s) && HasDeployment(s, d) && forall i: nat :: Unused(s, fate.names(i))
    ensures var r := Monitor(s, d, fate);
      var v := R.Tick(ViewOf(s, d), LuckOf(s, d, fate));
      && (r.Some? <==> v.Some?)
      && (r.Some? ==> v.value == ViewOf(r.value, d))
      && R.Possible(ViewOf(s, d), LuckOf(s, d, fate))
  {
    hide Sound, FewerPods, MorePods, R.Fewer, R.More, RollingDeletion, R.RollingDeletion, MadeBy, Unused, Objects,
      RollingCreation, R.RollingCreation;
    var dep := s.ix.deployments[d];
    if dep.status.updated < dep.status.ready {
      AfterFewerView(s, d, fate);
      var w := AfterFewer(s, d, fate);
      if w.Some? {
        NumbersAgree(w.value, d);
        if RollingCreation(w.value.ix, d) > 0 {
          MoreView(w.value, d, RollingCreation(w.value.ix, d), fate);
        }
      }
    } else {
      var diff := dep.spec.replicas - dep.status.replicas;
      if diff > 0 {
        MoreView(s, d, diff, fate);
      } else if diff < 0 {
        FewerView(s, d, -diff, fate.deletes);
      }
    }
  }
}
