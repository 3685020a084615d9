/**
 What one tick does to the pods and the counters of a deployment.
 */
module RolloutProofs {
  import opened Sequences
  import opened Core
  import opened Rollout

  /** What the counters are about: pods, counted pods, counted up-to-date pods, up-to-date pods. */
  datatype Tally = Tally(pods: int, ready: int, updatedReady: int, updated: int)

  function Plus(a: Tally, b: Tally): Tally {
    Tally(a.pods + b.pods, a.ready + b.ready, a.updatedReady + b.updatedReady, a.updated + b.updated)
  }

  function Less(a: Tally, b: Tally): Tally {
    Tally(a.pods - b.pods, a.ready - b.ready, a.updatedReady - b.updatedReady, a.updated - b.updated)
  }

  function Weight(t: Template, p: Pod): Tally {
    WeightOf(IsPodUpdated(t, p), p.phase.Counted())
  }

  function WeightOf(updated: bool, counted: bool): Tally {
    Tally(1, if counted then 1 else 0, if counted && updated then 1 else 0, if updated then 1 else 0)
  }

  function Sum(t: Template, pods: seq<Pod>): Tally {
    if pods == [] then Tally(0, 0, 0, 0) else Plus(Weight(t, pods[0]), Sum(t, pods[1..]))
  }

  lemma {:induction false} SumBounds(t: Template, pods: seq<Pod>)
    ensures var s := Sum(t, pods);
      && s.pods == |pods| && 0 <= s.updatedReady <= s.ready <= s.pods && s.updatedReady <= s.updated <= s.pods
      && s.updated == |Updated(t, pods)| && s.pods - s.updated == |Outdated(t, pods)|
  {
    hide IsPodUpdated;
    if pods != [] {
      SumBounds(t, pods[1..]);
    }
  }

  ghost predicate DistinctPods(pods: seq<Pod>) {
    forall i, j | 0 <= i < j < |pods| :: pods[i].name != pods[j].name
  }

  /** The counters say what the list says. */
  ghost predicate Accurate(v: View) {
    v.status == StatusOf(Sum(v.spec.template, v.pods))
  }

  /** Counters hold the low 32 bits of the numbers. */
  function StatusOf(s: Tally): Status {
    Status(Wrap(s.pods), Wrap(s.updatedReady), Wrap(s.ready))
  }

  predicate Small(v: View) {
    |v.pods| < 0x1_0000_0000
  }

  ghost predicate Sound(v: View) {
    DistinctPods(v.pods) && Accurate(v)
  }

  lemma {:induction false} SumAppend(t: Template, a: seq<Pod>, b: seq<Pod>)
    ensures Sum(t, a + b) == Plus(Sum(t, a), Sum(t, b))
  {
    hide Weight;
    if a == [] {
      assert a + b == b;
    } else {
      assert (a + b)[1..] == a[1..] + b;
      SumAppend(t, a[1..], b);
    }
  }

  lemma {:induction false} SumRemove(t: Template, pods: seq<Pod>, p: Pod)
    requires DistinctPods(pods) && p in pods
    ensures Sum(t, RemoveNamed(pods, p.name)) == Less(Sum(t, pods), Weight(t, p))
  {
    hide Weight;
    if pods[0].name == p.name {
      assert pods[0] == p;
    } else {
      assert DistinctPods(pods[1..]) && p in pods[1..];
      SumRemove(t, pods[1..], p);
      var rest := RemoveNamed(pods[1..], p.name);
      assert ([pods[0]] + rest)[1..] == rest;
    }
  }

  lemma {:induction false} RemoveDistinct(pods: seq<Pod>, name: string)
    requires DistinctPods(pods)
    ensures DistinctPods(RemoveNamed(pods, name))
    ensures forall q | q in pods && q.name != name :: q in RemoveNamed(pods, name)
    ensures forall q | q in RemoveNamed(pods, name) :: q.name != name
  {
    if pods != [] {
      assert DistinctPods(pods[1..]);
      RemoveDistinct(pods[1..], name);
      assert forall q | q in pods[1..] :: q.name != pods[0].name;
    }
  }

  lemma RemovalStatus(t: Template, s: Tally, p: Pod)
    ensures AfterRemoval(t, StatusOf(s), p) == StatusOf(Less(s, Weight(t, p)))
  {
    hide Wrap, Inc, Dec, IsPodUpdated;
    WrapStep(s.pods);
    WrapStep(s.ready);
    WrapStep(s.updatedReady);
  }

  /** One deletion, successful or not: the counters stay right and nothing else in the list changes. */
  lemma DeleteOneSound(v: View, p: Pod, ok: bool)
    requires Sound(v) && p in v.pods
    ensures var w := DeleteOne(v, p, ok);
      && Sound(w) && w.spec == v.spec
      && (ok ==> Sum(v.spec.template, w.pods) == Less(Sum(v.spec.template, v.pods), Weight(v.spec.template, p)))
      && (forall q | q in v.pods && q.name != p.name :: q in w.pods)
      && (forall q | q in w.pods :: q in v.pods)
  {
    hide Sum, Weight, StatusOf, AfterRemoval, RemoveNamed;
    SumRemove(v.spec.template, v.pods, p);
    RemoveDistinct(v.pods, p.name);
    RemovalStatus(v.spec.template, Sum(v.spec.template, v.pods), p);
  }

  // ---- deleting outdated pods ----

  /** Attempts on outdated pods of the list: every up-to-date pod stays, at most k pods and k ready pods go. */
  lemma {:induction false} DeleteEachSound(v: View, targets: seq<Pod>, k: nat, ok: nat -> bool)
    requires Sound(v) && k <= |targets| && DistinctPods(targets)
    requires forall p | p in targets :: p in v.pods && !IsPodUpdated(v.spec.template, p)
    ensures var w := DeleteEach(v, targets, k, ok);
      var before, after := Sum(v.spec.template, v.pods), Sum(v.spec.template, w.pods);
      && Sound(w) && w.spec == v.spec
      && after.updated == before.updated && after.updatedReady == before.updatedReady
      && before.pods - k <= after.pods <= before.pods
      && before.ready - k <= after.ready <= before.ready
      && ((forall i | 0 <= i < k :: ok(i)) ==> after.pods == before.pods - k)
      && ((forall p | p in targets :: !p.phase.Counted()) ==> after.ready == before.ready)
      && (forall i | k <= i < |targets| :: targets[i] in w.pods)
      && (forall q | q in w.pods :: q in v.pods)
  {
    hide Sound, DeleteOne, Sum;
    if k > 0 {
      DeleteEachSound(v, targets, k - 1, ok);
      var u := DeleteEach(v, targets, k - 1, ok);
      assert targets[k - 1] in targets;
      DeleteOneSound(u, targets[k - 1], ok(k - 1));
      if !ok(k - 1) {
        FailedChangesNothing(u, targets[k - 1]);
      }
    }
  }

  lemma FailedChangesNothing(v: View, p: Pod)
    ensures DeleteOne(v, p, false) == v
  {
  }

  lemma {:induction false} OutdatedDistinct(t: Template, pods: seq<Pod>)
    requires DistinctPods(pods)
    ensures DistinctPods(Outdated(t, pods))
  {
    if pods != [] {
      assert DistinctPods(pods[1..]);
      OutdatedDistinct(t, pods[1..]);
      assert forall q | q in pods[1..] :: q.name != pods[0].name;
    }
  }

  // ---- deleting from the back ----

  lemma {:induction false} DeleteBackSound(v: View, count: nat, ok: nat -> bool, offset: nat)
    requires Sound(v) && count <= |v.pods|
    ensures var w := DeleteBack(v, count, ok, offset);
      w.Some? && Sound(w.value) && w.value.spec == v.spec && |v.pods| - count <= |w.value.pods| <= |v.pods|
  {
    hide Sound, DeleteOne;
    if count > 0 {
      DeleteBackSound(v, count - 1, ok, offset);
      var u := DeleteBack(v, count - 1, ok, offset).value;
      var last := u.pods[|u.pods| - 1];
      DeleteOneSound(u, last, ok(offset + count - 1));
      DeleteOneSize(u, last, ok(offset + count - 1));
    }
  }

  lemma DeleteOneSize(v: View, p: Pod, ok: bool)
    requires Sound(v) && p in v.pods
    ensures |DeleteOne(v, p, ok).pods| == |v.pods| - if ok then 1 else 0
  {
    hide StatusOf, AfterRemoval, RemoveNamed;
    SumRemove(v.spec.template, v.pods, p);
    SumBounds(v.spec.template, v.pods);
    SumBounds(v.spec.template, RemoveNamed(v.pods, p.name));
  }

  /** fewerPods never meets an empty list when it is asked for no more pods than there are, whatever fails,
      and it keeps the counters right. */
  lemma FewerSound(v: View, n: nat, ok: nat -> bool)
    requires Sound(v) && n <= |v.pods|
    ensures Fewer(v, n, ok).Some? && Sound(Fewer(v, n, ok).value) && Fewer(v, n, ok).value.spec == v.spec
  {
    hide Sound, DeleteEach, DeleteBack, Outdated;
    var outdated := Outdated(v.spec.template, v.pods);
    SoundDistinct(v);
    OutdatedDistinct(v.spec.template, v.pods);
    var first := Min(n, |outdated|);
    DeleteEachSound(v, outdated, first, ok);
    SumBounds(v.spec.template, v.pods);
    SumBounds(v.spec.template, DeleteEach(v, outdated, first, ok).pods);
    DeleteBackSound(DeleteEach(v, outdated, first, ok), Max(0, n - |outdated|), ok, first);
  }

  lemma SoundDistinct(v: View)
    requires Sound(v)
    ensures DistinctPods(v.pods)
  {
  }

  // ---- new pods ----

  ghost predicate FreshPods(pods: seq<Pod>, made: seq<Pod>) {
    DistinctPods(pods + made)
  }

  lemma {:induction false} SumNew(t: Template, made: seq<Pod>)
    requires forall p | p in made :: IsNew(t, p)
    ensures Sum(t, made) == Tally(|made|, 0, 0, |made|)
  {
    if made != [] {
      assert made[0] in made;
      SumNew(t, made[1..]);
    }
  }

  lemma WrapPlus(x: int, y: int)
    ensures Wrap(Wrap(x) + y) == Wrap(x + y)
  {
  }

  lemma MoreSound(v: View, made: seq<Pod>)
    requires Sound(v) && FreshPods(v.pods, made)
    requires forall p | p in made :: IsNew(v.spec.template, p)
    ensures var w := More(v, made);
      && Sound(w) && w.spec == v.spec
      && Sum(v.spec.template, w.pods) == Plus(Sum(v.spec.template, v.pods), Tally(|made|, 0, 0, |made|))
  {
    hide Sum, Wrap;
    SumAppend(v.spec.template, v.pods, made);
    SumNew(v.spec.template, made);
    WrapPlus(Sum(v.spec.template, v.pods).pods, |made|);
  }

  // ---- one tick ----

  /** No overflow of the counters is in sight. */
  predicate Fits(spec: DeploymentSpec) {
    spec.replicas + spec.rolling.maxSurge < 0x1_0000_0000
  }

  function MinReady(spec: DeploymentSpec): nat {
    Max(0, spec.replicas - spec.rolling.maxUnavailable)
  }

  /** The pods made in this tick do not reuse a name of the list they join. */
  ghost predicate FreshLuck(v: View, luck: Luck) {
    FreshPods(v.pods, luck.made)
  }

  /** Counters of a list that is not absurdly long are exact. */
  lemma StatusIs(v: View)
    requires Sound(v) && Small(v)
    ensures var s := Sum(v.spec.template, v.pods);
      && v.status.replicas == s.pods && v.status.updated == s.updatedReady && v.status.ready == s.ready
      && s.pods == |v.pods| && 0 <= s.updatedReady <= s.ready <= s.pods && s.updatedReady <= s.updated <= s.pods
      && s.updated == |Updated(v.spec.template, v.pods)|
      && s.pods - s.updated == |Outdated(v.spec.template, v.pods)|
  {
    SumBounds(v.spec.template, v.pods);
  }

  /** Deleting during a rolling update: no up-to-date pod goes, the ready pods stay above the required number. */
  lemma RollingDeletionSafe(v: View, ok: nat -> bool)
    requires Sound(v) && Small(v)
    ensures var w := Fewer(v, RollingDeletion(v), ok);
      var before := Sum(v.spec.template, v.pods);
      && w.Some? && Sound(w.value) && w.value.spec == v.spec
      && var after := Sum(v.spec.template, w.value.pods);
      && after.pods <= before.pods && after.updated == before.updated
      && after.ready >= Min(before.ready, MinReady(v.spec))
      && (forall q | q in w.value.pods :: q in v.pods)
      && ((forall i :: ok(i)) ==> after.pods == before.pods - RollingDeletion(v))
  {
    hide Sound, DeleteEach, Outdated, Sum;
    StatusIs(v);
    var outdated := Outdated(v.spec.template, v.pods);
    SoundDistinct(v);
    OutdatedDistinct(v.spec.template, v.pods);
    DeleteEachSound(v, outdated, RollingDeletion(v), ok);
  }

  lemma FreshSubset(pods: seq<Pod>, fewer: seq<Pod>, made: seq<Pod>)
    requires FreshPods(pods, made) && DistinctPods(fewer) && forall q | q in fewer :: q in pods
    ensures FreshPods(fewer, made)
  {
    forall i, j | 0 <= i < j < |fewer + made| ensures (fewer + made)[i].name != (fewer + made)[j].name {
      if j >= |fewer| {
        assert (pods + made)[|pods| + (j - |fewer|)] == made[j - |fewer|];
        if i < |fewer| {
          assert fewer[i] in fewer;
          var x :| 0 <= x < |pods| && pods[x] == fewer[i];
          assert (pods + made)[x] == fewer[i];
        } else {
          assert (pods + made)[|pods| + (i - |fewer|)] == made[i - |fewer|];
        }
      }
    }
  }

  /** No pod counted as ready is outdated when the counters say the update is over. */
  lemma {:induction false} OutdatedNotReady(t: Template, pods: seq<Pod>)
    requires Sum(t, pods).updatedReady == Sum(t, pods).ready
    ensures forall p | p in Outdated(t, pods) :: !p.phase.Counted()
  {
    hide IsPodUpdated;
    if pods != [] {
      SumBounds(t, pods[1..]);
      OutdatedNotReady(t, pods[1..]);
    }
  }
}
