/**
 Rolling updates: what never happens on the way, that they end, and which pods go.
 */
module RolloutTheorems {
  import opened Sequences
  import opened Core
  import opened Rollout
  import opened RolloutProofs

  // ---- safety ----

  /** The state of a rollout that stays within its limits: counters are right, no overflow is near, and there
      are no more up-to-date pods than wanted. */
  ghost predicate InRollout(v: View) {
    Sound(v) && Small(v) && Fits(v.spec) && Sum(v.spec.template, v.pods).updated <= v.spec.replicas
  }

  /** The bounds one tick keeps. */
  predicate WithinBounds(before: View, after: View) {
    && after.spec == before.spec
    && after.status.replicas <= Max(before.status.replicas, before.spec.replicas + before.spec.rolling.maxSurge)
    && after.status.ready >= Min(before.status.ready, MinReady(before.spec))
  }

  lemma CreationSafe(v: View, made: seq<Pod>, n: int)
    requires InRollout(v) && FreshPods(v.pods, made) && Plausible(v.spec.template, n, made)
    requires n <= v.spec.replicas + v.spec.rolling.maxSurge - v.status.replicas
    requires n <= Max(0, v.spec.replicas - |Updated(v.spec.template, v.pods)|)
    ensures InRollout(More(v, made))
    ensures WithinBounds(v, More(v, made))
    ensures Sum(v.spec.template, More(v, made).pods) ==
      Plus(Sum(v.spec.template, v.pods), Tally(|made|, 0, 0, |made|))
  {
    hide Sound, FreshPods, Sum, More, Updated, Outdated;
    MoreSound(v, made);
    StatusIs(v);
    MoreSize(v, made);
    StatusIs(More(v, made));
  }

  lemma MoreSize(v: View, made: seq<Pod>)
    ensures |More(v, made).pods| == |v.pods| + |made|
  {
  }

  /** Outside a rolling update nothing counted as ready is outdated, and there is no need to remove up-to-date
      pods: the deletions hit outdated pods that are not ready. */
  lemma SettlingDeletionSafe(v: View, n: nat, ok: nat -> bool)
    requires InRollout(v) && v.status.updated >= v.status.ready && n == v.status.replicas - v.spec.replicas
    ensures var w := Fewer(v, n, ok);
      && w.Some? && InRollout(w.value) && w.value.spec == v.spec
      && var before, after := Sum(v.spec.template, v.pods), Sum(v.spec.template, w.value.pods);
      && after.pods <= before.pods && after.ready == before.ready && after.updated == before.updated
      && ((forall i :: ok(i)) ==> after.pods == v.spec.replicas)
  {
    hide Sound, Sum, DeleteEach, Outdated, Updated;
    StatusIs(v);
    var outdated := Outdated(v.spec.template, v.pods);
    SoundDistinct(v);
    OutdatedDistinct(v.spec.template, v.pods);
    OutdatedNotReady(v.spec.template, v.pods);
    DeleteEachSound(v, outdated, n, ok);
    SumBounds(v.spec.template, DeleteEach(v, outdated, n, ok).pods);
  }

  /** One tick of a rollout, whatever creations and deletions fail. */
  lemma TickSafe(v: View, luck: Luck)
    requires InRollout(v) && Possible(v, luck) && FreshLuck(v, luck)
    ensures Tick(v, luck).Some? && InRollout(Tick(v, luck).value) && WithinBounds(v, Tick(v, luck).value)
  {
    hide Sound, Sum, Fewer, RollingDeletion, More, FreshPods, Updated, Outdated;
    StatusIs(v);
    if v.status.updated < v.status.ready {
      RollingDeletionSafe(v, luck.deletes);
      var w := AfterDeletion(v, luck).value;
      SumBounds(v.spec.template, w.pods);
      StatusIs(w);
      SoundDistinct(w);
      FreshSubset(v.pods, w.pods, luck.made);
      if RollingCreation(w) > 0 {
        CreationSafe(w, luck.made, RollingCreation(w));
      }
    } else {
      var diff := v.spec.replicas - v.status.replicas;
      if diff > 0 {
        CreationSafe(v, luck.made, diff);
      } else if diff < 0 {
        SettlingDeletionSafe(v, -diff, luck.deletes);
        StatusIs(Tick(v, luck).value);
      }
    }
  }

  lemma {:induction false} SumUpdate(t: Template, pods: seq<Pod>, i: nat, p: Pod)
    requires i < |pods|
    ensures Sum(t, pods[i := p]) == Plus(Less(Sum(t, pods), Weight(t, pods[i])), Weight(t, p))
  {
    hide Weight;
    if i == 0 {
      assert pods[0 := p][1..] == pods[1..];
    } else {
      assert pods[i := p][1..] == pods[1..][i - 1 := p];
      SumUpdate(t, pods[1..], i - 1, p);
    }
  }

  lemma ReadyStatus(t: Template, s: Tally, p: Pod)
    requires !p.phase.Counted()
    ensures AfterReady(t, StatusOf(s), p) == StatusOf(Plus(Less(s, Weight(t, p)), Weight(t, p.(phase := Ready))))
  {
    hide Wrap, Inc, Dec;
    WrapStep(s.ready);
    WrapStep(s.updatedReady);
  }

  /** A pod that becomes ready for the first time keeps the counters right. */
  lemma ReadySound(v: View, i: nat)
    requires Sound(v) && i < |v.pods| && !v.pods[i].phase.Counted()
    ensures var w := BecomeReady(v, i);
      && Sound(w) && w.spec == v.spec && |w.pods| == |v.pods|
      && Sum(v.spec.template, w.pods).ready == Sum(v.spec.template, v.pods).ready + 1
      && Sum(v.spec.template, w.pods).updated == Sum(v.spec.template, v.pods).updated
  {
    hide StatusOf, AfterReady, Sum;
    var p := v.pods[i];
    SumUpdate(v.spec.template, v.pods, i, p.(phase := Ready));
    ReadyStatus(v.spec.template, Sum(v.spec.template, v.pods), p);
  }

  lemma ReadySafe(v: View, i: nat)
    requires InRollout(v) && i < |v.pods| && !v.pods[i].phase.Counted()
    ensures InRollout(BecomeReady(v, i)) && WithinBounds(v, BecomeReady(v, i))
  {
    hide Sound, Sum, BecomeReady;
    ReadySound(v, i);
    StatusIs(v);
    StatusIs(BecomeReady(v, i));
    ReplicasKept(v, i);
  }

  lemma ReplicasKept(v: View, i: nat)
    requires i < |v.pods|
    ensures BecomeReady(v, i).status.replicas == v.status.replicas
  {
  }

  /** What may happen during a rollout: a tick with any failures, or a pending pod becoming ready. */
  ghost predicate Happens(v: View, w: View) {
    || (exists luck: Luck :: Possible(v, luck) && FreshLuck(v, luck) && Tick(v, luck) == Some(w))
    || (exists i: nat :: i < |v.pods| && v.pods[i].phase == Pending && w == BecomeReady(v, i))
  }

  ghost predicate IsRollout(vs: seq<View>) {
    |vs| > 0 && forall i | 0 <= i < |vs| - 1 :: Happens(vs[i], vs[i + 1])
  }

  /** Safety over whole rollouts: from a state with right counters whose up-to-date pods do not exceed the
      wanted number (for instance none at all), the pods never exceed max(initial, wanted + surge) and the
      ready pods never fall below min(initial, wanted - unavailable). */
  lemma {:induction false} RolloutSafe(vs: seq<View>, i: nat)
    requires IsRollout(vs) && InRollout(vs[0]) && i < |vs|
    ensures InRollout(vs[i]) && WithinBounds(vs[0], vs[i])
    ensures Sum(vs[i].spec.template, vs[i].pods).pods == vs[i].status.replicas == |vs[i].pods|
    ensures Sum(vs[i].spec.template, vs[i].pods).ready == vs[i].status.ready
    decreases i
  {
    hide InRollout, Sum, Tick, BecomeReady, Possible, FreshLuck;
    if i > 0 {
      RolloutSafe(vs, i - 1);
      var v, w := vs[i - 1], vs[i];
      assert Happens(v, w);
      if luck: Luck :| Possible(v, luck) && FreshLuck(v, luck) && Tick(v, luck) == Some(w) {
        TickSafe(v, luck);
      } else {
        var j: nat :| j < |v.pods| && v.pods[j].phase == Pending && w == BecomeReady(v, j);
        ReadySafe(v, j);
      }
    }
    InRolloutExact(vs[i]);
  }

  lemma InRolloutExact(v: View)
    requires InRollout(v)
    ensures Sum(v.spec.template, v.pods).pods == v.status.replicas == |v.pods|
    ensures Sum(v.spec.template, v.pods).ready == v.status.ready
  {
    StatusIs(v);
  }

  // ---- convergence ----

  /** In this tick everything succeeds. */
  ghost predicate Fortunate(v: View, luck: Luck) {
    && (forall i: nat :: luck.deletes(i))
    && if v.status.updated < v.status.ready then
         match AfterDeletion(v, luck)
         case None => true
         case Some(w) => |luck.made| == Max(0, RollingCreation(w))
       else |luck.made| == Max(0, v.spec.replicas - v.status.replicas)
  }

  /** The first k pods that are pending become ready. */
  function ReadyUpTo(v: View, k: nat): (w: View)
    requires k <= |v.pods|
    ensures |w.pods| == |v.pods|
  {
    if k == 0 then v
    else
      var u := ReadyUpTo(v, k - 1);
      if u.pods[k - 1].phase == Pending then BecomeReady(u, k - 1) else u
  }

  predicate AllReady(pods: seq<Pod>) {
    forall p | p in pods :: p.phase == Ready
  }

  predicate PendingOrReady(pods: seq<Pod>) {
    forall p | p in pods :: p.phase == Ready || p.phase == Pending
  }

  lemma {:induction false} ReadyUpToSound(v: View, k: nat)
    requires Sound(v) && k <= |v.pods| && PendingOrReady(v.pods)
    ensures var w := ReadyUpTo(v, k);
      && Sound(w) && w.spec == v.spec && PendingOrReady(w.pods)
      && Sum(v.spec.template, w.pods).updated == Sum(v.spec.template, v.pods).updated
      && (forall i | 0 <= i < k :: w.pods[i].phase == Ready)
      && (forall i | k <= i < |v.pods| :: w.pods[i] == v.pods[i])
  {
    hide Sound, Sum;
    if k > 0 {
      ReadyUpToSound(v, k - 1);
      var u := ReadyUpTo(v, k - 1);
      assert u.pods[k - 1] in u.pods;
      if u.pods[k - 1].phase == Pending {
        ReadySound(u, k - 1);
      }
    }
  }

  /** A round: one fortunate tick, after which all pods become ready. */
  ghost predicate Round(v: View, w: View) {
    exists luck: Luck :: Possible(v, luck) && FreshLuck(v, luck) && Fortunate(v, luck) &&
      Tick(v, luck).Some? && w == ReadyUpTo(Tick(v, luck).value, |Tick(v, luck).value.pods|)
  }

  /** Pods still to be replaced plus up-to-date pods still missing. */
  function Remaining(v: View): int {
    var s := Sum(v.spec.template, v.pods);
    (s.pods - s.updated) + (v.spec.replicas - s.updated)
  }

  ghost predicate Settled(v: View) {
    InRollout(v) && AllReady(v.pods)
  }

  /** The update is over: no outdated pod, exactly the wanted number of pods. */
  predicate Done(v: View) {
    Remaining(v) == 0
  }

  /** There is room to move: some slack is allowed, or the number of pods is not the wanted one. */
  predicate CanMove(v: View) {
    v.spec.rolling.maxSurge + v.spec.rolling.maxUnavailable > 0 || |v.pods| != v.spec.replicas
  }

  /** One fortunate tick leaves less to do exactly when there is room to move; when nothing is left it changes
      nothing. Without any slack a rollout of the wanted size is stuck. */
  lemma TickProgress(v: View, luck: Luck)
    requires Settled(v) && Possible(v, luck) && FreshLuck(v, luck) && Fortunate(v, luck)
    ensures Tick(v, luck).Some? && InRollout(Tick(v, luck).value)
    ensures var w := Tick(v, luck).value;
      && w.spec == v.spec && 0 <= Remaining(w)
      && (Remaining(v) > 0 ==> (Remaining(w) < Remaining(v) <==> CanMove(v)))
      && (Remaining(v) == 0 ==> w == v)
      && PendingOrReady(w.pods)
  {
    hide Sound, Sum, Fewer, RollingDeletion, More, FreshPods, Updated, Outdated;
    TickSafe(v, luck);
    StatusIs(v);
    ReadyCounts(v.spec.template, v.pods);
    var w := Tick(v, luck).value;
    SumBounds(v.spec.template, w.pods);
    TickPhases(v, luck);
    if v.status.updated < v.status.ready {
      RollingDeletionSafe(v, luck.deletes);
      RollingDeletionValue(v);
      var u := AfterDeletion(v, luck).value;
      SumBounds(v.spec.template, u.pods);
      StatusIs(u);
      SoundDistinct(u);
      FreshSubset(v.pods, u.pods, luck.made);
      if RollingCreation(u) > 0 {
        CreationSafe(u, luck.made, RollingCreation(u));
      }
    } else {
      var diff := v.spec.replicas - v.status.replicas;
      if diff > 0 {
        CreationSafe(v, luck.made, diff);
      }
    }
  }

  /** Without a rolling update one fortunate tick makes exactly the wanted number of pods. */
  lemma TickReaches(v: View, luck: Luck)
    requires Settled(v) && Possible(v, luck) && FreshLuck(v, luck) && Fortunate(v, luck) && v.status.updated >= v.status.ready
    ensures Tick(v, luck).Some? && |Tick(v, luck).value.pods| == v.spec.replicas
  {
    hide Sum, Fewer, FreshPods, Updated, Outdated;
    StatusIs(v);
    SoundDistinct(v);
    var diff := v.spec.replicas - v.status.replicas;
    if diff < 0 {
      FewerSizes(v, -diff, luck.deletes);
    } else if diff > 0 {
      assert |More(v, luck.made).pods| == |v.pods| + |luck.made|;
    }
  }

  lemma FewerSizes(v: View, n: nat, ok: nat -> bool)
    requires DistinctPods(v.pods) && (forall i: nat :: ok(i)) && n <= |v.pods|
    ensures Fewer(v, n, ok).Some? && |Fewer(v, n, ok).value.pods| == |v.pods| - n
  {
    FewerRemoves(v, n, ok);
    SkipOutdatedSize(v.spec.template, v.pods, Min(n, |Outdated(v.spec.template, v.pods)|));
  }

  lemma RollingDeletionValue(v: View)
    ensures RollingDeletion(v) == Min(|Outdated(v.spec.template, v.pods)|, Max(0, v.status.ready - MinReady(v.spec)))
  {
  }

  lemma {:induction false} ReadyCounts(t: Template, pods: seq<Pod>)
    requires AllReady(pods)
    ensures Sum(t, pods).ready == Sum(t, pods).pods && Sum(t, pods).updatedReady == Sum(t, pods).updated
  {
    hide IsPodUpdated;
    if pods != [] {
      assert pods[0] in pods;
      ReadyCounts(t, pods[1..]);
    }
  }

  lemma TickPhases(v: View, luck: Luck)
    requires Settled(v) && Possible(v, luck) && Fortunate(v, luck) && FreshLuck(v, luck)
    ensures Tick(v, luck).Some? && PendingOrReady(Tick(v, luck).value.pods)
  {
    hide Sound, Sum, Fewer, RollingDeletion, FreshPods, Updated, Outdated;
    TickSafe(v, luck);
    StatusIs(v);
    ReadyCounts(v.spec.template, v.pods);
    if v.status.updated < v.status.ready {
      RollingDeletionSafe(v, luck.deletes);
    }
  }

  /** Every round of a rollout that is not done leaves strictly less to do, and a finished rollout stays. */
  lemma RoundProgress(v: View, w: View)
    requires Settled(v) && Round(v, w) && v.spec.rolling.maxSurge + v.spec.rolling.maxUnavailable > 0
    ensures Settled(w) && w.spec == v.spec && 0 <= Remaining(w)
    ensures Remaining(v) > 0 ==> Remaining(w) < Remaining(v)
    ensures Remaining(v) == 0 ==> w == v
  {
    hide Sound, Sum, Tick, Possible, FreshLuck, Fortunate;
    var luck: Luck :| Possible(v, luck) && FreshLuck(v, luck) && Fortunate(v, luck) &&
      Tick(v, luck).Some? && w == ReadyUpTo(Tick(v, luck).value, |Tick(v, luck).value.pods|);
    TickProgress(v, luck);
    var u := Tick(v, luck).value;
    ReadyUpToSound(u, |u.pods|);
    SumBounds(v.spec.template, u.pods);
    SumBounds(v.spec.template, w.pods);
    assert AllReady(w.pods);
    if Remaining(v) == 0 {
      NothingPending(v, |v.pods|);
    }
  }

  lemma {:induction false} NothingPending(v: View, k: nat)
    requires k <= |v.pods| && AllReady(v.pods)
    ensures ReadyUpTo(v, k) == v
  {
    if k > 0 {
      NothingPending(v, k - 1);
      assert v.pods[k - 1] in v.pods;
    }
  }

  ghost predicate IsRounds(vs: seq<View>) {
    |vs| > 0 && forall i | 0 <= i < |vs| - 1 :: Round(vs[i], vs[i + 1])
  }

  /** A rollout ends within as many rounds as there were outdated pods and missing up-to-date pods, with no
      outdated pod left and exactly the wanted number of ready pods, and then stays as it is. */
  lemma {:induction false} RolloutConverges(vs: seq<View>, i: nat)
    requires IsRounds(vs) && Settled(vs[0]) && i < |vs|
    requires vs[0].spec.rolling.maxSurge + vs[0].spec.rolling.maxUnavailable > 0
    ensures Settled(vs[i]) && vs[i].spec == vs[0].spec
    ensures 0 <= Remaining(vs[i]) <= Max(0, Remaining(vs[0]) - i)
    ensures i >= Remaining(vs[0]) ==>
      && Outdated(vs[i].spec.template, vs[i].pods) == []
      && (forall p | p in vs[i].pods :: Template(p.labels, p.spec) == vs[i].spec.template && p.phase == Ready)
      && |vs[i].pods| == vs[i].spec.replicas == vs[i].status.replicas == vs[i].status.ready
    decreases i
  {
    hide Round, InRollout, Sum;
    if i == 0 {
      SumBounds(vs[0].spec.template, vs[0].pods);
      UpdatedWithin(vs[0]);
    } else {
      RolloutConverges(vs, i - 1);
      assert Round(vs[i - 1], vs[i]);
      RoundProgress(vs[i - 1], vs[i]);
    }
    if i >= Remaining(vs[0]) {
      DoneMeans(vs[i]);
    }
  }

  lemma UpdatedWithin(v: View)
    requires InRollout(v)
    ensures Sum(v.spec.template, v.pods).updated <= v.spec.replicas
  {
  }

  lemma DoneMeans(v: View)
    requires Settled(v) && Done(v)
    ensures Outdated(v.spec.template, v.pods) == []
    ensures forall p | p in v.pods :: Template(p.labels, p.spec) == v.spec.template && p.phase == Ready
    ensures |v.pods| == v.spec.replicas == v.status.replicas == v.status.ready
  {
    StatusIs(v);
    ReadyCounts(v.spec.template, v.pods);
    OutdatedMeans(v.spec.template, v.pods);
  }

  /** A pod is outdated when its labels or its specification are not those of the template. */
  lemma {:induction false} OutdatedMeans(t: Template, pods: seq<Pod>)
    ensures forall p :: p in Outdated(t, pods) <==> p in pods && Template(p.labels, p.spec) != t
  {
    hide IsPodUpdated;
    if pods != [] {
      UpdatedIff(t, pods[0]);
      OutdatedMeans(t, pods[1..]);
      assert forall p :: p in pods <==> p == pods[0] || p in pods[1..];
    }
  }

  // ---- which pods go ----

  /** The list without its first k outdated pods. */
  function SkipOutdated(t: Template, pods: seq<Pod>, k: int): (r: seq<Pod>)
    ensures |r| <= |pods|
  {
    if pods == [] || k <= 0 then pods
    else if IsPodUpdated(t, pods[0]) then [pods[0]] + SkipOutdated(t, pods[1..], k)
    else SkipOutdated(t, pods[1..], k - 1)
  }

  lemma {:induction false} SkipOutdatedSize(t: Template, pods: seq<Pod>, k: int)
    requires 0 <= k <= |Outdated(t, pods)|
    ensures |SkipOutdated(t, pods, k)| == |pods| - k
  {
    if pods != [] && k > 0 {
      SkipOutdatedSize(t, pods[1..], if IsPodUpdated(t, pods[0]) then k else k - 1);
    }
  }

  lemma {:induction false} SkipSubset(t: Template, pods: seq<Pod>, k: int)
    ensures forall p | p in SkipOutdated(t, pods, k) :: p in pods
  {
    if pods != [] && k > 0 {
      SkipSubset(t, pods[1..], if IsPodUpdated(t, pods[0]) then k else k - 1);
    }
  }

  lemma RemoveCons(p: Pod, rest: seq<Pod>, name: string)
    ensures RemoveNamed([p] + rest, name) == if p.name == name then rest else [p] + RemoveNamed(rest, name)
  {
    assert ([p] + rest)[1..] == rest;
  }

  lemma OutdatedCons(t: Template, pods: seq<Pod>)
    requires pods != []
    ensures Outdated(t, pods) == if IsPodUpdated(t, pods[0]) then Outdated(t, pods[1..]) else [pods[0]] + Outdated(t, pods[1..])
  {
  }

  lemma SkipCons(t: Template, pods: seq<Pod>, k: int)
    ensures k <= 0 ==> SkipOutdated(t, pods, k) == pods
    ensures k > 0 && pods != [] ==>
      SkipOutdated(t, pods, k) ==
      if IsPodUpdated(t, pods[0]) then [pods[0]] + SkipOutdated(t, pods[1..], k) else SkipOutdated(t, pods[1..], k - 1)
  {
    hide IsPodUpdated;
  }

  lemma OutdatedName(t: Template, pods: seq<Pod>, k: nat)
    requires DistinctPods(pods) && pods != [] && k < |Outdated(t, pods[1..])|
    ensures Outdated(t, pods[1..])[k].name != pods[0].name && DistinctPods(pods[1..])
  {
    assert Outdated(t, pods[1..])[k] in pods[1..];
  }

  /** Removing the k-th outdated pod from the list without the first k - 1. */
  lemma {:induction false} SkipOneMore(t: Template, pods: seq<Pod>, k: nat)
    requires DistinctPods(pods) && 0 < k <= |Outdated(t, pods)|
    ensures RemoveNamed(SkipOutdated(t, pods, k - 1), Outdated(t, pods)[k - 1].name) == SkipOutdated(t, pods, k)
    decreases |pods|
  {
    hide IsPodUpdated, DistinctPods, RemoveNamed, SkipOutdated;
    OutdatedCons(t, pods);
    SkipCons(t, pods, k);
    SkipCons(t, pods, k - 1);
    var rest := pods[1..];
    SkipCons(t, rest, k - 1);
    assert [pods[0]] + rest == pods;
    if IsPodUpdated(t, pods[0]) {
      OutdatedName(t, pods, k - 1);
      SkipOneMore(t, rest, k);
      RemoveCons(pods[0], SkipOutdated(t, rest, k - 1), Outdated(t, rest)[k - 1].name);
    } else if k == 1 {
      SkipCons(t, rest, 0);
      RemoveCons(pods[0], rest, pods[0].name);
    } else {
      OutdatedName(t, pods, k - 2);
      SkipOneMore(t, rest, k - 1);
    }
  }

  lemma {:induction false} DeleteEachSkips(v: View, k: nat, ok: nat -> bool)
    requires DistinctPods(v.pods) && k <= |Outdated(v.spec.template, v.pods)| && forall i: nat :: ok(i)
    ensures var w := DeleteEach(v, Outdated(v.spec.template, v.pods), k, ok);
      w.pods == SkipOutdated(v.spec.template, v.pods, k) && w.spec == v.spec
  {
    hide Outdated, SkipOutdated, RemoveNamed, AfterRemoval;
    if k == 0 {
      SkipNone(v.spec.template, v.pods);
    } else {
      DeleteEachSkips(v, k - 1, ok);
      SkipOneMore(v.spec.template, v.pods, k);
    }
  }

  lemma SkipNone(t: Template, pods: seq<Pod>)
    ensures SkipOutdated(t, pods, 0) == pods
  {
  }

  lemma {:induction false} RemoveLast(pods: seq<Pod>)
    requires DistinctPods(pods) && pods != []
    ensures RemoveNamed(pods, pods[|pods| - 1].name) == pods[..|pods| - 1]
  {
    if |pods| > 1 {
      assert DistinctPods(pods[1..]);
      RemoveLast(pods[1..]);
      assert pods[1..][|pods| - 2] == pods[|pods| - 1];
      assert [pods[0]] + pods[1..][..|pods| - 2] == pods[..|pods| - 1];
    }
  }

  /** With successful deletions, `count` attempts at the back take the last `count` pods, and fail with a nil
      element exactly when there are fewer. */
  lemma {:induction false} DeleteBackTakes(v: View, count: nat, ok: nat -> bool, offset: nat)
    requires DistinctPods(v.pods) && forall i: nat :: ok(i)
    ensures DeleteBack(v, count, ok, offset).Some? <==> count <= |v.pods|
    ensures count <= |v.pods| ==> DeleteBack(v, count, ok, offset).value.pods == v.pods[..|v.pods| - count]
  {
    hide RemoveNamed, AfterRemoval;
    if count == 0 {
      assert v.pods[..|v.pods|] == v.pods;
    } else {
      DeleteBackTakes(v, count - 1, ok, offset);
      if count - 1 <= |v.pods| {
        var u := DeleteBack(v, count - 1, ok, offset).value;
        if u.pods != [] {
          RemoveLast(u.pods);
        }
      }
    }
  }

  lemma {:induction false} SkipDistinct(t: Template, pods: seq<Pod>, k: int)
    requires DistinctPods(pods)
    ensures DistinctPods(SkipOutdated(t, pods, k))
  {
    if pods != [] && k > 0 {
      assert DistinctPods(pods[1..]);
      SkipDistinct(t, pods[1..], if IsPodUpdated(t, pods[0]) then k else k - 1);
      SkipSubset(t, pods[1..], if IsPodUpdated(t, pods[0]) then k else k - 1);
      assert forall p | p in pods[1..] :: p.name != pods[0].name;
    }
  }

  /** fewerPods with successful deletions, for any n: it meets an empty list exactly when n exceeds the number
      of pods; otherwise the first min(n, #outdated) outdated pods go, then the last n - #outdated of the rest,
      and the survivors keep their order. */
  lemma FewerRemoves(v: View, n: nat, ok: nat -> bool)
    requires DistinctPods(v.pods) && forall i: nat :: ok(i)
    ensures Fewer(v, n, ok).Some? <==> n <= |v.pods|
    ensures n <= |v.pods| ==>
      var o := |Outdated(v.spec.template, v.pods)|;
      var rest := SkipOutdated(v.spec.template, v.pods, Min(n, o));
      |rest| >= Max(0, n - o) && Fewer(v, n, ok).value.pods == rest[..|rest| - Max(0, n - o)]
  {
    hide Outdated, SkipOutdated, RemoveNamed, AfterRemoval;
    var o := |Outdated(v.spec.template, v.pods)|;
    DeleteEachSkips(v, Min(n, o), ok);
    SkipOutdatedSize(v.spec.template, v.pods, Min(n, o));
    SkipDistinct(v.spec.template, v.pods, Min(n, o));
    DeleteBackTakes(DeleteEach(v, Outdated(v.spec.template, v.pods), Min(n, o), ok), Max(0, n - o), ok, Min(n, o));
  }

  /** How many of the first k attempts succeed. */
  function Successes(ok: nat -> bool, k: nat): (count: nat)
    ensures count <= k
  {
    if k == 0 then 0 else Successes(ok, k - 1) + if ok(k - 1) then 1 else 0
  }

  lemma {:induction false} AllSucceed(ok: nat -> bool, k: nat)
    requires forall i: nat :: ok(i)
    ensures Successes(ok, k) == k
  {
    if k > 0 {
      AllSucceed(ok, k - 1);
    }
  }

  lemma {:induction false} RemoveSize(pods: seq<Pod>, p: Pod)
    requires p in pods
    ensures |RemoveNamed(pods, p.name)| == |pods| - 1
    ensures forall q | q in pods && q.name != p.name :: q in RemoveNamed(pods, p.name)
  {
    if pods[0].name != p.name {
      RemoveSize(pods[1..], p);
    }
  }

  lemma {:induction false} DeleteEachSize(v: View, targets: seq<Pod>, k: nat, ok: nat -> bool)
    requires k <= |targets| && DistinctPods(targets) && forall p | p in targets :: p in v.pods
    ensures |DeleteEach(v, targets, k, ok).pods| == |v.pods| - Successes(ok, k)
    ensures forall i | k <= i < |targets| :: targets[i] in DeleteEach(v, targets, k, ok).pods
  {
    hide RemoveNamed, AfterRemoval;
    if k > 0 {
      DeleteEachSize(v, targets, k - 1, ok);
      RemoveSize(DeleteEach(v, targets, k - 1, ok).pods, targets[k - 1]);
    }
  }

  lemma {:induction false} DeleteBackSize(v: View, count: nat, ok: nat -> bool, offset: nat)
    ensures var r := DeleteBack(v, count, ok, offset);
      && (r.Some? <==> count == 0 || Successes(ok, offset + count - 1) - Successes(ok, offset) < |v.pods|)
      && (r.Some? ==> |r.value.pods| == |v.pods| - (Successes(ok, offset + count) - Successes(ok, offset)))
  {
    hide RemoveNamed, AfterRemoval;
    if count > 0 {
      DeleteBackSize(v, count - 1, ok, offset);
      var w := DeleteBack(v, count - 1, ok, offset);
      if w.Some? && w.value.pods != [] {
        RemoveSize(w.value.pods, w.value.pods[|w.value.pods| - 1]);
      }
    }
  }

  /** fewerPods with any failures: it meets an empty list exactly when the attempts before the last already deleted
      every pod. */
  lemma FewerFails(v: View, n: nat, ok: nat -> bool)
    requires DistinctPods(v.pods)
    ensures Fewer(v, n, ok).Some? <==> n == 0 || Successes(ok, n - 1) < |v.pods|
  {
    hide DeleteEach, DeleteBack, Outdated;
    var outdated := Outdated(v.spec.template, v.pods);
    OutdatedDistinct(v.spec.template, v.pods);
    DeleteEachSize(v, outdated, Min(n, |outdated|), ok);
    DeleteBackSize(DeleteEach(v, outdated, Min(n, |outdated|), ok), Max(0, n - |outdated|), ok, Min(n, |outdated|));
  }

  /** A tick meets an empty list exactly when no rolling update is under way, fewer pods are wanted than counted, and
      the attempts before the last already deleted every pod. */
  lemma TickFails(v: View, luck: Luck)
    requires DistinctPods(v.pods)
    ensures var surplus := v.status.replicas - v.spec.replicas;
      Tick(v, luck).None? <==>
        v.status.updated >= v.status.ready && surplus > 0 && Successes(luck.deletes, surplus - 1) >= |v.pods|
  {
    hide Fewer, More, Outdated, RollingCreation, DistinctPods;
    if v.status.updated < v.status.ready {
      FewerFails(v, RollingDeletion(v), luck.deletes);
    } else if v.status.replicas > v.spec.replicas {
      FewerFails(v, v.status.replicas - v.spec.replicas, luck.deletes);
    }
  }

  /** Whatever deletions fail, a rolling-update deletion never removes an up-to-date pod. */
  lemma RollingKeepsUpdated(v: View, ok: nat -> bool, p: Pod)
    requires DistinctPods(v.pods) && p in v.pods && IsPodUpdated(v.spec.template, p)
    ensures Fewer(v, RollingDeletion(v), ok).Some?
    ensures p in Fewer(v, RollingDeletion(v), ok).value.pods
  {
    var outdated := Outdated(v.spec.template, v.pods);
    KeepsOthers(v, outdated, RollingDeletion(v), ok, p);
  }

  lemma {:induction false} KeepsOthers(v: View, targets: seq<Pod>, k: nat, ok: nat -> bool, p: Pod)
    requires DistinctPods(v.pods) && p in v.pods && k <= |targets|
    requires forall q | q in targets :: q in v.pods && q != p
    ensures var w := DeleteEach(v, targets, k, ok);
      p in w.pods && DistinctPods(w.pods) && forall q | q in w.pods :: q in v.pods
  {
    hide RemoveNamed, AfterRemoval;
    if k > 0 {
      KeepsOthers(v, targets, k - 1, ok, p);
      var u := DeleteEach(v, targets, k - 1, ok);
      var q := targets[k - 1];
      assert q in targets;
      RemoveDistinct(u.pods, q.name);
    }
  }
}
