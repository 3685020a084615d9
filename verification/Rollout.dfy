/**
 One deployment seen on its own: its specification, its counters and the ordered list of its pods. The
 reconciling step of pkg/apiserver/deployment/controller.go, and what it guarantees during a rolling update.
 */
module Rollout {
  import opened Sequences
  import opened Core

  datatype View = View(spec: DeploymentSpec, status: Status, pods: seq<Pod>)

  function Outdated(t: Template, pods: seq<Pod>): (r: seq<Pod>)
    ensures |r| <= |pods|
    ensures forall p | p in r :: p in pods && !IsPodUpdated(t, p)
  {
    if pods == [] then []
    else (if IsPodUpdated(t, pods[0]) then [] else [pods[0]]) + Outdated(t, pods[1..])
  }

  function Updated(t: Template, pods: seq<Pod>): (r: seq<Pod>)
    ensures |r| + |Outdated(t, pods)| == |pods|
  {
    if pods == [] then []
    else (if IsPodUpdated(t, pods[0]) then [pods[0]] else []) + Updated(t, pods[1..])
  }

  /** How many outdated pods may go without falling below the required ready pods. */
  function RollingDeletion(v: View): int {
    var minReady := Max(0, v.spec.replicas - v.spec.rolling.maxUnavailable);
    Min(|Outdated(v.spec.template, v.pods)|, Max(0, v.status.ready - minReady))
  }

  /** How many new pods may come without exceeding the surge; negative when there are too many already. */
  function RollingCreation(v: View): int {
    var ideal := Max(0, v.spec.replicas - |Updated(v.spec.template, v.pods)|);
    Min(v.spec.replicas + v.spec.rolling.maxSurge - v.status.replicas, ideal)
  }

  function RemoveNamed(pods: seq<Pod>, name: string): (r: seq<Pod>)
    ensures |r| <= |pods| && forall p | p in r :: p in pods
  {
    if pods == [] then []
    else if pods[0].name == name then pods[1..]
    else [pods[0]] + RemoveNamed(pods[1..], name)
  }

  /** One attempt to delete a pod. */
  function DeleteOne(v: View, p: Pod, ok: bool): View {
    if ok then v.(pods := RemoveNamed(v.pods, p.name), status := AfterRemoval(v.spec.template, v.status, p)) else v
  }

  /** Attempts on the first k targets; attempt number i succeeds when `ok(i)`. */
  function DeleteEach(v: View, targets: seq<Pod>, k: nat, ok: nat -> bool): (w: View)
    requires k <= |targets|
    ensures w.spec == v.spec
  {
    if k == 0 then v else DeleteOne(DeleteEach(v, targets, k - 1, ok), targets[k - 1], ok(k - 1))
  }

  /** `count` attempts on whatever is last in the list; None when the list is empty, where the source
      dereferences a nil element. */
  function DeleteBack(v: View, count: nat, ok: nat -> bool, offset: nat): (r: Option<View>)
    ensures r.Some? ==> r.value.spec == v.spec
  {
    if count == 0 then Some(v)
    else
      match DeleteBack(v, count - 1, ok, offset)
      case None => None
      case Some(w) =>
        if w.pods == [] then None
        else Some(DeleteOne(w, w.pods[|w.pods| - 1], ok(offset + count - 1)))
  }

  /** Outdated pods first, in list order; then pods from the back. */
  function Fewer(v: View, n: nat, ok: nat -> bool): (r: Option<View>)
    ensures r.Some? ==> r.value.spec == v.spec
  {
    var outdated := Outdated(v.spec.template, v.pods);
    var first := Min(n, |outdated|);
    DeleteBack(DeleteEach(v, outdated, first, ok), Max(0, n - |outdated|), ok, first)
  }

  /** A pod as morePods makes it. */
  predicate IsNew(t: Template, p: Pod) {
    p.phase == Pending && IsPodUpdated(t, p)
  }

  /** The pods whose creation succeeded join the list; only Replicas is incremented. */
  function More(v: View, made: seq<Pod>): View {
    v.(pods := v.pods + made, status := v.status.(replicas := Wrap(v.status.replicas + |made|)))
  }

  /** What the environment does in one tick: which deletions succeed and which pods get made. */
  datatype Luck = Luck(deletes: nat -> bool, made: seq<Pod>)

  predicate Plausible(t: Template, n: int, made: seq<Pod>) {
    |made| <= Max(0, n) && forall p | p in made :: IsNew(t, p)
  }

  function AfterDeletion(v: View, luck: Luck): Option<View> {
    if v.status.updated < v.status.ready then Fewer(v, RollingDeletion(v), luck.deletes) else Some(v)
  }

  /** One tick of monitorDeployment for this deployment. */
  function Tick(v: View, luck: Luck): Option<View> {
    if v.status.updated < v.status.ready then
      match AfterDeletion(v, luck)
      case None => None
      case Some(w) => Some(if RollingCreation(w) > 0 then More(w, luck.made) else w)
    else
      var diff := v.spec.replicas - v.status.replicas;
      if diff > 0 then Some(More(v, luck.made))
      else if diff < 0 then Fewer(v, -diff, luck.deletes)
      else Some(v)
  }

  /** The made pods are as many and such as this tick can make. */
  predicate Possible(v: View, luck: Luck) {
    if v.status.updated < v.status.ready then
      match AfterDeletion(v, luck)
      case None => true
      case Some(w) => Plausible(v.spec.template, RollingCreation(w), luck.made)
    else Plausible(v.spec.template, v.spec.replicas - v.status.replicas, luck.made)
  }

  /** The i-th pod becomes ready. */
  function BecomeReady(v: View, i: nat): View
    requires i < |v.pods|
  {
    v.(pods := v.pods[i := v.pods[i].(phase := Ready)],
       status := AfterReady(v.spec.template, v.status, v.pods[i]))
  }
}
