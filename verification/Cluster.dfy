/**
 The API server as a value: the component manager's maps, the legacies, the expected deletions, what etcd
 holds, and the deletion notices that are on their way from the kubelets. One function per handler; the
 classes in Controllers.dfy are proved to do exactly this. A pod object is identified by its name, a name in
 a list stands for the pointer to that object, and the object behind it is the entry in `pods`.
 */
module Cluster {
  import opened Sequences
  import opened Core

  const DEPLOYMENT_TYPE := "Deployment"

  datatype Autoscaler = Autoscaler(name: string, kind: string, target: string, min: uint32, max: uint32)

  /** The fields of the component manager. */
  datatype Index = Index(
    pods: map<string, Pod>,
    deployments: map<string, Deployment>,
    deploymentToPods: map<string, seq<string>>,
    services: map<string, Service>,
    servicesToPods: map<string, seq<string>>,
    autoscalers: map<string, Autoscaler>)

  /** What etcd holds of pods and deployments. */
  datatype Store = Store(
    pods: map<string, Pod>,
    deployments: map<string, Deployment>,
    deploymentPods: map<string, seq<string>>)

  /** On whose behalf a pod was deleted. No code reads this; it is the history of a notice. */
  datatype Actor = User | Controller | Teardown

  /** The kubelet's pod object as it will arrive with the deletion notice. */
  datatype Notice = Notice(pod: Pod, actor: Actor)

  datatype State = State(ix: Index, legacy: map<string, string>, expected: set<string>,
                         wire: map<string, Notice>, store: Store)

  predicate HasDeployment(s: State, d: string) {
    d in s.ix.deployments && d in s.ix.deploymentToPods
  }

  predicate SameKeys(s: State, r: State) {
    r.ix.deployments.Keys == s.ix.deployments.Keys && r.ix.deploymentToPods.Keys == s.ix.deploymentToPods.Keys
  }

  // ---- component manager ----

  function RemoveEverywhere(lists: map<string, seq<string>>, name: string): map<string, seq<string>> {
    map k | k in lists :: RemoveFirst(lists[k], name)
  }

  function Forget(ix: Index, name: string): Index {
    ix.(pods := ix.pods - {name},
        servicesToPods := RemoveEverywhere(ix.servicesToPods, name),
        deploymentToPods := RemoveEverywhere(ix.deploymentToPods, name))
  }

  predicate Owns(ix: Index, d: string, name: string) {
    d in ix.deploymentToPods && name in ix.deploymentToPods[d]
  }

  /** Some deployment whose list has the pod; the source takes the first one it meets in map order. */
  ghost function OwnerOf(ix: Index, name: string): (owner: Option<string>)
    ensures owner.Some? ==> Owns(ix, owner.value, name)
    ensures owner.None? ==> forall d :: !Owns(ix, d, name)
  {
    if exists d :: Owns(ix, d, name) then
      var d :| Owns(ix, d, name);
      Some(d)
    else None
  }

  predicate Selects(ix: Index, service: string, labels: Labels) {
    service in ix.services && IsSubset(ix.services[service].selector, labels)
  }

  predicate Targets(a: Autoscaler, d: string) {
    a.kind == DEPLOYMENT_TYPE && a.target == d
  }

  predicate Autoscaled(ix: Index, d: string) {
    exists a | a in ix.autoscalers :: Targets(ix.autoscalers[a], d)
  }

  /** cm.DeleteDeploymentByName */
  function ForgetDeployment(ix: Index, d: string): Index
    requires d in ix.deploymentToPods
  {
    ix.(pods := ix.pods - (set n | n in ix.deploymentToPods[d]),
        deployments := ix.deployments - {d},
        deploymentToPods := ix.deploymentToPods - {d},
        autoscalers := map a | a in ix.autoscalers && !Targets(ix.autoscalers[a], d) :: ix.autoscalers[a])
  }

  function SetStatus(ix: Index, d: string, st: Status): Index
    requires d in ix.deployments
  {
    ix.(deployments := ix.deployments[d := ix.deployments[d].(status := st)])
  }

  // ---- pods ----

  /** How an attempt to create a pod ends: refused before anything is recorded, recorded but refused by the
      kubelet, or successful. */
  datatype Creation = Rejected | Orphaned | Created

  function CreatePod(s: State, pod: Pod, outcome: Creation): State {
    if pod.name in s.ix.pods || outcome.Rejected? then s
    else
      var p := pod.(phase := Pending);
      s.(ix := s.ix.(pods := s.ix.pods[p.name := p]), store := s.store.(pods := s.store.pods[p.name := p]))
  }

  /** The name of the deployment to be remembered for a deleted pod; empty when there is none. */
  ghost function LegacyOf(ix: Index, name: string): string {
    match OwnerOf(ix, name)
    case None => ""
    case Some(d) => if d in ix.deployments then ix.deployments[d].name else ""
  }

  /** The deletion succeeds when the pod is there and the kubelet takes the request. */
  predicate Deletable(s: State, name: string, ok: bool) {
    name in s.ix.pods && ok
  }

  ghost function DeletePod(s: State, name: string, ok: bool, actor: Actor): State {
    if Deletable(s, name, ok) then
      s.(ix := Forget(s.ix, name),
         legacy := s.legacy[name := LegacyOf(s.ix, name)],
         wire := s.wire[name := Notice(s.ix.pods[name], actor)],
         store := s.store.(pods := s.store.pods - {name}))
    else s
  }

  // ---- deployments ----

  /** deleteDeploymentPod: the deletion is expected from now on and subtracted at once. */
  ghost function Discard(s: State, d: string, name: string, ok: bool): (r: State)
    requires d in s.ix.deployments
    ensures SameKeys(s, r)
  {
    if Deletable(s, name, ok) then
      var r := DeletePod(s, name, ok, Controller);
      var dep := s.ix.deployments[d];
      r.(expected := r.expected + {name},
         ix := SetStatus(r.ix, d, AfterRemoval(dep.spec.template, dep.status, s.ix.pods[name])))
    else s
  }

  /** The deployment and the names of its pods are written to etcd. */
  function Persist(s: State, d: string): State
    requires d in s.ix.deployments && d in s.ix.deploymentToPods
  {
    s.(store := s.store.(deployments := s.store.deployments[d := s.ix.deployments[d]],
                         deploymentPods := s.store.deploymentPods[d := s.ix.deploymentToPods[d]]))
  }

  function PersistMeta(s: State, d: string): State
    requires d in s.ix.deployments
  {
    s.(store := s.store.(deployments := s.store.deployments[d := s.ix.deployments[d]]))
  }

  /** One new pod of morePods. */
  function Grow(s: State, d: string, name: string, outcome: Creation): (r: State)
    requires d in s.ix.deployments && d in s.ix.deploymentToPods
    ensures SameKeys(s, r)
  {
    var dep := s.ix.deployments[d];
    var r := CreatePod(s, Pod(name, dep.spec.template.labels, dep.spec.template.spec, Pending, ""), outcome);
    if name in s.ix.pods || !outcome.Created? then r
    else
      var st := dep.status;
      r.(ix := SetStatus(r.ix, d, st.(replicas := Inc(st.replicas)))
                .(deploymentToPods := r.ix.deploymentToPods[d := r.ix.deploymentToPods[d] + [name]]))
  }

  /** What the environment does to one call: which deletions succeed, which names are drawn for new pods and
      how their creation ends. */
  datatype Fate = Fate(deletes: nat -> bool, names: nat -> string, outcomes: nat -> Creation)

  ghost function GrowEach(s: State, d: string, fate: Fate, k: nat): (r: State)
    requires HasDeployment(s, d)
    ensures SameKeys(s, r)
  {
    if k == 0 then s else Grow(GrowEach(s, d, fate, k - 1), d, fate.names(k - 1), fate.outcomes(k - 1))
  }

  ghost function MorePods(s: State, d: string, n: nat, fate: Fate): (r: State)
    requires HasDeployment(s, d)
    ensures SameKeys(s, r)
  {
    Persist(GrowEach(s, d, fate, n), d)
  }

  predicate IsOutdated(ix: Index, t: Template, name: string) {
    name in ix.pods && !IsPodUpdated(t, ix.pods[name])
  }

  /** The outdated pods of a list. */
  function OutdatedNames(ix: Index, t: Template, names: seq<string>): (r: seq<string>)
    ensures |r| <= |names| && forall n | n in r :: n in names && IsOutdated(ix, t, n)
  {
    if names == [] then []
    else (if IsOutdated(ix, t, names[0]) then [names[0]] else []) + OutdatedNames(ix, t, names[1..])
  }

  /** The live pods whose labels and specification are those of the template. */
  function Current(ix: Index, t: Template): set<string> {
    set n | n in ix.pods && Template(ix.pods[n].labels, ix.pods[n].spec) == t
  }

  /** The outdated pods of a list are the others, in its order. */
  lemma {:induction false} OutdatedWithout(ix: Index, t: Template, names: seq<string>)
    requires forall n | n in names :: n in ix.pods
    ensures OutdatedNames(ix, t, names) == Without(names, Current(ix, t))
  {
    hide IsPodUpdated;
    if names != [] {
      assert names[0] in names && forall n | n in names[1..] :: n in names;
      UpdatedIff(t, ix.pods[names[0]]);
      OutdatedWithout(ix, t, names[1..]);
    }
  }

  ghost function DiscardEach(s: State, d: string, targets: seq<string>, k: nat, ok: nat -> bool): (r: State)
    requires HasDeployment(s, d) && k <= |targets|
    ensures SameKeys(s, r)
  {
    if k == 0 then s else Discard(DiscardEach(s, d, targets, k - 1, ok), d, targets[k - 1], ok(k - 1))
  }

  /** Attempts on whatever is last; None when the list is empty, where the source dereferences nil. */
  ghost function DiscardBack(s: State, d: string, count: nat, ok: nat -> bool, offset: nat): (r: Option<State>)
    requires HasDeployment(s, d)
    ensures r.Some? ==> SameKeys(s, r.value)
  {
    if count == 0 then Some(s)
    else
      match DiscardBack(s, d, count - 1, ok, offset)
      case None => None
      case Some(w) =>
        var list := w.ix.deploymentToPods[d];
        if list == [] then None else Some(Discard(w, d, list[|list| - 1], ok(offset + count - 1)))
  }

  ghost function FewerPods(s: State, d: string, n: nat, ok: nat -> bool): (r: Option<State>)
    requires HasDeployment(s, d)
    ensures r.Some? ==> SameKeys(s, r.value)
  {
    var outdated := OutdatedNames(s.ix, s.ix.deployments[d].spec.template, s.ix.deploymentToPods[d]);
    var first := Min(n, |outdated|);
    match DiscardBack(DiscardEach(s, d, outdated, first, ok), d, Max(0, n - |outdated|), ok, first)
    case None => None
    case Some(w) => Some(Persist(w, d))
  }

  /** So many deletions take outdated pods only and leave the required ready ones. */
  predicate LeavesEnough(dep: Deployment, outdated: nat, m: int) {
    m <= outdated &&
    (m <= 0 || (dep.status.ready - m >= dep.spec.replicas - dep.spec.rolling.maxUnavailable && dep.status.ready >= m))
  }

  /** So many creations stay within the surge and make no more up-to-date pods than wanted. */
  predicate StaysWithin(dep: Deployment, updated: int, m: int) {
    dep.status.replicas + m <= dep.spec.replicas + dep.spec.rolling.maxSurge && (m <= 0 || updated + m <= dep.spec.replicas)
  }

  function RollingDeletion(ix: Index, d: string): int
    requires d in ix.deployments && d in ix.deploymentToPods
  {
    var dep, list := ix.deployments[d], ix.deploymentToPods[d];
    var minReady := Max(0, dep.spec.replicas - dep.spec.rolling.maxUnavailable);
    Min(|OutdatedNames(ix, dep.spec.template, list)|, Max(0, dep.status.ready - minReady))
  }

  function RollingCreation(ix: Index, d: string): int
    requires d in ix.deployments && d in ix.deploymentToPods
  {
    var dep, list := ix.deployments[d], ix.deploymentToPods[d];
    var updated := |list| - |OutdatedNames(ix, dep.spec.template, list)|;
    Min(dep.spec.replicas + dep.spec.rolling.maxSurge - dep.status.replicas, Max(0, dep.spec.replicas - updated))
  }

  /** The tick of monitorDeployment for one deployment. */
  ghost function Monitor(s: State, d: string, fate: Fate): (r: Option<State>)
    requires HasDeployment(s, d)
    ensures r.Some? ==> SameKeys(s, r.value)
  {
    var dep := s.ix.deployments[d];
    if dep.status.updated < dep.status.ready then
      var deletion := RollingDeletion(s.ix, d);
      match if deletion > 0 then FewerPods(s, d, deletion, fate.deletes) else Some(s)
      case None => None
      case Some(w) =>
        var creation := RollingCreation(w.ix, d);
        Some(if creation > 0 then MorePods(w, d, creation, fate) else w)
    else
      var diff := dep.spec.replicas - dep.status.replicas;
      if diff > 0 then Some(MorePods(s, d, diff, fate))
      else if diff < 0 then FewerPods(s, d, -diff, fate.deletes)
      else Some(s)
  }

  predicate ApplyRefused(s: State, d: Deployment) {
    || Autoscaled(s.ix, d.name)
    || (d.name in s.ix.deployments && s.ix.deployments[d.name].spec.template != d.spec.template &&
        d.spec.rolling.maxSurge == 0 && d.spec.rolling.maxUnavailable == 0)
  }

  function Apply(s: State, d: Deployment): State {
    if ApplyRefused(s, d) then s
    else if d.name in s.ix.deployments then
      var dep := s.ix.deployments[d.name];
      var st := if dep.spec.template != d.spec.template then dep.status.(updated := 0) else dep.status;
      PersistMeta(s.(ix := s.ix.(deployments := s.ix.deployments[d.name := dep.(spec := d.spec, status := st)])), d.name)
    else
      PersistMeta(s.(ix := s.ix.(deployments := s.ix.deployments[d.name := d.(status := Status(0, 0, 0))],
                                 deploymentToPods := s.ix.deploymentToPods[d.name := []])), d.name)
  }

  /** The autoscaler and its creation write the wanted number only. */
  function Scale(s: State, d: string, n: uint32): State
    requires d in s.ix.deployments
  {
    var dep := s.ix.deployments[d];
    s.(ix := s.ix.(deployments := s.ix.deployments[d := dep.(spec := dep.spec.(replicas := n))]))
  }

  /** The first k pods of a deployment that is being deleted. */
  ghost function TearDown(s: State, names: seq<string>, k: nat): State
    requires k <= |names|
  {
    if k == 0 then s else DeletePod(TearDown(s, names, k - 1), names[k - 1], true, Teardown)
  }

  ghost function DeleteDeployment(s: State, d: string): State {
    if HasDeployment(s, d) then
      var names := s.ix.deploymentToPods[d];
      var t := TearDown(s, names, |names|);
      if d in t.ix.deploymentToPods then
        t.(ix := ForgetDeployment(t.ix, d),
           store := t.store.(deployments := t.store.deployments - {d}, deploymentPods := t.store.deploymentPods - {d}))
      else t
    else s
  }

  // ---- messages from the kubelets ----

  function JoinServices(ix: Index, pod: Pod): Index {
    ix.(servicesToPods := map k | k in ix.servicesToPods ::
      ix.servicesToPods[k] + if Selects(ix, k, pod.labels) then [pod.name] else [])
  }

  /** The deployment's reaction to a pod that became ready. */
  ghost function CountReady(s: State, name: string): (r: State)
    requires name in s.ix.pods
    ensures SameKeys(s, r)
  {
    match OwnerOf(s.ix, name)
    case None => s
    case Some(d) =>
      if d !in s.ix.deployments then s
      else
        var dep := s.ix.deployments[d];
        var r := s.(ix := SetStatus(s.ix, d, AfterReady(dep.spec.template, dep.status, s.ix.pods[name])));
        if IsPodUpdated(dep.spec.template, s.ix.pods[name]) then PersistMeta(r, d) else r
  }

  /** The deployment's reaction to a pod that failed. */
  ghost function DropFailed(s: State, name: string, ok: bool): (r: State)
    ensures SameKeys(s, r)
  {
    match OwnerOf(s.ix, name)
    case None => s
    case Some(d) => if d in s.ix.deployments then Discard(s, d, name, ok) else s
  }

  function WithPhase(s: State, name: string, phase: Phase, ip: string): State
    requires name in s.ix.pods
  {
    var p := s.ix.pods[name].(phase := phase, ip := ip);
    s.(ix := s.ix.(pods := s.ix.pods[name := p]), store := s.store.(pods := s.store.pods[name := p]))
  }

  /** A status report from a kubelet; `ok` says whether the calls it causes succeed: telling the nodes about a pod that
      became ready, or deleting one that failed. Reports about pods that are gone are refused. */
  ghost function UpdateStatus(s: State, name: string, phase: Phase, ip: string, ok: bool): (r: State)
    ensures SameKeys(s, r)
  {
    if name !in s.ix.pods then s
    else
      var was := s.ix.pods[name].phase;
      var t := WithPhase(s, name, phase, ip);
      if !was.Ready? && phase.Ready? then
        CountReady(if ok then t.(ix := JoinServices(t.ix, t.ix.pods[name])) else t, name)
      else if !was.Failed? && phase.Failed? then DropFailed(t, name, ok)
      else t
  }

  /** The deployment's reaction to a deletion: nothing if it was expected. */
  function CountDeletion(s: State, pod: Pod, owner: string): State {
    if pod.name in s.expected then s.(expected := s.expected - {pod.name})
    else if owner in s.ix.deployments then
      var dep := s.ix.deployments[owner];
      PersistMeta(s.(ix := SetStatus(s.ix, owner, AfterRemoval(dep.spec.template, dep.status, pod))), owner)
    else s
  }

  /** A deletion notice arrives. */
  function Notify(s: State, name: string): State
    requires name in s.wire
  {
    var t := CountDeletion(s, s.wire[name].pod, if name in s.legacy then s.legacy[name] else "");
    t.(legacy := t.legacy - {name}, wire := t.wire - {name})
  }

  // ---- services ----

  /** The list has exactly the ready pods the selector matches, in some order. */
  ghost predicate Enumerates(ix: Index, selector: Labels, order: seq<string>) {
    NoDup(order) &&
    forall n :: n in order <==> n in ix.pods && ix.pods[n].phase.Ready? && IsSubset(selector, ix.pods[n].labels)
  }

  function CreateService(s: State, service: Service, order: seq<string>): State {
    if service.name in s.ix.services then s
    else s.(ix := s.ix.(services := s.ix.services[service.name := service],
                        servicesToPods := s.ix.servicesToPods[service.name := order]))
  }

  function DeleteService(s: State, name: string): State {
    if name !in s.ix.services then s
    else s.(ix := s.ix.(services := s.ix.services - {name}, servicesToPods := s.ix.servicesToPods - {name}))
  }

  function AddAutoscaler(s: State, a: Autoscaler): State
  {
    if a.name in s.ix.autoscalers || a.target !in s.ix.deployments || Autoscaled(s.ix, a.target) then s
    else
      var t := s.(ix := s.ix.(autoscalers := s.ix.autoscalers[a.name := a]));
      Scale(t, a.target, Clip(t.ix.deployments[a.target].spec.replicas, a.min, a.max))
  }

  function Clip(n: uint32, min: uint32, max: uint32): (r: uint32)
    ensures min <= max ==> min <= r <= max
    ensures min <= n <= max ==> r == n
  {
    if n < min then min else if n > max then max else n
  }
}
