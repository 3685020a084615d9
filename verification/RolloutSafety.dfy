/**
 The bounds of a rolling update in every state of every run of the API server in which nobody interferes with
 the deployment itself.
 */
module RolloutSafety {
  import opened Sequences
  import opened Core
  import opened Cluster
  import opened ClusterInvariants
  import opened ClusterSteps
  import opened ClusterHandlers
  import opened ClusterEvents
  import opened ClusterDeletion
  import opened ClusterRuns
  import opened ClusterRollout
  import opened RolloutRuns
  import R = Rollout
  import P = RolloutProofs
  import T = RolloutTheorems

  // ---- reports ----

  lemma PhaseAside(s: State, name: string, phase: Phase, ip: string, d: string)
    requires HasDeployment(s, d) && name in s.ix.pods
    requires name in s.ix.deploymentToPods[d] ==> phase == s.ix.pods[name].phase
    ensures Aside(s, WithPhase(s, name, phase, ip), d)
  {
    AsideBy(s, WithPhase(s, name, phase, ip), d);
  }

  lemma JoinAside(t: State, u: State, d: string)
    requires HasDeployment(t, d) && u == t.(ix := u.ix) && u.ix == t.ix.(servicesToPods := u.ix.servicesToPods)
    ensures Aside(t, u, d)
  {
    AsideBy(t, u, d);
  }

  lemma CountingAside(u: State, o: string, name: string, d: string)
    requires HasDeployment(u, d) && HasDeployment(u, o) && name in u.ix.pods && o != d
    ensures Aside(u, Counting(u, o, name), d)
    ensures Aside(u, PersistMeta(Counting(u, o, name), o), d)
  {
  }

  lemma ReadyAside(s: State, name: string, ip: string, ok: bool, d: string)
    requires Sound(s) && HasDeployment(s, d) && name in s.ix.pods && !Owns(s.ix, d, name)
    ensures name in Joined(s, name, ip, ok).ix.pods
    ensures Aside(s, CountReady(Joined(s, name, ip, ok), name), d)
  {
    hide Sound, CountReady, JoinServices, Counting, PersistMeta, InFlight, ViewOf;
    var t, u := WithPhase(s, name, Ready, ip), Joined(s, name, ip, ok);
    JoinedParts(s, name, ip, ok);
    OwnerFacts(s, name);
    SameOwner(s.ix, u.ix, name);
    CountReadyIs(u, name);
    PhaseAside(s, name, Ready, ip, d);
    JoinAside(t, u, d);
    var o := OwnerOf(u.ix, name);
    if o.Some? {
      CountingAside(u, o.value, name, d);
    }
  }

  lemma ReportAside(s: State, name: string, phase: Phase, ip: string, ok: bool, d: string)
    requires Healthy(s) && HasDeployment(s, d)
    requires name in s.ix.pods ==> Orderly(s.ix.pods[name].phase, phase)
    requires Owns(s.ix, d, name) && name in s.ix.pods ==> phase == s.ix.pods[name].phase
    ensures Aside(s, UpdateStatus(s, name, phase, ip, ok), d)
  {
    hide Sound, CountReady, DropFailed, WithPhase, JoinServices, InFlight, ViewOf, Kept;
    if name in s.ix.pods {
      var was := s.ix.pods[name].phase;
      if !was.Ready? && phase.Ready? {
        ReadyAside(s, name, ip, ok, d);
      } else {
        PhaseAside(s, name, phase, ip, d);
        var t := WithPhase(s, name, phase, ip);
        if !was.Failed? && phase.Failed? {
          PhaseHealthy(s, name, phase, ip);
          PhaseOwns(s, name, phase, ip);
          DropAside(t, name, ok, d);
        }
      }
    }
  }

  lemma DropAside(s: State, name: string, ok: bool, d: string)
    requires Healthy(s) && HasDeployment(s, d) && !Owns(s.ix, d, name)
    ensures Aside(s, DropFailed(s, name, ok), d)
  {
    hide Sound, Discard, InFlight, ViewOf, Kept;
    OwnerFacts(s, name);
    var o := OwnerOf(s.ix, name);
    if o.Some? {
      DiscardAside(s, o.value, name, ok, d);
    }
  }

  lemma {:induction false} ObjectsUpdate(a: map<string, Pod>, b: map<string, Pod>, names: seq<string>, i: nat)
    requires i < |names| && NoDup(names) && forall n | n in names && n != names[i] :: Object(a, n) == Object(b, n)
    ensures Objects(b, names) == Objects(a, names)[i := Object(b, names[i])]
  {
    hide Object, Objects;
    forall j | 0 <= j < |names| ensures Objects(b, names)[j] == Objects(a, names)[i := Object(b, names[i])][j] {
      ObjectAt(a, names, j);
      ObjectAt(b, names, j);
    }
  }

  /** A pod of the deployment that becomes ready is the same pod becoming ready in what the deployment sees. */
  lemma ReadyView(s: State, name: string, ip: string, ok: bool, d: string, i: nat)
    requires Healthy(s) && HasDeployment(s, d) && name in s.ix.pods && !s.ix.pods[name].phase.Ready?
    requires i < |s.ix.deploymentToPods[d]| && s.ix.deploymentToPods[d][i] == name
    ensures name in Joined(s, name, ip, ok).ix.pods
    ensures var r := CountReady(Joined(s, name, ip, ok), name);
      && HasDeployment(r, d) && InFlight(r, d) == InFlight(s, d) && ViewOf(r, d) == R.BecomeReady(ViewOf(s, d), i)
      && r.ix.deploymentToPods[d] == s.ix.deploymentToPods[d]
  {
    hide Sound, CountReady, JoinServices, Kept, Objects, AfterReady;
    var t, u := WithPhase(s, name, Ready, ip), Joined(s, name, ip, ok);
    JoinedParts(s, name, ip, ok);
    OwnerFacts(s, name);
    SameOwner(s.ix, u.ix, name);
    CountReadyIs(u, name);
    ListOwned(s, d);
    var list := s.ix.deploymentToPods[d];
    assert Owns(s.ix, d, name);
    ObjectAt(s.ix.pods, list, i);
    ObjectsUpdate(s.ix.pods, u.ix.pods, list, i);
    ReadyStatusSame(s.ix.deployments[d].spec.template, s.ix.deployments[d].status, u.ix.pods[name], ViewOf(s, d).pods[i]);
    var r := CountReady(u, name);
    assert InFlight(r, d) == InFlight(s, d);
  }

  /** A pending pod of the deployment becomes ready. */
  lemma ReadyHappens(s: State, name: string, ip: string, ok: bool, d: string)
    requires Healthy(s) && HasDeployment(s, d) && Owns(s.ix, d, name) && name in s.ix.pods && s.ix.pods[name].phase.Pending?
    ensures name in Joined(s, name, ip, ok).ix.pods
    ensures var r := CountReady(Joined(s, name, ip, ok), name);
      && HasDeployment(r, d) && InFlight(r, d) == InFlight(s, d) && T.Happens(ViewOf(s, d), ViewOf(r, d))
  {
    hide Healthy, CountReady, Joined, Objects, R.BecomeReady;
    var list := s.ix.deploymentToPods[d];
    var i: nat :| i < |list| && list[i] == name;
    ReadyView(s, name, ip, ok, d, i);
    ObjectAt(s.ix.pods, list, i);
  }

  lemma ReadyStatusSame(t: Template, st: Status, a: Pod, b: Pod)
    requires a.labels == b.labels && a.spec == b.spec
    ensures AfterReady(t, st, a) == AfterReady(t, st, b)
  {
  }

  // ---- everything else ----

  lemma SubtractedAside(s: State, e: string, pod: Pod, d: string)
    requires HasDeployment(s, e) && HasDeployment(s, d) && e != d
    ensures Aside(s, Subtracted(s, e, pod), d)
  {
  }

  lemma ArrivedAside(s: State, name: string, d: string)
    requires HasDeployment(s, d) && InFlight(s, d) == {} && (name in s.expected || (name in s.legacy && s.legacy[name] != d))
    ensures Aside(s, Arrived(Unexpected(s, name), name), d)
  {
  }

  lemma NotifyAside(s: State, name: string, d: string)
    requires Healthy(s) && HasDeployment(s, d) && InFlight(s, d) == {} && name in s.wire
    ensures Aside(s, Notify(s, name), d)
  {
    hide Sound, Notify, Kept, ViewOf, Subtracted, InFlight;
    NotifyParts(s, name, d);
    NotifyIs(s, name);
    if name !in s.expected && s.legacy[name] in s.ix.deployments {
      var t := Subtracted(s, s.legacy[name], s.wire[name].pod);
      SubtractedAside(s, s.legacy[name], s.wire[name].pod, d);
      SubtractedKeys(s, s.legacy[name], s.wire[name].pod);
      ArrivedAside(t, name, d);
    } else {
      ArrivedAside(s, name, d);
    }
  }

  lemma NotifyParts(s: State, name: string, d: string)
    requires Healthy(s) && InFlight(s, d) == {} && name in s.wire
    ensures Posted(s) && name in s.legacy && (name in s.expected || s.legacy[name] != d)
    ensures s.legacy[name] in s.ix.deployments ==> HasDeployment(s, s.legacy[name])
  {
    assert name !in InFlight(s, d);
  }

  lemma {:induction false} TearDownAside(s: State, e: string, k: nat, d: string)
    requires Healthy(s) && HasDeployment(s, e) && HasDeployment(s, d) && e != d && k <= |s.ix.deploymentToPods[e]|
    ensures Aside(s, TearDown(s, s.ix.deploymentToPods[e], k), d)
    decreases k
  {
    hide Sound, Kept, DeletePod, ViewOf, InFlight, Owns;
    var names := s.ix.deploymentToPods[e];
    if k > 0 {
      TearDownAside(s, e, k - 1, d);
      TeardownSound(s, e, k - 1);
      var t := TearDown(s, names, k - 1);
      assert names[k - 1..][0] == names[k - 1];
      OwnsFirst(t, e, d);
      DeleteAside(t, names[k - 1], true, Teardown, d);
    }
  }

  lemma OwnsFirst(s: State, e: string, d: string)
    requires Healthy(s) && HasDeployment(s, e) && HasDeployment(s, d) && e != d && s.ix.deploymentToPods[e] != []
    ensures !Owns(s.ix, d, s.ix.deploymentToPods[e][0])
  {
    assert Owns(s.ix, e, s.ix.deploymentToPods[e][0]);
  }

  lemma RemoveDeploymentAside(s: State, e: string, d: string)
    requires Healthy(s) && HasDeployment(s, d) && e != d
    ensures Aside(s, DeleteDeployment(s, e), d)
  {
    hide Sound, Kept, TearDown, InFlight, ViewOf;
    if HasDeployment(s, e) {
      var names := s.ix.deploymentToPods[e];
      TearDownAside(s, e, |names|, d);
      TeardownSound(s, e, |names|);
      var t := TearDown(s, names, |names|);
      assert names[|names|..] == [];
      assert t.ix.pods - (set n | n in t.ix.deploymentToPods[e]) == t.ix.pods;
      AsideBy(t, DeleteDeployment(s, e), d);
    }
  }

  lemma ApplyAside(s: State, x: Deployment, d: string)
    requires HasDeployment(s, d) && x.name != d
    ensures Aside(s, Apply(s, x), d)
  {
    hide ApplyRefused, Applied, PersistMeta, InFlight, ViewOf;
    if ApplyRefused(s, x) {
      AsideBy(s, s, d);
    } else {
      ApplyIs(s, x);
      AppliedAside(s, x, d);
      MetaAside(Applied(s, x), x.name, d);
    }
  }

  lemma AppliedAside(s: State, x: Deployment, d: string)
    requires HasDeployment(s, d) && x.name != d
    ensures Aside(s, Applied(s, x), d)
  {
    hide InFlight, ViewOf;
    AsideBy(s, Applied(s, x), d);
  }

  lemma MetaAside(s: State, e: string, d: string)
    requires HasDeployment(s, d) && e in s.ix.deployments
    ensures Aside(s, PersistMeta(s, e), d)
  {
    AsideBy(s, PersistMeta(s, e), d);
  }

  lemma PlainAside(s: State, op: Op, d: string)
    requires HasDeployment(s, d) && Sensible(s, op)
    requires match op
      case ScaleTo(e, _) => e != d
      case Watch(a) => a.target != d
      case _ => op.AddService? || op.RemoveService?
    ensures Step(s, op).Some? && Aside(s, Step(s, op).value, d)
  {
    hide CreatePod, DeletePod, UpdateStatus, Notify, Apply, Monitor, DeleteDeployment, Enumerates, IsSubset;
    AsideBy(s, Step(s, op).value, d);
  }

  lemma AddPodAside(s: State, pod: Pod, outcome: Creation, d: string)
    requires Sound(s) && HasDeployment(s, d)
    ensures Aside(s, CreatePod(s, pod, outcome), d)
  {
    hide Sound;
    CreateView(s, d, pod, outcome);
    ListLive(s, d);
    AsideBy(s, CreatePod(s, pod, outcome), d);
  }

  /** An operation that is not about the deployment, nor about its pods. */
  ghost predicate LeavesAlone(s: State, op: Op, d: string) {
    match op
    case RemovePod(n, _) => !Owns(s.ix, d, n)
    case Report(n, _, _, _) => !Owns(s.ix, d, n)
    case ApplyDeployment(x) => x.name != d
    case Tick(e, _) => e != d
    case RemoveDeployment(e) => e != d
    case ScaleTo(e, _) => e != d
    case Watch(a) => a.target != d
    case _ => true
  }

  lemma StepAside(s: State, op: Op, d: string)
    requires Healthy(s) && Sensible(s, op) && HasDeployment(s, d) && InFlight(s, d) == {} && LeavesAlone(s, op, d)
    ensures Step(s, op).Some? ==> Aside(s, Step(s, op).value, d)
  {
    hide Sound, Kept, CreatePod, DeletePod, UpdateStatus, Notify, Apply, Monitor, DeleteDeployment, Scale, CreateService,
      DeleteService, AddAutoscaler, CleanStart, Unused, Enumerates, InFlight, ViewOf, IsSubset, Orderly;
    match op
    case AddPod(pod, outcome) => AddPodAside(s, pod, outcome, d);
    case RemovePod(n, ok) => DeleteAside(s, n, ok, User, d);
    case Report(n, phase, ip, ok) => ReportAside(s, n, phase, ip, ok, d);
    case Notice(n) => NotifyAside(s, n, d);
    case ApplyDeployment(x) => ApplyAside(s, x, d);
    case Tick(e, fate) => MonitorAside(s, e, fate, d);
    case RemoveDeployment(e) => RemoveDeploymentAside(s, e, d);
    case ScaleTo(_, _) => PlainAside(s, op, d);
    case AddService(_, _) => PlainAside(s, op, d);
    case RemoveService(_) => PlainAside(s, op, d);
    case Watch(_) => PlainAside(s, op, d);
  }

  // ---- the theorem ----

  /** Nobody interferes with the deployment: its specification stays, its pods are not deleted by hand, and the
      reports about them say that they became ready, or nothing new. */
  ghost predicate Undisturbed(s: State, op: Op, d: string) {
    match op
    case RemovePod(n, _) => !Owns(s.ix, d, n)
    case Report(n, phase, _, _) => n in s.ix.pods && Owns(s.ix, d, n) ==>
      phase == s.ix.pods[n].phase || (s.ix.pods[n].phase.Pending? && phase.Ready?)
    case ApplyDeployment(x) => x.name != d
    case RemoveDeployment(e) => e != d
    case ScaleTo(e, _) => e != d
    case Watch(a) => a.target != d
    case _ => true
  }

  /** What one step of the server is to the deployment: nothing, or a step of a rollout. */
  lemma StepHappens(s: State, op: Op, d: string)
    requires Healthy(s) && Sensible(s, op) && HasDeployment(s, d) && InFlight(s, d) == {} && Undisturbed(s, op, d)
    requires T.InRollout(ViewOf(s, d))
    ensures Step(s, op).Some? || (op.Tick? && op.name != d)
    ensures Step(s, op).Some? ==>
      var r := Step(s, op).value;
      && HasDeployment(r, d) && InFlight(r, d) == {}
      && (ViewOf(r, d) == ViewOf(s, d) || T.Happens(ViewOf(s, d), ViewOf(r, d)))
  {
    hide Sound, Kept, CreatePod, DeletePod, UpdateStatus, Notify, Apply, Monitor, DeleteDeployment, Scale, CreateService,
      DeleteService, AddAutoscaler, CleanStart, Unused, Enumerates, Owns, InFlight, ViewOf, T.InRollout, T.Happens, IsSubset;
    match op
    case Tick(e, fate) =>
      if e == d {
        TickHappens(s, d, fate);
      } else {
        StepAside(s, op, d);
      }
    case Report(n, phase, ip, ok) => ReportHappens(s, n, phase, ip, ok, d);
    case _ => StepAside(s, op, d);
  }

  lemma ReportHappens(s: State, name: string, phase: Phase, ip: string, ok: bool, d: string)
    requires Healthy(s) && HasDeployment(s, d) && (name in s.ix.pods ==> Orderly(s.ix.pods[name].phase, phase))
    requires name in s.ix.pods && Owns(s.ix, d, name) ==>
      phase == s.ix.pods[name].phase || (s.ix.pods[name].phase.Pending? && phase.Ready?)
    ensures var r := UpdateStatus(s, name, phase, ip, ok);
      && HasDeployment(r, d) && InFlight(r, d) == InFlight(s, d)
      && (ViewOf(r, d) == ViewOf(s, d) || T.Happens(ViewOf(s, d), ViewOf(r, d)))
  {
    hide Healthy, CountReady, JoinServices, DropFailed, InFlight, ViewOf, T.Happens, Owns;
    if name in s.ix.pods && Owns(s.ix, d, name) && phase != s.ix.pods[name].phase {
      ReadyHappens(s, name, ip, ok, d);
    } else {
      ReportAside(s, name, phase, ip, ok, d);
    }
  }

  /** A stretch of a run, from any healthy state. */
  ghost predicate IsStretch(states: seq<State>, ops: seq<Op>, d: string) {
    && |states| == |ops| + 1 && Healthy(states[0])
    && forall i | 0 <= i < |ops| ::
         Sensible(states[i], ops[i]) && Undisturbed(states[i], ops[i], d) && Step(states[i], ops[i]) == Some(states[i + 1])
  }

  /** Rollout safety on the server: while nobody interferes with a deployment whose deletions are all
      subtracted and whose up-to-date pods do not exceed the wanted number, its list never holds more pods than
      max(initial, wanted + surge) and its ready pods never fall below min(initial, wanted - unavailable),
      whatever fails and whatever the server does besides. */
  lemma {:induction false} ServerRolloutSafe(states: seq<State>, ops: seq<Op>, d: string, i: nat)
    requires IsStretch(states, ops, d) && i < |states| && HasDeployment(states[0], d) && InFlight(states[0], d) == {}
    requires T.InRollout(ViewOf(states[0], d))
    ensures Healthy(states[i]) && HasDeployment(states[i], d) && InFlight(states[i], d) == {}
    ensures var v, w := ViewOf(states[0], d), ViewOf(states[i], d);
      && T.InRollout(w) && T.WithinBounds(v, w)
      && w.status.replicas == |states[i].ix.deploymentToPods[d]|
      && w.status.ready == P.Sum(w.spec.template, w.pods).ready
    decreases i
  {
    hide Healthy, Sensible, Undisturbed, Step, InFlight, ViewOf, T.InRollout, T.Happens, P.Sum;
    if i > 0 {
      ServerRolloutSafe(states, ops, d, i - 1);
      var s, r := states[i - 1], states[i];
      StepHealthy(s, ops[i - 1]);
      StepHappens(s, ops[i - 1], d);
      if ViewOf(r, d) != ViewOf(s, d) {
        OneStepSafe(ViewOf(s, d), ViewOf(r, d));
      }
    }
    T.InRolloutExact(ViewOf(states[i], d));
    ViewSize(states[i], d);
  }

  lemma OneStepSafe(v: R.View, w: R.View)
    requires T.InRollout(v) && T.Happens(v, w)
    ensures T.InRollout(w) && T.WithinBounds(v, w)
  {
    hide T.InRollout, T.Happens;
    assert T.IsRollout([v, w]);
    T.RolloutSafe([v, w], 1);
  }

  lemma ViewSize(s: State, d: string)
    requires HasDeployment(s, d)
    ensures |ViewOf(s, d).pods| == |s.ix.deploymentToPods[d]|
  {
  }

  /** A newly changed template starts a safe rollout: with no up-to-date pod and no pending deletion the
      hypothesis of ServerRolloutSafe holds. */
  lemma FreshTemplateStarts(s: State, d: string)
    requires Healthy(s) && Exact(s, d) && InFlight(s, d) == {}
    requires P.Small(ViewOf(s, d)) && P.Fits(s.ix.deployments[d].spec)
    requires forall n | n in s.ix.deploymentToPods[d] :: IsOutdated(s.ix, s.ix.deployments[d].spec.template, n)
    ensures T.InRollout(ViewOf(s, d))
  {
    hide Sound, Objects, P.Sum, R.Outdated, P.Sound;
    var t, list := s.ix.deployments[d].spec.template, s.ix.deploymentToPods[d];
    ViewSound(s, d);
    ListLive(s, d);
    OutdatedObjects(s.ix, t, list);
    AllOutdated(s.ix, t, list);
    P.SumBounds(t, ViewOf(s, d).pods);
  }

  /** A changed template is accepted, unless an autoscaler watches the deployment, exactly when a rollout of it has room
      to move whatever pods there are; what is accepted is put in place as a whole, and refusal changes nothing. */
  lemma ApplyMeans(s: State, d: Deployment)
    ensures var watched := exists a :: a in s.ix.autoscalers && s.ix.autoscalers[a].kind == "Deployment" && s.ix.autoscalers[a].target == d.name;
      var changed := d.name in s.ix.deployments && s.ix.deployments[d.name].spec.template != d.spec.template;
      var moves := forall st, pods :: T.CanMove(R.View(d.spec, st, pods));
      ApplyRefused(s, d) <==> watched || (changed && !moves)
    ensures ApplyRefused(s, d) ==> Apply(s, d) == s
    ensures !ApplyRefused(s, d) ==> var r := Apply(s, d);
      && r.ix.deployments.Keys == s.ix.deployments.Keys + {d.name} && r.ix.pods == s.ix.pods
      && r.ix.deployments[d.name].spec == d.spec
      && r.store == s.store.(deployments := s.store.deployments[d.name := r.ix.deployments[d.name]])
      && (forall e | e in s.ix.deployments && e != d.name :: r.ix.deployments[e] == s.ix.deployments[e])
  {
    var rolling, st, pods := d.spec.rolling, Status(0, 0, 0), seq(d.spec.replicas, _ => Pod("", map[], "", Pending, ""));
    var moves := forall st, pods :: T.CanMove(R.View(d.spec, st, pods));
    assert moves <==> rolling.maxSurge > 0 || rolling.maxUnavailable > 0 by {
      assert T.CanMove(R.View(d.spec, st, pods)) <==> rolling.maxSurge > 0 || rolling.maxUnavailable > 0;
    }
    assert Autoscaled(s.ix, d.name) <==>
      exists a :: a in s.ix.autoscalers && s.ix.autoscalers[a].kind == "Deployment" && s.ix.autoscalers[a].target == d.name;
  }

  /** After an accepted template all pods of the list are outdated exactly when none has its labels and specification. */
  lemma AppliedOutdated(s: State, d: Deployment)
    requires Healthy(s) && HasDeployment(s, d.name) && !ApplyRefused(s, d)
    ensures HasDeployment(Apply(s, d), d.name)
    ensures var r, list := Apply(s, d).ix, s.ix.deploymentToPods[d.name];
      && r.deploymentToPods[d.name] == list
      && (OutdatedNames(r, r.deployments[d.name].spec.template, list) == list <==>
          forall n | n in list :: n in s.ix.pods &&
            (s.ix.pods[n].labels != d.spec.template.labels || s.ix.pods[n].spec != d.spec.template.spec))
  {
    hide Kept, Posted, Stored, Served, ApplyRefused;
    var r, list := Apply(s, d).ix, s.ix.deploymentToPods[d.name];
    ListLive(s, d.name);
    OutdatedWithout(r, d.spec.template, list);
    if forall n | n in list :: n !in Current(r, d.spec.template) {
      WithoutNothing(list, Current(r, d.spec.template));
    }
    forall n | n in list
      ensures n in Current(r, d.spec.template) <==>
        s.ix.pods[n].labels == d.spec.template.labels && s.ix.pods[n].spec == d.spec.template.spec
    {
    }
    assert OutdatedNames(r, d.spec.template, list) == list ==> forall n | n in list :: n !in Current(r, d.spec.template);
  }

  lemma {:induction false} AllOutdated(ix: Index, t: Template, names: seq<string>)
    requires forall n | n in names :: IsOutdated(ix, t, n)
    ensures OutdatedNames(ix, t, names) == names
  {
    hide IsOutdated;
    if names != [] {
      assert names[0] in names && forall n | n in names[1..] :: n in names;
      AllOutdated(ix, t, names[1..]);
    }
  }
}
