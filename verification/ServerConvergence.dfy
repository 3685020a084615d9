/**
 A rolling update on the API server ends: rounds of a tick and the reports of the new pods.
 */
module ServerConvergence {
  import opened Sequences
  import opened Core
  import opened Cluster
  import opened ClusterInvariants
  import opened ClusterSteps
  import opened ClusterHandlers
  import opened ClusterEvents
  import opened ClusterDeletion
  import opened ClusterRuns
  import opened ClusterRollout
  import opened RolloutRuns
  import opened RolloutSafety
  import R = Rollout
  import P = RolloutProofs
  import T = RolloutTheorems

  /** The first k pods of a list report that they are ready, as far as they are pending. */
  ghost function ReadyEach(s: State, names: seq<string>, ips: string -> string, k: nat): (r: State)
    requires k <= |names|
    ensures SameKeys(s, r)
  {
    if k == 0 then s
    else
      var t := ReadyEach(s, names, ips, k - 1);
      var name := names[k - 1];
      if name in t.ix.pods && t.ix.pods[name].phase.Pending? then UpdateStatus(t, name, Ready, ips(name), true) else t
  }

  /** A tick, after which all pods of the deployment that are pending become ready. */
  ghost function ServerRound(s: State, d: string, fate: Fate, ips: string -> string): Option<State>
    requires HasDeployment(s, d)
  {
    match Monitor(s, d, fate)
    case None => None
    case Some(w) => Some(ReadyEach(w, w.ix.deploymentToPods[d], ips, |w.ix.deploymentToPods[d]|))
  }

  lemma ReportIsReady(s: State, name: string, ip: string)
    requires name in s.ix.pods && s.ix.pods[name].phase.Pending?
    ensures name in Joined(s, name, ip, true).ix.pods
    ensures UpdateStatus(s, name, Ready, ip, true) == CountReady(Joined(s, name, ip, true), name)
  {
  }

  lemma ReadyNone(s: State, names: seq<string>, ips: string -> string)
    ensures ReadyEach(s, names, ips, 0) == s
  {
  }

  /** One report, if the pod is pending. */
  ghost function Reported(t: State, name: string, ip: string): State {
    if name in t.ix.pods && t.ix.pods[name].phase.Pending? then UpdateStatus(t, name, Ready, ip, true) else t
  }

  lemma ReadyNext(s: State, names: seq<string>, ips: string -> string, k: nat)
    requires 0 < k <= |names|
    ensures ReadyEach(s, names, ips, k) == Reported(ReadyEach(s, names, ips, k - 1), names[k - 1], ips(names[k - 1]))
  {
    hide UpdateStatus;
  }

  lemma ReportedView(t: State, d: string, ip: string, i: nat)
    requires Healthy(t) && HasDeployment(t, d) && i < |t.ix.deploymentToPods[d]|
    ensures var u := Reported(t, t.ix.deploymentToPods[d][i], ip);
      && Healthy(u) && HasDeployment(u, d) && InFlight(u, d) == InFlight(t, d)
      && u.ix.deploymentToPods[d] == t.ix.deploymentToPods[d]
      && ViewOf(u, d) ==
         if ViewOf(t, d).pods[i].phase == Pending then R.BecomeReady(ViewOf(t, d), i) else ViewOf(t, d)
  {
    hide Healthy, UpdateStatus, Objects, R.BecomeReady, InFlight, CountReady, Joined;
    var name := t.ix.deploymentToPods[d][i];
    ListedLive(t, d, i);
    ObjectAt(t.ix.pods, t.ix.deploymentToPods[d], i);
    if t.ix.pods[name].phase.Pending? {
      ReportIsReady(t, name, ip);
      ReadyView(t, name, ip, true, d, i);
      UpdateStatusHealthy(t, name, Ready, ip, true);
    }
  }

  lemma {:induction false} ReadyEachView(s: State, d: string, ips: string -> string, k: nat)
    requires Healthy(s) && HasDeployment(s, d) && k <= |s.ix.deploymentToPods[d]|
    ensures var r := ReadyEach(s, s.ix.deploymentToPods[d], ips, k);
      && Healthy(r) && HasDeployment(r, d) && InFlight(r, d) == InFlight(s, d)
      && r.ix.deploymentToPods[d] == s.ix.deploymentToPods[d]
      && ViewOf(r, d) == T.ReadyUpTo(ViewOf(s, d), k)
    decreases k
  {
    hide Healthy, Reported, ReadyEach, ViewOf, R.BecomeReady, InFlight;
    var list := s.ix.deploymentToPods[d];
    if k == 0 {
      ReadyNone(s, list, ips);
    } else {
      ReadyEachView(s, d, ips, k - 1);
      ReadyNext(s, list, ips, k);
      ReportedView(ReadyEach(s, list, ips, k - 1), d, ips(list[k - 1]), k - 1);
    }
  }

  lemma ListedLive(s: State, d: string, i: nat)
    requires Healthy(s) && d in s.ix.deploymentToPods && i < |s.ix.deploymentToPods[d]|
    ensures s.ix.deploymentToPods[d][i] in s.ix.pods
  {
  }

  /** The deployment is undisturbed and settled: nothing to subtract, all its pods ready, within its limits. */
  ghost predicate Quiescent(s: State, d: string) {
    Healthy(s) && HasDeployment(s, d) && InFlight(s, d) == {} && T.Settled(ViewOf(s, d))
  }

  /** A round of the server in which everything succeeds is a round of the rollout model. */
  lemma ServerRoundIs(s: State, d: string, fate: Fate, ips: string -> string)
    requires Quiescent(s, d) && Smooth(fate) && forall i: nat :: Unused(s, fate.names(i))
    ensures var r := ServerRound(s, d, fate, ips);
      && r.Some? && Healthy(r.value) && HasDeployment(r.value, d) && InFlight(r.value, d) == {}
      && T.Round(ViewOf(s, d), ViewOf(r.value, d))
  {
    hide Sound, Kept, T.InRollout, T.AllReady, ViewOf, R.Tick, R.Possible, InFlight, P.FreshLuck, Unused, Monitor, ReadyEach,
      T.Fortunate, Smooth, T.ReadyUpTo, T.Remaining, T.CanMove;
    MonitorView(s, d, fate);
    LuckIsFresh(s, d, fate);
    SmoothIsFortunate(s, d, fate);
    ServerTickProgress(s, d, fate);
    MonitorHealthy(s, d, fate);
    var w := Monitor(s, d, fate).value;
    ReadyEachView(w, d, ips, |w.ix.deploymentToPods[d]|);
    ViewSize(w, d);
    assert R.Possible(ViewOf(s, d), LuckOf(s, d, fate));
  }

  /** A round of the deployment, or something else the server does meanwhile. */
  datatype Event = Turn(fate: Fate) | Meanwhile(op: Op)

  /** How many of the first k events are rounds. */
  function Turns(events: seq<Event>, k: nat): (n: nat)
    requires k <= |events|
    ensures n <= k
  {
    if k == 0 then 0 else Turns(events, k - 1) + if events[k - 1].Turn? then 1 else 0
  }

  ghost predicate Occurs(s: State, d: string, event: Event, ips: string -> string, r: State) {
    match event
    case Turn(fate) =>
      && Smooth(fate) && (forall j: nat :: Unused(s, fate.names(j)))
      && (HasDeployment(s, d) ==> ServerRound(s, d, fate, ips) == Some(r))
    case Meanwhile(op) => Sensible(s, op) && LeavesAlone(s, op, d) && Step(s, op) == Some(r)
  }

  /** Rounds of the deployment among any other operations; the names drawn are unused when they are drawn. */
  ghost predicate IsHistory(states: seq<State>, d: string, events: seq<Event>, ips: string -> string) {
    && |states| == |events| + 1
    && forall i | 0 <= i < |events| :: Occurs(states[i], d, events[i], ips, states[i + 1])
  }

  lemma MeanwhileKeeps(s: State, d: string, op: Op)
    requires Quiescent(s, d) && Sensible(s, op) && LeavesAlone(s, op, d) && Step(s, op).Some?
    ensures var r := Step(s, op).value;
      Quiescent(r, d) && ViewOf(r, d) == ViewOf(s, d)
  {
    hide Healthy, Sensible, Step, LeavesAlone, InFlight, ViewOf, T.Settled;
    StepHealthy(s, op);
    StepAside(s, op, d);
  }

  /** A rolling update on the server ends within as many rounds as there were outdated and missing pods, whatever else
      the server does between the rounds: then the list holds exactly the wanted number of pods, all ready and with
      the labels and the specification of the template, and it stays so. */
  lemma {:induction false} ServerRolloutConverges(states: seq<State>, d: string, events: seq<Event>, ips: string -> string, i: nat)
    requires IsHistory(states, d, events, ips) && Quiescent(states[0], d) && i < |states|
    requires var rolling := states[0].ix.deployments[d].spec.rolling; rolling.maxSurge + rolling.maxUnavailable > 0
    ensures Quiescent(states[i], d)
    ensures states[i].ix.deployments[d].spec == states[0].ix.deployments[d].spec
    ensures 0 <= T.Remaining(ViewOf(states[i], d)) <= Max(0, T.Remaining(ViewOf(states[0], d)) - Turns(events, i))
    ensures Turns(events, i) >= T.Remaining(ViewOf(states[0], d)) ==>
      var ix := states[i].ix;
      var dep, list := ix.deployments[d], ix.deploymentToPods[d];
      && |list| == dep.spec.replicas == dep.status.replicas == dep.status.ready
      && forall n | n in list :: n in ix.pods && ix.pods[n].phase.Ready? &&
           ix.pods[n].labels == dep.spec.template.labels && ix.pods[n].spec == dep.spec.template.spec
    decreases i
  {
    hide Healthy, Smooth, ServerRound, T.Round, T.Settled, T.Remaining, InFlight, ViewOf, Unused, OutdatedNames, Sensible,
      LeavesAlone, Step;
    if i == 0 {
      SettledBound(states[0], d);
    } else {
      ServerRolloutConverges(states, d, events, ips, i - 1);
      var s, r := states[i - 1], states[i];
      assert Occurs(s, d, events[i - 1], ips, r);
      SpecOf(s, d);
      match events[i - 1] {
        case Turn(fate) =>
          ServerRoundIs(s, d, fate, ips);
          SpecOf(r, d);
          T.RoundProgress(ViewOf(s, d), ViewOf(r, d));
        case Meanwhile(op) =>
          MeanwhileKeeps(s, d, op);
          SpecOf(r, d);
      }
    }
    if Turns(events, i) >= T.Remaining(ViewOf(states[0], d)) {
      FinishedMeans(states[i], d);
    }
  }

  lemma SpecOf(s: State, d: string)
    requires HasDeployment(s, d)
    ensures ViewOf(s, d).spec == s.ix.deployments[d].spec
  {
  }

  lemma SettledBound(s: State, d: string)
    requires Quiescent(s, d)
    ensures 0 <= T.Remaining(ViewOf(s, d))
  {
    hide Healthy, InFlight, Objects;
    P.SumBounds(ViewOf(s, d).spec.template, ViewOf(s, d).pods);
  }

  lemma FinishedMeans(s: State, d: string)
    requires Quiescent(s, d) && T.Remaining(ViewOf(s, d)) == 0
    ensures var ix := s.ix;
      var dep, list := ix.deployments[d], ix.deploymentToPods[d];
      && |list| == dep.spec.replicas == dep.status.replicas == dep.status.ready
      && forall n | n in list :: n in ix.pods && ix.pods[n].phase.Ready? &&
           ix.pods[n].labels == dep.spec.template.labels && ix.pods[n].spec == dep.spec.template.spec
  {
    hide Sound, Kept, InFlight, T.InRollout, T.AllReady, Objects, R.Outdated, OutdatedNames, T.Remaining;
    T.DoneMeans(ViewOf(s, d));
    ListLive(s, d);
    var list := s.ix.deploymentToPods[d];
    forall n | n in list
      ensures n in s.ix.pods && s.ix.pods[n].phase.Ready?
      ensures Template(s.ix.pods[n].labels, s.ix.pods[n].spec) == s.ix.deployments[d].spec.template
    {
      var i :| 0 <= i < |list| && list[i] == n;
      ObjectAt(s.ix.pods, list, i);
      assert ViewOf(s, d).pods[i] in ViewOf(s, d).pods;
    }
  }
}
