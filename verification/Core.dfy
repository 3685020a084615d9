/**
 The objects the API server manages (pkg/api/core/types.go), reduced to the fields that its controllers read.
 */
module Core {
  import opened Sequences

  type uint32 = x: int | 0 <= x < 0x1_0000_0000

  /** Unsigned 32-bit arithmetic wraps. */
  function Wrap(x: int): uint32 { x % 0x1_0000_0000 }

  function Inc(x: uint32): uint32 { Wrap(x + 1) }

  function Dec(x: uint32): uint32 { Wrap(x - 1) }

  lemma WrapStep(x: int)
    ensures Inc(Wrap(x)) == Wrap(x + 1) && Dec(Wrap(x)) == Wrap(x - 1) && Wrap(x) != Wrap(x + 1)
  {
  }

  function Min(a: int, b: int): int { if a < b then a else b }

  function Max(a: int, b: int): int { if a > b then a else b }

  type Labels = map<string, string>

  /** Every key of the selector is among the labels with the same value. */
  predicate IsSubset(inner: Labels, outer: Labels) {
    forall k | k in inner :: k in outer && outer[k] == inner[k]
  }

  /** Inclusion of the pairs: a selected key has the selected value. */
  lemma SubsetIff(inner: Labels, outer: Labels)
    ensures IsSubset(inner, outer) <==> inner.Items <= outer.Items
  {
    if inner.Items <= outer.Items {
      forall k | k in inner ensures k in outer && outer[k] == inner[k] {
        assert (k, inner[k]) in inner.Items;
      }
    }
  }

  datatype Phase = Pending | Ready | Succeeded | Failed
  {
    /** Phases whose pods the deployment counters count as ready. */
    predicate Counted() {
      Ready? || Failed?
    }
  }

  /** `spec` stands for the container specification. The source compares hashes of labels and
      specifications; here they are compared themselves. */
  datatype Pod = Pod(name: string, labels: Labels, spec: string, phase: Phase, ip: string)

  datatype Template = Template(labels: Labels, spec: string)

  datatype RollingUpdate = RollingUpdate(maxSurge: uint32, maxUnavailable: uint32)

  datatype DeploymentSpec = DeploymentSpec(replicas: uint32, rolling: RollingUpdate, template: Template)

  datatype Status = Status(replicas: uint32, updated: uint32, ready: uint32)

  datatype Deployment = Deployment(name: string, spec: DeploymentSpec, status: Status)

  type octet = x: int | 0 <= x < 256

  datatype IP = IP(a: octet, b: octet, c: octet, d: octet)

  datatype ServicePort = ServicePort(port: int, targetPort: int)

  /** The address is set when the service is created. */
  datatype Service = Service(name: string, selector: Labels, ports: seq<ServicePort>, clusterIP: Option<IP>)

  predicate IsPodUpdated(t: Template, p: Pod) {
    t.labels == p.labels && t.spec == p.spec
  }

  /** The pods that still are what the template says, in these very words. */
  lemma UpdatedIff(t: Template, p: Pod)
    ensures IsPodUpdated(t, p) <==> Template(p.labels, p.spec) == t
  {
  }

  /** The counters after a pod has left the deployment. */
  function AfterRemoval(t: Template, st: Status, p: Pod): Status {
    Status(
      Dec(st.replicas),
      if IsPodUpdated(t, p) && p.phase.Counted() then Dec(st.updated) else st.updated,
      if p.phase.Counted() then Dec(st.ready) else st.ready)
  }

  /** The counters after a pod has become ready. */
  function AfterReady(t: Template, st: Status, p: Pod): Status {
    Status(st.replicas, if IsPodUpdated(t, p) then Inc(st.updated) else st.updated, Inc(st.ready))
  }
}
