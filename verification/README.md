# Kuberboat's control plane, modelled and proved in Dafny

Kuberboat is a small container orchestrator. Its API server keeps pods, deployments, services and autoscalers in
memory and in etcd; kubelets on the nodes run the pods, report their status, and maintain iptables rules that
balance the traffic of a service over its pods. This project models the logic of that control plane and proves what
it keeps in every state of every run.

`dafny verify dfyconfig.toml` checks the whole project.

## How it is organised

| files | what they hold |
|---|---|
| `Core`, `Sequences` | objects, labels, 32-bit counters; facts about lists |
| `Cluster` | the API server as a value: component manager, legacies, expected deletions, etcd, deletion notices under way; one function per handler |
| `ClusterInvariants`, `ClusterSteps`, `ClusterHandlers`, `ClusterEvents`, `ClusterDeletion`, `ClusterRuns`, `ClusterListing`, `ClusterFailures` | invariants of the server, that every handler keeps them (or exactly when), what holds in every state of every run, and runs that end in the known failures |
| `Rollout`, `RolloutProofs`, `RolloutTheorems` | one deployment on its own: rolling updates, their bounds, that they end, which pods go |
| `ClusterRollout`, `RolloutRuns`, `RolloutSafety`, `ServerConvergence` | a tick of the server is a tick of that model; the bounds in whole runs of the server; that a rollout on the server ends |
| `Components`, `Controllers`, `Server`, `Recovery` | the classes of the source with their loops, each method proved equal to its function in `Cluster`; recovery from etcd |
| `Iptables`, `ServiceMeta`, `ProxyState`, `ProxyInvariants`, `ProxyOps`, `ProxyLoops`, `ProxyEviction`, `KubeProxy` | the proxy of a node: nat table, record, the four operations as functions and as loops |
| `NthBalancer`, `Packets`, `ProxyListing`, `ProxyEntries`, `ProxyRuns`, `ProxyRouting` | exact round robin, what the table does to a packet, which pods a chain lists and under which addresses, runs of the proxy, the way from a service address to a pod |
| `ProxyStart`, `ProxyUndo`, `ProxyFrame`, `ProxyFailures` | the table a proxy starts from, deletion undoing creation, services not interfering, and exactly when calls leave table and record apart |
| `Drift`, `Agreement`, `Addresses`, `Locations`, `Traffic`, `AgreementFailures` | server, address assigner and node together, up to the packets that ready pods get, and a run after which they disagree |
| `Autoscaling`, `ClusterIP`, `Dns`, `ResolvConf` | the autoscaler, service addresses, DNS routing and keys, the resolv.conf rewriter |

Each imperative class has a `View()`; a method's contract says which function of the old view the new view is, and
the lemmas are about those functions. A predicate with `Healthy`, `Refines` or `Agree` in its name is the invariant
of the server, of a proxy, and of both together.

## Hypotheses

The code relies on the following; they are preconditions of single steps (`ClusterRuns.Sensible`,
`ClusterRuns.Careful`, `ProxyRuns.Sensible`, `RolloutSafety.Undisturbed`, `RolloutSafety.LeavesAlone`), not of the state.

- A handler and a tick for one deployment are atomic, and so is the dispatch of an event to its subscribers.
- Names drawn for pods are unused: no live pod, no notice under way and no stored list has them. A standalone pod
  may have an existing name; it is refused. That its name is otherwise unused is up to the user: `AddPodIff` has the
  exact condition and `ReusedNameLoses` a run in which it fails.
- A deletion notice carries the labels, specification and phase the server accepted last.
- A failed pod does not become ready, and a pod that was ready stays ready or fails (`ClusterEvents.Orderly`). A pod may
  fail before it was ready.
- Only the counters of a deployment, and what is said about them, need more, and only of that deployment
  (`ClusterRuns.Careful`). None of its pods fails before it was ready: the comment at
  pkg/apiserver/deployment/controller.go:455 says so, pkg/kubelet/kubelet.go:243-248 reports
  such a failure all the same, and `UpdateStatusIff` has the exact condition. A template that is applied to it is not that of a counted pod, and it is not re-created while
  notices of its old pods are under way: `ApplyIff` says exactly when resetting the counters is right.
- Deployment names are not empty: the empty name stands for "no deployment" in a legacy.
- No overflow: theorems that speak of counters as numbers ask for fewer than 2^32 pods. The invariant itself holds
  modulo 2^32 for any number.
- Progress of a rollout needs maxSurge + maxUnavailable > 0 or a wrong size; a re-apply with the same template is not
  checked for that, so it is not an invariant (`TickProgress` has the exact condition).
- Calls to nodes, etcd and the kernel succeed where the model does not give their failure as a parameter. Parameters
  say which deletions and creations of pods, creations and deletions of services, calls about pods that became ready,
  writes of addresses and services and installations of DNS configurations fail, and which usages cannot be read. The
  kernel refuses rules for missing chains and the deletion of chains that are jumped to.
- One node stands for all: nodes receive the same calls and do not interact.
- Hashes of labels and specifications do not collide; they are compared themselves. Suffixes of chain names are
  numbers that have not been used.
- `statistic --mode nth --every n --packet 0` is a counter per rule that matches one in n packets that reach it. Packets
  are TCP; `Packets.Traverse` is what DNAT, SNAT, MASQUERADE, MARK, RETURN and jumps do to them.
- Where packets are followed from a service address, the number of the port occurs once in the service. That services
  have addresses of their own is derived from the assigner (`Traffic.RunPlaced`); in runs of the proxy alone it is a
  hypothesis, and `RoutesIff` has the exact condition. That the node's address of a pod is the pod's needs a ready pod to
  keep its address (`ClusterListing.Steady`), and a name to stay with its node.
- Processor time in the autoscaler is a real number; targets are positive.

## Model

| member | source | states |
|---|---|---|
| `NthBalancer.RoundRobin` | pkg/kubelet/proxy/iptables.go:526-563 | numbered n, ..., 1 with a counter each, n consecutive packets reach every target exactly once and none falls through, from any counter values |
| `NthBalancer.FairShare` | pkg/kubelet/proxy/iptables.go:526-563 | after any m packets no target is ahead of or behind another by more than one |
| `NthBalancer.RoundsIsDivision` | pkg/kubelet/proxy/iptables.go:526-563 | the number of completed rounds is m divided by n |
| `ProxyRuns.ExactBalance` | pkg/kubelet/kube_proxy.go:93-120 | in any state in which the rules refine the record: any n consecutive packets that enter a service chain of n pods reach each pod's chain exactly once, none falls through, and every packet in that chain ends with the pod's own address and the target port, marked for masquerading exactly when it comes from the pod, and as the host's exactly when it comes from the host and the pod runs elsewhere |
| `ProxyRouting.RoutesIff` | pkg/kubelet/proxy/iptables.go:408-446 | packets to the address and port of every port mapping enter its chain, first match, exactly when no two mappings share address and port |
| `ProxyRouting.PortBalance` | pkg/kubelet/kube_proxy.go:75-136 | in every state of every run in which services get addresses of their own: n consecutive packets to the address and a port of a service of n pods enter that port's chain, reach each pod's chain exactly once and are delivered to the pod |
| `ProxyRouting.PacketReaches` | pkg/kubelet/proxy/iptables.go:408-563 | a packet traced through the table: to the address and port of a port mapping that no other shares, it ends with the address of the recorded pod whose turn it is and the target port |
| `Packets.PodRulesDeliver` | pkg/kubelet/proxy/iptables.go:456-524 | what the rules of a pod chain do to any packet: destination, port and both marks, for any counters |
| `Iptables.IptablesClient.CreateServiceChain` | pkg/kubelet/proxy/iptables.go:400-406 | a fresh empty chain |
| `Iptables.IptablesClient.CreatePodChain` | pkg/kubelet/proxy/iptables.go:448-454 | a fresh empty chain |
| `Iptables.IptablesClient.ApplyServiceChain` | pkg/kubelet/proxy/iptables.go:408-446 | the entry rule becomes the first of KUBERBOAT-SERVICES, or nothing happens and the call fails |
| `Iptables.IptablesClient.ApplyPodChainRules` | pkg/kubelet/proxy/iptables.go:456-524 | the chain is extended by the mark rules and the rewriting to the pod's address and target port, as far as they are missing, and nothing else changes; it stops at an address that does not parse or at the first rule the kernel refuses |
| `Iptables.IptablesClient.ApplyPodChain` | pkg/kubelet/proxy/iptables.go:526-563 | the pod's rule becomes the first of the service chain with its every-number, or the kernel refuses it because a chain is missing |
| `Iptables.IptablesClient.DeleteServiceChain` | pkg/kubelet/proxy/iptables.go:565-609 | the entry rule goes if it is there, then the chain unless something still jumps to it; without KUBERBOAT-SERVICES the call fails and nothing changes |
| `Iptables.IptablesClient.DeletePodChain` | pkg/kubelet/proxy/iptables.go:611-622 | the chain is deleted exactly when nothing jumps to it |
| `Iptables.IptablesClient.ClearServiceChain` | pkg/kubelet/proxy/iptables.go:624-634 | the service chain is emptied |
| `Iptables.IptablesClient.InitServiceIPTables` | pkg/kubelet/proxy/iptables.go:110-398 | chains, hooks and fixed rules are added as far as they are missing; it fails exactly when a built-in chain is missing |
| `ProxyStart.StartGrows` | pkg/kubelet/proxy/iptables.go:110-398 | a start loses no rule and adds fixed chains and rules only |
| `ProxyStart.StartRefinesIff` | pkg/kubelet/proxy/iptables.go:110-398 | a start leaves the table in step with the empty record exactly when it finds no leftovers of an earlier run |
| `ProxyStart.StartEnters` | pkg/kubelet/proxy/iptables.go:110-167 | arriving packets and those of the host enter the services chain before the host's own rules |
| `ProxyStart.StartRewrites` | pkg/kubelet/proxy/iptables.go:169-398 | leaving packets: the host's with the host mark get the flannel address as source, those marked for masquerading that of their interface, both lose the mark, and all others go on to the host's own rules |
| `ServiceMeta.MetaManager.DeletePodChainFromServiceChain` | pkg/kubelet/proxy/service_manager.go:75-84 | the in-place loop removes exactly the first entry of the pod |
| `ServiceMeta.MetaManager.AddPodChain` | pkg/kubelet/proxy/service_manager.go:47-49 | the entry is appended to its service chain and no other |
| `KubeProxy.KubeProxyInner.CreateService` | pkg/kubelet/kube_proxy.go:75-136 | the nested loops do what Create does; an address of the service that does not parse costs the entry rules only, and at the first pod address that does not parse the call stops in the first port mapping, in the state given |
| `KubeProxy.KubeProxyInner.CreatePort` | pkg/kubelet/kube_proxy.go:89-131 | one port mapping with all its pods, or the state in which it stops |
| `KubeProxy.KubeProxyInner.Join` | pkg/kubelet/kube_proxy.go:93-120 | one pod joins one service chain with the number it is given and is noted as local exactly when it is a pod of this node; a bad address leaves an empty chain behind |
| `KubeProxy.KubeProxyInner.AddPodToServices` | pkg/kubelet/kube_proxy.go:174-234 | the loops do what AddTo does, with the pod noted as local exactly when it is one of this node; unknown services are skipped and reported; an address that does not parse leaves one empty chain per service chain and nothing else |
| `ProxyLoops.LitterToMeans` | pkg/kubelet/kube_proxy.go:187-205 | a pod address that does not parse leaves exactly one empty chain for each chain of the services; record and all other chains are as before |
| `KubeProxy.KubeProxyInner.DeletePodFromServices` | pkg/kubelet/kube_proxy.go:236-283 | the clearing and renumbering loops evict the pod, also from chains that list it repeatedly and with records whose chains are gone, and succeed exactly when every service exists and the last rule put back, if any, was not refused; where no chain lists a pod twice they do what RemoveFrom does |
| `KubeProxy.KubeProxyInner.Leave` | pkg/kubelet/kube_proxy.go:250-275 | one service chain is flushed, the chains of the leaving pod are deleted, the other rules renumbered as far as their chains exist |
| `KubeProxy.KubeProxyInner.DeleteService` | pkg/kubelet/kube_proxy.go:138-172 | the loops do what Delete does: no deletion of a chain is refused by the kernel |
| `ProxyInvariants.AttachRefines` | pkg/kubelet/kube_proxy.go:187-226 | a pod joining a chain keeps: rules are the record reversed with numbers n, ..., 1, every pod chain holds its own DNAT, no jump dangles |
| `ProxyInvariants.DetachRefines` | pkg/kubelet/kube_proxy.go:249-275 | so does a pod leaving a chain that lists it at most once |
| `ProxyInvariants.DropRefines` | pkg/kubelet/kube_proxy.go:149-170 | so does deleting a service |
| `ProxyInvariants.OpenRefines` | pkg/kubelet/kube_proxy.go:89-131 | so does a new empty service chain with its entry rule |
| `ProxyInvariants.OthersIsRemoveIff` | pkg/kubelet/proxy/service_manager.go:75-84 | the record without the first occurrence equals the pods that are re-added exactly when the pod occurs at most once |
| `ProxyRuns.RunRefines` | pkg/kubelet/kube_proxy.go:75-283 | in every state of every run the rule table refines the record and pod names are distinct in every chain |
| `ProxyRuns.DetachRefinesIff` | pkg/kubelet/kube_proxy.go:249-275 | removing a pod keeps rules and record in step exactly when the chain lists it at most once |
| `ProxyEviction.EvictWired` | pkg/kubelet/kube_proxy.go:249-275 | even with repeated pods and stale records, no jump dangles and rules jump to recorded pods only |
| `ProxyEviction.EvictFromRemoves` | pkg/kubelet/kube_proxy.go:236-283 | where no chain lists a pod twice, evicting is removing |
| `ProxyEviction.LiveRulesIff` | pkg/kubelet/kube_proxy.go:250-268 | after an eviction the pod at index i of the remaining list has a rule with number i + 1 exactly when its chain exists |
| `ProxyFailures.DuplicateBreaks` | pkg/kubelet/kube_proxy.go:174-283 | from any state: a service is created, a pod is added twice and removed once; a record is left whose chain does not exist, and the chain of the service leads nowhere |
| `ProxyFailures.AbortedRefinesIff` | pkg/kubelet/kube_proxy.go:93-120 | a creation that stops at an address leaves rules and record in step exactly when it stops at the first pod |
| `ProxyFailures.UnenteredRefinesIff` | pkg/kubelet/kube_proxy.go:122-136 | a service whose own address does not parse leaves rules and record in step exactly when it has no ports |
| `ProxyUndo.DeleteUndoesCreate` | pkg/kubelet/kube_proxy.go:75-172 | creating a service, any adds and deletes of pods on it, then deleting it restores nat table and record, other services' rules and their order untouched |
| `ProxyUndo.DeleteCreated` | pkg/kubelet/kube_proxy.go:138-172 | deleting right after creating restores everything |
| `ProxyFrame.StepElsewhere` | pkg/kubelet/kube_proxy.go:138-172 | deleting a service before or after an operation on others makes no difference, down to the chain numbers |
| `ProxyFrame.DeleteLeavesOthers` | pkg/kubelet/kube_proxy.go:75-283 | creating a service, arbitrary operations on its pods and on other services, and deleting it leave what the operations on the others alone leave |
| `ProxyFrame.AddToSplits` | pkg/kubelet/kube_proxy.go:181-226 | a call that names several services is several calls |
| `ProxyFrame.RemoveFromSplits` | pkg/kubelet/kube_proxy.go:243-275 | the same for removing |
| `RolloutProofs.FewerSound` | pkg/apiserver/deployment/controller.go:198-245 | for n up to the length of the list no nil element is met, whatever deletions fail, and the counters stay right |
| `RolloutProofs.MoreSound` | pkg/apiserver/deployment/controller.go:161-194 | new pods count as replicas only |
| `RolloutProofs.RollingDeletionSafe` | pkg/apiserver/deployment/controller.go:475-482 | a rolling deletion takes no up-to-date pod and leaves min(present, required) ready pods |
| `RolloutTheorems.TickSafe` | pkg/apiserver/deployment/controller.go:361-394 | one tick keeps the surge and availability bounds, whatever fails |
| `RolloutTheorems.ReadySafe` | pkg/apiserver/deployment/controller.go:340-359 | so does a pod that becomes ready |
| `RolloutTheorems.RolloutSafe` | pkg/apiserver/deployment/controller.go:361-394 | over whole rollouts: pods at most max(initial, wanted + maxSurge), ready at least min(initial, wanted - maxUnavailable) |
| `RolloutTheorems.TickProgress` | pkg/apiserver/deployment/controller.go:373-391 | what remains to be done shrinks in a successful tick exactly when there is slack or the size is wrong; a finished rollout stays |
| `RolloutTheorems.RolloutConverges` | pkg/apiserver/deployment/controller.go:373-391 | a rollout ends within as many rounds as there were outdated and missing pods: exactly the wanted number of pods, all ready, each with the labels and the specification of the template |
| `RolloutTheorems.TickReaches` | pkg/apiserver/deployment/controller.go:384-391 | without a rolling update one tick in which everything succeeds makes exactly the wanted number of pods |
| `RolloutTheorems.FewerRemoves` | pkg/apiserver/deployment/controller.go:198-245 | for any n: the first min(n, outdated) outdated pods go, then the last of the remainder, survivors keep their order; a nil element is met exactly when n exceeds the list |
| `RolloutTheorems.FewerFails` | pkg/apiserver/deployment/controller.go:198-245 | with any failures and any n: a nil element is met exactly when the attempts before the last already deleted every pod |
| `RolloutTheorems.RollingKeepsUpdated` | pkg/apiserver/deployment/controller.go:475-482 | a rolling deletion never removes an up-to-date pod, whatever fails |
| `Components.Unlink` | pkg/apiserver/component.go:145-150 | the list loop removes the first element with the name |
| `Components.ComponentManagerInner.DeletePodByName` | pkg/apiserver/component.go:140-160 | the pod leaves the pods and every list |
| `Components.ComponentManagerInner.ListPodsByLabelsAndPhase` | pkg/apiserver/component.go:197-210 | exactly the pods in the phase whose labels include all pairs of the selector, each once |
| `Components.ComponentManagerInner.ListServicesByLabels` | pkg/apiserver/component.go:329-339 | exactly the services all of whose selector's pairs are among the labels, each once |
| `Components.ComponentManagerInner.GetDeploymentByPodName` | pkg/apiserver/component.go:272-284 | the one owner, whatever the order of the walk |
| `Components.ComponentManagerInner.SetDeployment` | pkg/apiserver/component.go:212-221 | deployment and list are set, of every listed name the last pod, and no other pod |
| `Components.ComponentManagerInner.DeleteDeploymentByName` | pkg/apiserver/component.go:223-241 | deployment, list, listed pods and targeting autoscalers go; service lists are not touched |
| `Components.ComponentManagerInner.AddPodToService` | pkg/apiserver/component.go:300-304 | the pod goes to the end of that list |
| `Components.ComponentManagerInner.DeploymentAutoscaled` | pkg/apiserver/component.go:417-427 | whether some autoscaler targets the deployment |
| `Components.IsSubsetLoop` | pkg/api/util.go:44-52 | the loop with early return decides whether all pairs of the one map are in the other |
| `Components.LegacyManagerInner.SetPodLegacy` | pkg/apiserver/legacy.go:36-42 | the legacy names the owner, or is empty |
| `Components.LegacyManagerInner.DeletePodLegacyByName` | pkg/apiserver/legacy.go:44-46 | the legacy goes |
| `Controllers.PodController.CreatePod` | pkg/apiserver/pod/controller.go:90-149 | refused for an existing name; recorded as pending before the kubelet is asked, and left recorded when the kubelet refuses |
| `Controllers.PodController.DeletePodByName` | pkg/apiserver/pod/controller.go:151-181 | legacy first, then the index forgets the pod; a notice is under way |
| `Controllers.PodController.UpdatePodStatus` | pkg/apiserver/pod/controller.go:192-209 | the pod gets the status in memory and etcd, the previous phase is returned, a missing pod is refused |
| `Controllers.DeploymentController.UpdateDeploymentStatusOnPodRemoval` | pkg/apiserver/deployment/controller.go:449-459 | the branches subtract what AfterRemoval subtracts |
| `Controllers.DeploymentController.DeleteDeploymentPod` | pkg/apiserver/deployment/controller.go:396-407 | a successful deletion is expected and subtracted at once |
| `Controllers.DeploymentController.MoreOne` | pkg/apiserver/deployment/controller.go:170-186 | one attempt of the creation loop |
| `Controllers.DeploymentController.MorePods` | pkg/apiserver/deployment/controller.go:161-194 | the creation loop, then the list is written to etcd |
| `Controllers.DeploymentController.FindOutdatedPods` | pkg/apiserver/deployment/controller.go:493-502 | in list order exactly the pods whose labels or specification are not those of the template |
| `Controllers.DeploymentController.FindUpdatedPods` | pkg/apiserver/deployment/controller.go:504-513 | in list order exactly the pods with the labels and the specification of the template |
| `Controllers.DeploymentController.DeleteOutdated` | pkg/apiserver/deployment/controller.go:209-221 | the first loop of fewerPods while the list shrinks under it |
| `Controllers.DeploymentController.DeleteBack` | pkg/apiserver/deployment/controller.go:223-232 | the second loop, and exactly when it meets an empty list |
| `Controllers.DeploymentController.FewerPods` | pkg/apiserver/deployment/controller.go:198-245 | both loops, then the list is written to etcd |
| `Controllers.DeploymentController.ComputeRollingUpdatePodDeletion` | pkg/apiserver/deployment/controller.go:475-482 | the largest number of outdated pods that may go without falling below the required ready pods |
| `Controllers.DeploymentController.ComputeRollingUpdatePodCreation` | pkg/apiserver/deployment/controller.go:484-491 | the largest number of new pods within the surge and the wanted number of up-to-date pods, possibly negative |
| `Controllers.DeploymentController.MonitorOne` | pkg/apiserver/deployment/controller.go:373-392 | the branches of a tick for one deployment |
| `Controllers.DeploymentController.MonitorDeployment` | pkg/apiserver/deployment/controller.go:361-394 | every deployment gets its tick exactly once, in some order |
| `Controllers.DeploymentController.HandlePodDeletion` | pkg/apiserver/deployment/controller.go:324-338 | an expected deletion only stops being expected; another is subtracted from its deployment if that still exists |
| `Controllers.DeploymentController.HandlePodReady` | pkg/apiserver/deployment/controller.go:340-359 | the owner counts the pod, as updated too if it is |
| `Controllers.DeploymentController.HandlePodFail` | pkg/apiserver/deployment/controller.go:307-316 | the owner deletes the pod |
| `ClusterEvents.FailDeletes` | pkg/apiserver/deployment/controller.go:307-316 | a failed pod of a deployment leaves all lists, its deletion is expected and under way; a pod without a deployment, or whose deletion fails, only gets the status |
| `Controllers.DeploymentController.ApplyDeployment` | pkg/apiserver/deployment/controller.go:111-158 | refused when autoscaled, or when the template changes without any slack; otherwise merged or created with zero counters, and the whole specification is in place |
| `Controllers.DeploymentController.DeleteDeploymentByName` | pkg/apiserver/deployment/controller.go:247-276 | ends although deletions fail, and does what DeleteDeployment does |
| `Controllers.DeploymentController.DeleteFront` | pkg/apiserver/deployment/controller.go:260-265 | one attempt at the first pod of the list; a failed one changes nothing |
| `Controllers.DeploymentController.DeleteAll` | pkg/apiserver/deployment/controller.go:259-266 | the loop empties the list in order and ends although deletions fail, as long as one always succeeds later |
| `Server.ServiceController.CreateService` | pkg/apiserver/service/controller.go:66-119 | takes an address, tells the nodes about the service with that address and exactly the ready pods whose labels include the selector's pairs, and records it when the nodes and both writes to etcd succeed; nothing happens for an existing name, the address is used up in any other case, and what etcd holds is said for every failure |
| `Server.ServiceController.DeleteServiceByName` | pkg/apiserver/service/controller.go:121-162 | the service, its list and its keys go, unless a node does not take the call |
| `Server.ServiceController.HandlePodReady` | pkg/apiserver/service/controller.go:241-276 | the nodes are told about exactly the services whose selector's pairs are among the pod's labels, and it goes to the end of exactly their lists; to none when a node does not take the call |
| `Server.ServiceController.HandlePodDeletion` | pkg/apiserver/service/controller.go:278-307 | the services the nodes are told about are those whose selector matches |
| `Server.ApiServer.UpdatePodStatus` | cmd/apiserver/app/server.go:157-183 | status, then the ready event to services and deployment, or the fail event; equal to the state function UpdateStatus |
| `Server.ApiServer.NotifyPodDeletion` | cmd/apiserver/app/server.go:185-194 | the event with the legacy, then the legacy goes; equal to the state function Notify |
| `ClusterSteps.DeleteSound` | pkg/apiserver/pod/controller.go:151-181 | a deletion by a user moves the pod from the list to the deletions to be subtracted; all invariants stay |
| `ClusterSteps.DiscardSound` | pkg/apiserver/deployment/controller.go:396-407 | a deletion by the controller keeps all invariants |
| `ClusterSteps.GrowSound` | pkg/apiserver/deployment/controller.go:170-186 | so does one creation |
| `ClusterHandlers.MonitorHealthy` | pkg/apiserver/deployment/controller.go:361-394 | so does a tick, whatever fails, and the counters of every deployment stay right |
| `ClusterHandlers.ApplyHealthy` | pkg/apiserver/deployment/controller.go:111-158 | applying keeps everything but, when it does not start clean, the counters of that deployment |
| `ClusterHandlers.ApplyIff` | pkg/apiserver/deployment/controller.go:123-149 | resetting counters is right exactly when no counted pod, live or under way, has the new template, or no notice of an old deployment of that name is under way |
| `ClusterEvents.UpdateStatusHealthy` | cmd/apiserver/app/server.go:157-183 | an orderly status report, also of a pod that fails before it was ready, keeps lists, messages and etcd and the counters of every deployment that does not own the pod; a tame one keeps all counters |
| `ClusterEvents.UpdateStatusIff` | cmd/apiserver/app/server.go:162-176 | the owner's counters survive a report exactly when a pod that becomes ready had not failed and otherwise counted pods stay counted and uncounted ones uncounted |
| `ClusterFailures.EarlyFailureHappens` | pkg/kubelet/kubelet.go:243-248 | a run from the start: apply, tick, and a pod that fails before it was ready; the ready counter is 4294967295 |
| `ClusterFailures.RollbackHappens` | pkg/apiserver/deployment/controller.go:127-134 | a run from the start: a template is changed and changed back while a ready pod has it; the updated counter stays wrong |
| `ClusterFailures.RecreationHappens` | pkg/apiserver/deployment/controller.go:324-338 | a run from the start: a deployment is deleted and created again while the notice of its pod is under way; its replica counter becomes 4294967295 |
| `ClusterFailures.PanicHappens` | pkg/apiserver/deployment/controller.go:223-226 | a run from the start after which a tick dereferences nil: a user deletes the only pod and the deployment is applied with no replicas |
| `ClusterDeletion.NotifyHealthy` | cmd/apiserver/app/server.go:185-194 | notices in any order keep all invariants |
| `ClusterDeletion.TeardownSound` | pkg/apiserver/deployment/controller.go:259-266 | the deletion loop takes the pods of the deployment in order and no other |
| `ClusterDeletion.DeleteDeploymentLeavesNothing` | pkg/apiserver/deployment/controller.go:247-276 | no pod of the deployment is live or in any list, no autoscaler targets it, etcd has no record of it, and no other pod is touched |
| `ClusterDeletion.CreateServiceHealthy` | pkg/apiserver/service/controller.go:82-114 | a new service starts with a list that agrees with its selector |
| `ClusterRuns.RunHealthy` | cmd/apiserver/app/server.go:80-219 | in every state of every run, early failures of pods included, lists, messages and etcd agree |
| `ClusterRuns.RunExact` | pkg/apiserver/deployment/controller.go:396-407 | the counters of a deployment are right in every state of every run that is careful about it, whatever happens to other deployments |
| `ClusterRuns.CountersExact` | pkg/apiserver/deployment/controller.go:396-407 | in every state of every run that is careful about the deployment: Replicas is the list plus the deletions to be subtracted, ReadyReplicas and UpdatedReplicas the analogous counts, updated <= ready <= replicas, and the expected deletions are the controller's own that are under way |
| `ClusterListing.MembershipExact` | pkg/apiserver/component.go:197-241 | in every state of every run: the list of a service has no repetitions and only live pods whose labels include the selector's pairs, and every ready one if the nodes took the calls about them; deployment lists are disjoint, without repetition and live, so the owner of a pod is unique |
| `ClusterListing.ReadyCompleteIff` | pkg/apiserver/service/controller.go:241-276 | when a pod becomes ready, a service list that had all ready pods has them all afterwards exactly when the service does not select this pod or the nodes took the call |
| `ClusterRuns.AddPodIff` | pkg/apiserver/pod/controller.go:90-149 | recording a pod keeps the invariants exactly when nothing is recorded or nobody remembers the name: no notice under way and no stored list has it |
| `ClusterRuns.RecoveryRebuilds` | pkg/apiserver/recover/recover.go:47-58 | after any run recovery yields the same pods, deployment names and ordered lists as memory held; it is refused exactly when some deployment has no stored list |
| `ClusterRuns.RecoveryRefused` | pkg/apiserver/recover/recover.go:105-109 | an instance: after a deployment that never had a tick, recovery returns the error of etcd, which answers for a list only if there is exactly one |
| `Recovery.Recover` | pkg/apiserver/recover/recover.go:47-124 | the loops over pods, services and deployments, the error at the first service or deployment without a stored list, and what is in the component manager then: all pods and exactly what came before |
| `Recovery.KnownPods` | pkg/apiserver/recover/recover.go:114-122 | the lookup loop drops names without a pod and keeps the order |
| `Recovery.GetList` | pkg/apiserver/etcd/etcd.go:106-116 | an error unless the key has exactly one value |
| `Recovery.RecoverServices` | pkg/apiserver/recover/recover.go:70-96 | the services before the first without a stored list, with their lists as far as the pods live |
| `Recovery.RecoverDeployments` | pkg/apiserver/recover/recover.go:97-124 | the deployments before the first without a stored list, with their lists as far as the pods live |
| `Recovery.Restart` | pkg/apiserver/recover/recover.go:47-124 | in any state of any run: succeeds exactly when every service and deployment has a stored list; then pods, deployments and their lists are what memory held, services are the stored ones, and no address comes twice |
| `ClusterRollout.MonitorView` | pkg/apiserver/deployment/controller.go:361-394 | a tick of the server is a tick of the rollout model on what the deployment sees; they panic together |
| `RolloutRuns.MonitorPanics` | pkg/apiserver/deployment/controller.go:223-226 | whatever deletions fail, a tick dereferences nil exactly when no rolling update is under way, fewer pods are wanted than counted, and the attempts before the last already deleted the whole list |
| `RolloutRuns.PanicsIff` | pkg/apiserver/deployment/controller.go:223-226 | with right counters no tick panics during a rolling update or while at most as many user deletions are pending as pods are wanted; otherwise a tick whose deletions succeed does |
| `RolloutRuns.MonitorAside` | pkg/apiserver/deployment/controller.go:365-393 | a tick for one deployment leaves every other alone |
| `RolloutRuns.ServerTickProgress` | pkg/apiserver/deployment/controller.go:373-391 | a successful tick of the server makes progress exactly when there is room to move |
| `RolloutSafety.ServerRolloutSafe` | pkg/apiserver/deployment/controller.go:361-394 | the rollout bounds in every state of every run of the server in which nobody interferes with the deployment |
| `RolloutSafety.StepAside` | cmd/apiserver/app/server.go:80-219 | an operation that is not about a deployment or its pods changes nothing the deployment sees |
| `ServerConvergence.ServerRoundIs` | pkg/apiserver/deployment/controller.go:361-394 | a tick of the server in which everything succeeds, followed by the ready reports of the new pods, is one round of the rollout model |
| `ServerConvergence.ServerRolloutConverges` | pkg/apiserver/deployment/controller.go:361-394 | on the server, rounds of a tick and ready reports, among any operations that leave the deployment alone, end a rollout within as many rounds as there were outdated and missing pods: exactly the wanted number of pods, all ready, each with the labels and the specification of the template |
| `RolloutSafety.FreshTemplateStarts` | pkg/apiserver/deployment/controller.go:127-134 | a changed template that no pod has yet is a state from which the bounds hold |
| `RolloutSafety.ApplyMeans` | pkg/apiserver/deployment/controller.go:111-158 | refused exactly when an autoscaler watches, or the template changes and some list of pods would leave the rollout no room to move; an accepted specification is put in place as a whole and written to etcd, other deployments are untouched |
| `RolloutSafety.AppliedOutdated` | pkg/apiserver/deployment/controller.go:127-134 | after an accepted template the whole list is outdated exactly when no pod of it has the template's labels and specification |
| `Drift.MonitorDrifts` | pkg/apiserver/deployment/controller.go:361-394 | while the node hears nothing, service lists lose exactly the pods whose notices are under way |
| `Agreement.StepAgrees` | pkg/apiserver/service/controller.go:241-307 | each step of the server with the node's reaction keeps the agreement, also when the node does not take the call about a ready pod |
| `Agreement.ServerAndNodeAgree` | pkg/apiserver/service/controller.go:82-114 | in every state of every joint run the pods in every chain of every service, without those whose notice is under way, are the server's list in the same order |
| `Traffic.RunPlaced` | pkg/apiserver/service/controller.go:74-93 | in every state of every run the services have different addresses from the assigner, and the node has those addresses and one chain for each port |
| `Locations.RunLocated` | pkg/apiserver/client/client.go:82-110 | in every state of every run in which ready pods keep their addresses, the node has every ready pod under its address and takes for local exactly its own pods |
| `AgreementFailures.ReusedNameLoses` | pkg/apiserver/service/controller.go:241-307 | a run from the start: a pod is deleted and its name comes back before the notice of the deletion arrives; at the end the server lists the ready pod and no notice is under way, but the node's chain leads to no pod |
| `Traffic.ReadyPodsShareTraffic` | pkg/kubelet/kube_proxy.go:75-136 | end to end, with the address assigner: in every state of every run packets to the address the assigner gave a service and to a port of it enter a chain of that port, any round of them sends exactly one to the chain of each ready pod the service selects, and every packet there ends with that pod's address and the target port, whatever the kernel's counters, failed writes and restarts of the assigner |
| `Addresses.TextDiffers` | pkg/apiserver/service/cluster_ip.go:52-53 | different addresses have different dotted texts |
| `Addresses.ParseText` | pkg/apiserver/service/cluster_ip.go:52-53 | reading the four decimals of the text back gives the address, octet by octet |
| `Autoscaling.NoOscillation` | pkg/apiserver/scale/controller.go:87-178 | a settled deployment scaled out at n is not scaled in at n + 1 nor the reverse, for any mix of metrics |
| `Autoscaling.ReachesFixedPoint` | pkg/apiserver/scale/controller.go:87-178 | a fixed point is reached within max - min ticks and kept |
| `Autoscaling.StaysInRange` | pkg/apiserver/scale/controller.go:99-178 | a settled deployment stays within min and max |
| `Autoscaling.WantedInRange` | pkg/apiserver/scale/controller.go:99-178 | the wanted number stays in range when it equals the counted pods |
| `Autoscaling.InRangeIff` | pkg/apiserver/scale/controller.go:99-178 | for any counters: the unsigned wanted number stays in range at every load exactly when it is not at the maximum while growth is possible nor at the minimum while shrinking is, or the range is everything |
| `Autoscaling.RunsAhead` | pkg/apiserver/scale/controller.go:99-178 | k ticks between two ticks of the deployment move the wanted number by k, past any limit and round the end of the unsigned numbers |
| `Autoscaling.TickIsWanted` | pkg/apiserver/scale/controller.go:99-178 | the settled tick is the case in which as many pods are counted, ready and listed as wanted |
| `Autoscaling.OvershootInstance` | pkg/apiserver/scale/controller.go:123-125 | an instance: two pods allowed, three wanted |
| `Autoscaling.UndershootInstance` | pkg/apiserver/scale/controller.go:139-178 | an instance: two idle pods whose deletion does not come through, one wanted; two ticks later 4294967295 are |
| `Autoscaling.VerdictDecides` | pkg/apiserver/scale/controller.go:61-178 | with all pods ready and all usage known the code decides as Decide does |
| `Autoscaling.VerdictMeans` | pkg/apiserver/scale/controller.go:56-178 | the verdict in words: one more exactly when the average of some metric is known and more than a twentieth above its target, within the limits and with all pods ready; one less exactly when the totals of all metrics fit the targets of one pod less |
| `Autoscaling.SumDeploymentCPUUsage` | pkg/apiserver/scale/controller.go:181-192 | the summing loop, failing at the first unknown pod |
| `Autoscaling.CPUAdds` | pkg/apiserver/scale/controller.go:181-192 | one pod gives its usage, and the usage of a list adds up however it is divided |
| `Autoscaling.CPUKnownIff` | pkg/apiserver/scale/controller.go:181-192 | the sum is known exactly when every usage is |
| `Autoscaling.CPUOfEqual` | pkg/apiserver/scale/controller.go:181-192 | equal usages give their multiple |
| `Autoscaling.SumDeploymentMemoryUsage` | pkg/apiserver/scale/controller.go:194-205 | the same for memory |
| `Autoscaling.MemoryAdds` | pkg/apiserver/scale/controller.go:194-205 | the same for memory: one pod, and lists however divided |
| `Autoscaling.MemoryKnownIff` | pkg/apiserver/scale/controller.go:194-205 | the sum is known exactly when every usage is |
| `Autoscaling.MemoryOfEqual` | pkg/apiserver/scale/controller.go:194-205 | equal usages give their multiple |
| `Autoscaling.AutoscalerController.WalkMetrics` | pkg/apiserver/scale/controller.go:87-136 | the first loop over the metrics with its early returns |
| `Autoscaling.AutoscalerController.CountIn` | pkg/apiserver/scale/controller.go:145-170 | the count equals the number of metrics exactly when all want to scale in |
| `Autoscaling.AutoscalerController.MonitorAndScaleDeployment` | pkg/apiserver/scale/controller.go:56-179 | only the wanted number changes, by what the verdict says |
| `Autoscaling.AutoscalerController.CreateAutoscaler` | pkg/apiserver/scale/controller.go:207-231 | refusals change nothing; otherwise the autoscaler is there, the wanted number is brought into its range, and kept if it was there |
| `Autoscaling.AutoscalerController.ClipDeploymentReplicas` | pkg/apiserver/scale/controller.go:233-239 | the number is clipped, and lies in the range when min is at most max |
| `ClusterIP.SuccessorIsPlusOne` | pkg/apiserver/service/cluster_ip.go:32-46 | the octet carry is the successor on 32-bit values, and the range test is 240.0.0.0/4 (section 3.1 of RFC 4632) |
| `ClusterIP.ClusterIPAssigner.NextClusterIP` | pkg/apiserver/service/cluster_ip.go:30-54 | the branches, the error cases and the order of memory and etcd |
| `ClusterIP.ClusterIPAssigner.Recover` | pkg/apiserver/recover/recover.go:60-68 | a restart takes the stored address, or the first |
| `ClusterIP.NeverTwice` | pkg/apiserver/service/cluster_ip.go:30-54 | issued addresses strictly increase through failed writes and restarts and lie in the range |
| `ClusterIP.AllServed` | pkg/apiserver/service/cluster_ip.go:30-54 | without failed writes the i-th request gets the i-th address and exactly 2^28 - 1 are served |
| `Dns.RoutingUnambiguous` | pkg/apiserver/dns/controller.go:123-148 | over any run, and in the configuration of any accepted request, every URI matches locations of at most one object per host |
| `Dns.RoutesToOne` | pkg/apiserver/dns/controller.go:263-273 | the exact and prefix locations of clash-free paths never both match |
| `Dns.AcceptedPrefixFree` | pkg/apiserver/dns/controller.go:123-148 | an accepted request keeps paths of different objects apart, also while an object is being replaced |
| `Dns.AcceptedIff` | pkg/apiserver/dns/controller.go:123-148 | refused exactly when a service does not resolve or some path on the host and some new path continue one another |
| `Dns.PartedAccepted` | pkg/apiserver/dns/controller.go:130-138 | paths that differ at a position both have never cause a refusal |
| `Dns.ServedByOwner` | pkg/apiserver/dns/controller.go:263-273 | after an accepted request a path and everything below it match the locations of its own object and of no other on the host |
| `Dns.HostKnownIff` | pkg/apiserver/dns/controller.go:129-158 | a host is known exactly when an object on it has a path |
| `Dns.DnsController.CreateDNS` | pkg/apiserver/dns/controller.go:109-179 | accepted exactly when all services resolve, no path on the host continues a new one or the reverse, and the configuration is installed; then the object is stored; the key of a new host is published even if the configuration then fails; the locations are exactly those of all old objects and the new one |
| `Dns.DnsController.CheckAgainst` | pkg/apiserver/dns/controller.go:124-140 | the nested loops over one existing object pass exactly when its services resolve and, on the same host, every path differs from every new one at a position both have |
| `Dns.Host2CoreDNSPath` | pkg/apiserver/dns/controller.go:275-290 | the reverse loop builds the key |
| `Dns.KeyInverts` | pkg/apiserver/dns/controller.go:275-290 | the walk back from the key yields the host exactly when the host has no slash |
| `Dns.KeysDiffer` | pkg/apiserver/dns/controller.go:275-290 | distinct slash-free hosts never share a key |
| `Dns.KeysCollide` | pkg/apiserver/dns/controller.go:275-290 | with a slash they do: for any p and q without dots, p/q and q.p have the same key |
| `ResolvConf.UpdateResolvConf` | pkg/kubelet/kubelet.go:171-219 | scan and write loops together compute Update; an empty file stays empty, and no other becomes so |
| `ResolvConf.ScanLines` | pkg/kubelet/kubelet.go:184-201 | the scanning loop with its lagging line number |
| `ResolvConf.LastWriterWins` | pkg/kubelet/kubelet.go:171-219 | a second update leaves no trace of the first, for every file |
| `ResolvConf.EntryComesFirst` | pkg/kubelet/kubelet.go:206-216 | without an anchor all lines survive in order and two are added right before the first name server line, or at the top when there is none |
| `ResolvConf.OnlyEntriesChange` | pkg/kubelet/kubelet.go:191-196 | with an anchor, every line that does not follow one stays at its index, and the file grows by at most a line, at its end |

## Left out

- Thread interleavings: handlers are atomic. The window between a status write and its event, and the race between
  storing a legacy and the kubelet's notice, are not modelled.
- Pointers: a pod object is its entry in the map of pods, and a list holds names. That the source shares one object
  between maps and lists is assumed, not derived.
- Runs of the proxy consist of successful calls on chains without repeated pods; what the other calls leave behind is
  stated for single calls. A partial failure in the middle of a call is an address that does not parse; other kernel
  errors are not modelled.
- etcd and RPC errors inside a handler, other than those that are parameters.
- Recovery of nodes, autoscalers and DNS objects. A service is recovered with the list stored when it was created, since
  later additions are not written to etcd. A run does not go on after a recovery, since legacies and expected deletions
  are lost with the process; the process also ends when recovery is refused.
- PodSucceeded, jobs, the pod monitor of the kubelet, node registration, the scheduler, Describe functions.
- Several nodes with different members of a service: one node is modelled.
- The bytes of resolv.conf: the source does not truncate the file, so a shorter text leaves a tail. Lines are modelled.
- The nginx configuration as text: which locations it has is modelled, not how they are written.
- Rounding of floating point in the autoscaler, and 64-bit overflow of summed memory.
- ProxyRuns.Step: states successful calls only.
- ProxyFrame.DeleteLeavesOthers: a call that names the service together with others counts as several calls, which
  `AddToSplits` and `RemoveFromSplits` justify.
- Agreement.ServerAndNodeAgree: for a node that has been present from the start.
- ServerConvergence.ServerRolloutConverges: in a round every call succeeds and the pending pods become ready before the
  next event; other operations fall between rounds.
- Autoscaler monitors that stop by themselves when their deployment is gone; `DeleteDeployment` removes the autoscaler.
