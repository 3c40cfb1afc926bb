# kvnet: a verified model of the controllers

kvnet is a two-tier reconciler. A manager fans templates (BridgeTemplate, UplinkTemplate, VXLANTemplate)
out into per-node CRs named `{node}.{device}`. One agent per node turns its own CRs into kernel devices,
guarded by a finalizer, and keeps the flood lists of its VXLAN devices. This project models that system
in Dafny and proves what it keeps, what it reaches, and exactly when it does not.

`dafny verify dfyconfig.toml` verifies everything.

## How the model is built

* **Objects and server.** `ApiObjects` has templates, CRs, labels, status and the finalizer;
  `ApiStore` has the server's rules: a write with a stale resourceVersion is refused, deleting an object
  with a finalizer only marks it, dropping the finalizer of a marked object erases it, merge patches carry
  no version check, the generation counts spec changes and deletion.
* **Kernel.** `Kernel` has a node's links with their types and the `ip` and `bridge` commands. Every command may fail;
  `CanSucceed` says when it is able to succeed: the device is there (or, to be created, is not), is of the type the
  setting is for, a master is there, is a bridge or bond and not the device itself, port settings are for bridge
  slaves, VNIs for devices with a VNI filter. Deleting a link releases its slaves. The class `Host` records each attempt.
* **Agents.** `Agents` has the three command pipelines as imperative methods over `Host`. `Programs` has the
  same pipelines as decision trees, and each method is proved to follow its tree. `Asked` reads off the specs
  what they ask for, and shows that runs issue that, in order, and nothing else; `AgentLaws` and `Luck` say what
  every end of a tree means. `PortVlan` is the expansion of VLAN and VNI ranges, `FloodList` the handling
  of remote peers, `NodeLabels` the Node label patches of three controllers on one Node, `Reconciler` a whole
  agent reconcile, imperative, with all its calls.
* **Manager.** `FanOut` has `onChange` and `onDelete` of the template controllers as imperative methods of a
  class over the CRs of one kind; the three controllers differ in type names only. `FanOutLaws` says what
  one run means and when two templates disturb each other. On a reliable server, host or Node a call fails only
  when it cannot succeed; the contracts of the imperative classes say what then must happen. `Admission` is the VXLANTemplate validator.
* **Protocol.** `Protocol` is the whole system as a step machine: both stores, every node's links and labels, one
  worker per manager kind and per agent kind and node. One step is one API call, one command, or one move of a user
  or host. Workers interleave freely, fail, and crash anywhere. `ProtocolInvariant` is what every step keeps;
  `NoLeak`, `SyncSafety`, `ReadyHonest`, `Cascade`, `Drain`, `Ownership`, `FloodHistory` and `Labelling` are about all
  runs of it.
* **Termination.** `Rank` is a potential: per CR name the writes ahead of it, and the creations and deletions of its
  device. `Frames` says what an agent's program depends on and leaves alone. `AgentRank` and `ManagerRank` show what
  each step does to the potential, `Quiescence` that every change lowers it, and `Surroundings` that every orderly
  state meets what this asks for.
* **Convergence.** `Goal` is where the loop ends, `Reports` what a CR says there, `StillAgents`, `StillManagers`,
  `Stretches` and `Rounds` are about stretches of a run without changes, `Settings` and `Applied` about the link
  settings that result, `Flooding` about the flood lists, `Settling` about fair runs, and `Contention` about templates
  that want the same device.
* **The two views agree.** `Reconciler` proves that an imperative agent reconcile, undisturbed, is a run of the
  machine's worker. `ManagerRound` proves that an undisturbed round of the machine's template worker reaches
  what the imperative fan-out reaches.

## What the code does not promise

Each of these is a lemma with the exact condition or a run that shows it.

* A failing `ip link del` or CR delete is ignored before the finalizer is dropped; the device or the CR then
  stays behind (`SwallowedDeleteLeaks`, `SwallowedDeleteStrandsCr`). The theorems about leaks and cascades assume
  that these two calls fail only when there is nothing to delete.
* A VXLAN can be reported Ready for a spec that was never applied: the status patch that records the local IP
  refreshes the in-memory generation. `ReadyIsHonest` says exactly when: the CR was edited between the agent's read and
  that patch. `VxlanReadyCanLie` is a run from every state in which the device can be brought up.
* An agent that starts before the master of its device exists reports a failure (`UndisturbedRunEnds` has the exact
  verdict); nothing but a later reconcile mends it.
* Two templates of one kind that want the same device on a node rewrite its CR in every turn, without any failure
  and without end (`TwoOwnersNeverSettle`); no run that serves both ever comes to rest (`ContestedNeverRests`).
* Runs of two templates commute exactly when no CR that one wants still carries the other's labels, or that CR
  is already on its way out or as good as new (`RunsCommuteIff`, and `RenamedDeviceDoesNotCommute` for a template that
  takes over the device another has given up).
* The VXLANTemplate validator covers neither a negative `vni` in the CR spec nor a template switched to external
  mode while an agent acts on the older CR (`SyncedIDPositiveIff`, `SwitchToExternalGivesZero`). As it also
  judges the controller's own updates, a VXLANTemplate being deleted is let go only while a BridgeTemplate for its
  master exists (`ReleasedIffMasterRemains`).
* `README.md` of the repository says that `vidEnd` maps a range of VLANs to a range of VNIs; where ranges overlap
  the last mapping wins, and nothing bounds the numbers (`TunnelIsLastMatch`, `BoundsIffEndpoints`).

## Assumptions

* Reads are linearizable, and every controller has one worker.
* Users give templates dot-free device names, leave kvnet's labels and finalizers alone, and create CRs by hand
  only with the node label of the node in their name and without template labels. They may do anything else at any moment.
* Anything on a host may change or remove links, but does not write flood lists of existing devices and does not
  pass for the agent.
* A port's VLAN state is a last-write-wins map and a device's VNI filter a set; `bridge vlan add` and `bridge vni add`
  only ever add to them.
* Selected nodes, the template's VXLANID as looked up by the agent and the address found on an interface are
  inputs of the steps that read them.
* The theorems on termination and convergence (`Quiescence`, `Settling`, `Applied`, `Flooding`) speak of the time after users and hosts fall silent: the
  selection and the two lookups have constant answers, selectors are valid, configuring commands fail only when they
  cannot succeed, no name in play is used by two kinds, and no bond lists a device named by a CR as its slave. Workers
  may be in the middle of anything, with copies and lookups as old as may be.

## Model

| member | source | states |
|---|---|---|
| Names.ParseInvertsJoin | internal/helper/helper.go:30-36 | For all strings: parsing a CR name with a node gives a device exactly when the name is that node, a dot and that device |
| Names.CollisionIffShifted | internal/controller/vxlantemplate_controller.go:107-108 | Two node and device pairs share a CR name exactly when they are equal or one device continues the other's node name past a dot |
| Names.OwnerIsUnique | internal/helper/helper.go:30-36 | With dot-free devices a CR name parses on one node only |
| Names.WellNamedIffOwner | internal/helper/helper.go:30-36 | A name parses to a dot-free device on a node exactly when the part before its last dot is that node |
| Names.DottedNodeIsAmbiguous | internal/helper/helper.go:30-36 | The prefix test alone accepts the CR of node `a.b` on node `a` |
| PortVlan.RetryAbsorbs | internal/helper/helper.go:77-105 | From any port, the first k commands followed by all of them give the port that all of them give |
| PortVlan.RetriesAbsorb | internal/helper/helper.go:77-105 | Any number of attempts that stop anywhere, followed by a complete one, give the failure-free port |
| PortVlan.TunnelIsLastMatch | internal/helper/helper.go:90-102 | After the nested loops each VLAN has the VNI of the last mapping whose range holds it; a VLAN in no range keeps what it had |
| PortVlan.TunnelKeepsOtherCells | internal/helper/helper.go:90-102 | The tunnel commands leave PVID and VLAN membership alone |
| PortVlan.WrittenIff | internal/helper/helper.go:77-105 | The commands of a configuration lead from one port to another exactly when the PVID is the configured one or, without one, the old; every listed VLAN is tagged, the PVID's VLAN otherwise untagged, every other as before; and each VLAN in a range has the last range's VNI, every other the one it had |
| PortVlan.CommandCount | internal/helper/helper.go:90-102 | The number of tunnel commands is the sum of the range lengths, empty ranges counting nothing |
| PortVlan.FilterIssuesTunnelVnis | internal/controller/vxlan_controller.go:205-219 | The filter loop adds the VNIs of the tunnel loop, in the same order |
| PortVlan.FilterAdmitsTunnels | internal/controller/vxlan_controller.go:205-219 | However early the port commands stop, every VNI they tunnelled to is in a filter that was filled |
| PortVlan.FilterEqualsTunnels | internal/controller/vxlan_controller.go:205-219 | From empty state and disjoint VLAN ranges, the filter holds exactly the tunnelled VNIs |
| PortVlan.DisjointTunnels | api/v1alpha1/shared_types.go:34-47 | From an empty port and disjoint VLAN ranges the map is exactly the union of the ranges |
| PortVlan.IsolationIff | internal/helper/helper.go:90-102 | With disjoint VLAN ranges, no two VLANs share a VNI exactly when the VNI ranges are disjoint |
| PortVlan.BoundsIffEndpoints | internal/helper/helper.go:90-102 | Every emitted pair is within 1..4094 and 24 bits exactly when the two end pairs of every non-empty range are |
| Agents.ApplyTunnels | internal/helper/helper.go:90-102 | The nested loops issue the expansion of the list in order, stop at the first failure, and leave the port with the commands before it |
| Agents.ApplyPortVlanConfig | internal/helper/helper.go:77-105 | PVID, VLANs and tunnels in this order, the first failure ends it, the port holds exactly the commands before it and nothing else changed; after a success the port reads as the configuration says |
| Agents.BridgeOnChange | internal/controller/bridge_controller.go:76-117 | On every pattern of failures the commands issued are a path of the bridge's decision tree that ends with the reported verdict |
| Agents.UplinkOnChange | internal/controller/uplink_controller.go:75-129 | The same for the bond, whose slave commands may fail without effect on the verdict; a success has set down and enslaved every listed slave, in the order of the list, before the bond was raised |
| Agents.AttachSlaves | internal/controller/uplink_controller.go:100-106 | Every slave is set down and enslaved in order, failures ignored |
| Agents.VxlanOnChange | internal/controller/vxlan_controller.go:80-98 | The same for the VXLAN: create, configure, port settings; success comes with the address: the explicit one, else the one found on the interface, else none |
| Agents.EnsureVxlanDevice | internal/controller/vxlan_controller.go:120-153 | An existing device keeps its mode; a device made is external with the spec's filter flag, or has the spec's own VNI, or without one the ID of the template |
| Agents.ConfigureVxlanDevice | internal/controller/vxlan_controller.go:155-203 | Address, MTU, master, learning, up and filter in order; learning and filter failures do not count; the address returned is the explicit one, else the one found on the interface, else none |
| Agents.ApplyVniFilter | internal/controller/vxlan_controller.go:205-219 | Every VNI of every range is tried in order, whatever fails |
| Agents.ApplyBridgeSlaveSettings | internal/controller/vxlan_controller.go:221-242 | Nothing unless the device is a bridge slave; then learning, ignored on failure, and the port configuration |
| Asked.BridgeIssuesOnly | internal/controller/bridge_controller.go:76-117 | No run of a bridge issues a command that its spec does not ask for |
| Asked.SlavesAreTried | internal/controller/uplink_controller.go:100-120 | Every successful run sets each listed slave down and then enslaves it, in the order of the list, and raises the bond after that |
| Asked.UplinkIssues | internal/controller/uplink_controller.go:75-128 | Every successful run issues mode, slaves, master, the raising and the question about the bridge, in this order |
| Asked.UplinkIssuesOnly | internal/controller/uplink_controller.go:75-128 | No run of a bond issues a command that its spec does not ask for: its own settings, the two commands for a listed slave, the port commands of its configuration |
| Asked.VxlanIssues | internal/controller/vxlan_controller.go:155-219 | Every successful run issues address, MTU and master if the spec has them, the learning flag it has, the raising, every VNI of the filter if there is one, and the question about the bridge, in this order |
| Asked.VxlanIssuesOnly | internal/controller/vxlan_controller.go:120-242 | No run of a VXLAN issues a command that its spec does not ask for: mode, flag and ID of a creation, address, MTU, master, both learning flags, VNIs and port commands are those of the spec and the two lookups |
| Asked.FailuresAreNamed | internal/controller/vxlan_controller.go:120-242 | A run that fails reports the reason that belongs to the last command it issued, which failed, or that of a VXLAN lookup that was needed and had no answer |
| AgentLaws.BridgeReadyMeansConfigured | internal/controller/bridge_controller.go:76-127 | After every successful run the link is a bridge with exactly the spec's settings and is up |
| AgentLaws.UplinkReadyMeansConfigured | internal/controller/uplink_controller.go:75-138 | After every successful run the device has its mode and a master that is there and takes slaves, is up, and its port is untouched or reads as the configuration says, on a bridge |
| AgentLaws.VxlanReadyMeansConfigured | internal/controller/vxlan_controller.go:80-203 | After every successful run the device has the explicit address, else the one found on its interface, else the local address it had; a device the run made has the mode, filter flag and ID that spec and template call for, and one that was there keeps its mode; MTU and a master that takes slaves are set, it is up, and its port is untouched or reads as the configuration says |
| AgentLaws.FilterAdmitsAtEveryEnd | internal/controller/vxlan_controller.go:196-203 | If the filter commands succeed, the filter admits every installed tunnel at every end of the run, also when it stopped early |
| Luck.UndisturbedRunEnds | internal/controller/vxlan_controller.go:120-203 | A run whose commands fail only when they cannot succeed ends with the verdict that the links, the spec and the lookups decide before it: success exactly when the device is absent or of the right type, the lookups it needs have an answer and its master, if any, is there to take it; otherwise the one reason that fails first |
| FloodList.OnRemoteChange | internal/controller/vxlan_controller.go:244-288 | For a remote VXLAN labelled for a template, whatever fails, only flood lists of existing devices of this node's CRs labelled for the same template change, and only by the announced address; if nothing fails needlessly all of them flood to it |
| FloodList.TouchTwice | internal/controller/vxlan_controller.go:278-280 | Repeating an event for a device changes nothing |
| FloodList.FloodListConfluence | internal/controller/vxlan_controller.go:244-288 | For any sequence of events, in any order and with repeats, a device has its old destinations plus all announced ones, none twice |
| FloodList.OrderDoesNotMatter | internal/controller/vxlan_controller.go:244-288 | Two sequences that announce the same addresses agree on the destinations |
| FloodHistory.FloodsComeFromPeers | internal/controller/vxlan_controller.go:57-77 | In every reachable state each destination of an agent-made device was the recorded address of another node's VXLAN, at a moment since the device exists, and that VXLAN and the device's own CR were labelled for one and the same template name and namespace |
| FloodHistory.NoDeviceFloodsToItself | internal/controller/vxlan_controller.go:244-288 | An address only ever recorded for a node's own CRs is never a flood destination of that node's devices |
| FanOut.Api.CreateOrUpdate | internal/controller/vxlantemplate_controller.go:110-124 | The CR becomes the wanted one, keeping status, finalizer and other labels; a CR already as wanted is not written; a failure changes nothing |
| ApiObjects.SyncedForOne | internal/controller/vxlantemplate_controller.go:110-124 | Remark: a synced CR is labelled for its template's name and namespace alone, and for the node; other labels are kept |
| FanOut.Api.SyncAll | internal/controller/vxlantemplate_controller.go:105-128 | All selected nodes' CRs are on target, or the first failure ends it with every CR untouched or on target |
| FanOut.Api.DeleteOrphans | internal/controller/vxlantemplate_controller.go:130-149 | Exactly the CRs with the template's labels that are not desired are deleted, apart from those whose delete failed |
| FanOut.Api.OnChange | internal/controller/vxlantemplate_controller.go:89-152 | On every pattern of failures: no delete before all syncs of the run, none of a synced CR, Ready=True last and only after success; each CR untouched or on target; on a reliable server success with all on target, unless the selector is invalid |
| FanOut.Api.OnDelete | internal/controller/vxlantemplate_controller.go:69-87 | The finalizer is given up last; if no delete failed, every CR left with the labels is marked terminating; no CR without the labels changes and none appears; on a reliable server it succeeds and no delete fails |
| FanOutLaws.RunIsExact | internal/controller/bridgetemplate_controller.go:91-156 | After a successful run each selected node has its CR with labels and spec, all others with the labels are terminating or gone, every CR neither desired nor labelled is unchanged, agents' parts survive |
| FanOutLaws.SettledIsStable | internal/controller/bridgetemplate_controller.go:91-156 | A run on a settled template writes nothing |
| FanOutLaws.SecondRunChangesNothing | internal/controller/bridgetemplate_controller.go:91-156 | A second run after a successful one changes no CR, whatever fails during it |
| FanOutLaws.DesiredAreDisjoint | internal/controller/uplinktemplate_controller.go:106-124 | Templates with different dot-free devices never want the same CR |
| FanOutLaws.RunIsRan | internal/controller/uplinktemplate_controller.go:89-152 | Whatever a successful run reaches is, up to resourceVersions, a function of the CRs before it |
| FanOutLaws.RunsCommuteIff | internal/controller/uplinktemplate_controller.go:89-152 | The stores reached by successful runs of two templates in the two orders have the same CRs exactly when each CR wanted by one and labelled for the other is terminating or like a new one |
| FanOutLaws.RenamedDeviceDoesNotCommute | internal/controller/uplinktemplate_controller.go:89-152 | For every template that takes over the device another one was renamed away from, with that one's CR still held, the two orders end in different CRs |
| ManagerRound.RoundReaches | internal/controller/vxlantemplate_controller.go:89-152 | An undisturbed round of the step machine's template worker, in any list order, reaches the fan-out specification and settles the template |
| Reconciler.Agent.Reconcile | internal/controller/vxlan_controller.go:51-78 | An undisturbed reconcile is the machine worker's get of this CR followed by no other get, with the same CRs, links and Node labels; where everything is reliable the worker goes on without failure or crash until it is idle |
| Reconciler.Agent.OnChange | internal/controller/vxlan_controller.go:80-118 | The commands, the Node label, the local IP patch and the condition are the machine's configuration run of this CR, to its end where everything is reliable |
| Reconciler.Agent.RecordLocalIP | internal/controller/vxlan_controller.go:106-113 | The machine's step: the patch's answer replaces the in-memory CR; after a failed patch the changed copy is kept; on a reliable server it does not fail |
| Reconciler.Agent.OnDelete | internal/controller/vxlan_controller.go:290-305 | Link deletion with ignored failure, the Node label, then the finalizer: the machine's teardown of this CR, to its end where everything is reliable; there neither the device nor its Node label is left |
| Reconciler.Agent.HearOf | internal/controller/vxlan_controller.go:244-288 | The remote handler is the machine's run over all peers of this CR, to its end where everything is reliable |
| NodeLabels.DeviceLabelInjective | internal/controller/bridge_controller.go:146-163 | Controllers of different kinds, or of one kind for different devices, never write the same label |
| NodeLabels.PatchTouchesOneKey | internal/controller/vxlan_controller.go:321-338 | Remark: a label patch is about its own key at most |
| NodeLabels.PatchIsEditIff | internal/controller/vxlan_controller.go:321-338 | A patch computed from an older copy amounts to the edit exactly when the copy differed from it or the Node still agrees with it |
| NodeLabels.EditsCommute | internal/controller/uplink_controller.go:157-174 | Remark: edits of different labels commute |
| NodeLabels.NodeApi.LabelNode | internal/controller/vxlan_controller.go:321-338 | Undisturbed it makes exactly its edit, or nothing when a call fails |
| Labelling.LabellingIsSerializable | internal/controller/bridge_controller.go:146-163 | In every behaviour of the whole system the labels of a Node are those of one sequential order of the controllers' and others' edits, and a patch in flight would have exactly its edit's effect |
| ProtocolInvariant.StepKeepsInv | internal/controller/vxlan_controller.go:51-118 | Every step of anyone keeps: copies are current or too old to be written, CR names belong to their node, a CR being configured or torn down is stored with its finalizer |
| ProtocolInvariant.RunKeepsInv | internal/controller/vxlan_controller.go:51-118 | Hence every reachable state satisfies it |
| NoLeak.NoLeakedDevice | internal/controller/vxlan_controller.go:290-305 | In every reachable state each device an agent made on a node has its CR stored with the finalizer |
| NoLeak.SwallowedDeleteLeaks | internal/controller/vxlan_controller.go:295-304 | A link deletion that fails with the link in place leaves the device without a CR |
| NoLeak.WorkerActsOnItsDevice | internal/controller/vxlan_controller.go:290-305 | In every reachable state the one link a configuring worker may create, or a tearing-down worker deletes, is the dot-free device its CR is named after |
| NoLeak.AgentActsOnItsDevice | internal/controller/bridge_controller.go:55-59 | In every reachable state the CR of a node and dot-free device is labelled for that node, parses to that device there, and passes no other node's test |
| SyncSafety.SyncKeepsAgentState | internal/controller/vxlantemplate_controller.go:110-128 | In every reachable state a sync keeps every CR stored with the finalizer, the status and the deletion mark it has |
| SyncSafety.AgentNeverRevertsSpec | internal/controller/vxlan_controller.go:65-70 | No step of an agent changes the spec, labels, generation or deletion mark of a CR it leaves stored |
| SyncSafety.StaleSyncIsRefused | internal/controller/vxlantemplate_controller.go:110-128 | Remark: a sync from a copy older than the last write leaves the store alone |
| ReadyHonest.MustsSucceeded | internal/controller/bridge_controller.go:76-127 | In a finished run every command whose error is not swallowed was issued in order and succeeded |
| ReadyHonest.ReadyIsHonest | internal/controller/vxlan_controller.go:106-118 | In every behaviour, whenever an agent is about to report Ready=True its trace is a finished run of its spec's program on its device; the generation reported is that of another spec exactly when at an earlier moment this worker patched the local IP of a CR whose spec was no longer the one it ran, which no bridge or uplink worker does |
| ReadyHonest.UneditedIsHonest | internal/controller/vxlan_controller.go:106-118 | Under any interleaving, if the CR has the spec of the run whenever its agent stands before that patch, the generation reported is that of the spec that was run |
| ReadyHonest.EditBeforePatchMakesReadyLie | internal/controller/vxlan_controller.go:106-118 | An edit right before that patch ends with the CR ready for the edited spec |
| ReadyHonest.VxlanReadyCanLie | internal/controller/vxlan_controller.go:106-118 | From every reachable state with an unrecorded address, an idle agent and a device that can be brought up, one reconcile with one such edit ends ready for a spec no reconcile has read |
| Cascade.CascadeIsSafe | internal/controller/vxlantemplate_controller.go:69-87 | In every reachable state a template that is gone or has lost its finalizer has no live CR with its labels |
| Cascade.SwallowedDeleteStrandsCr | internal/controller/vxlantemplate_controller.go:79-86 | A CR delete that fails with the CR in place leaves it live after its template is gone |
| Drain.RemovedTemplateDrains | internal/controller/vxlan_controller.go:290-305 | From every reachable state with the template gone, whatever the agents are doing and without any hypothesis on lookups, selection or names, their own steps can go on until none of its CRs and none of their devices is left |
| Drain.TeardownErases | internal/controller/vxlan_controller.go:290-305 | From every state satisfying the invariant an idle agent's undisturbed teardown of a terminating CR leaves neither the CR nor its device nor its Node label |
| Ownership.NeverDeletesAnothers | internal/controller/uplinktemplate_controller.go:126-149 | In every reachable state a step for one template neither marks nor removes a CR labelled for another, and rewrites it only to sync its own device name |
| Rank.ClaimIsUnique | internal/controller/vxlantemplate_controller.go:105-124 | With distinct dot-free device names a CR name is wanted by one template at most |
| Frames.EndAlike | internal/controller/vxlan_controller.go:120-242 | Links that agree on which devices there are, their types and the own master lead a run to the same end, whatever their other settings |
| Quiescence.StepDescends | internal/controller/vxlantemplate_controller.go:89-152 | With users and hosts silent, every step of any worker that changes a CR, a template, a Node label or which links there are lowers a natural number, and no step raises it |
| Quiescence.ChangesAreBounded | internal/controller/vxlan_controller.go:51-118 | Over any interleaving the number of such changes is at most the potential of the first state |
| Quiescence.LoopTerminates | internal/controller/vxlantemplate_controller.go:169-189 | From every reachable state, with workers in flight at any point and with any old copies, the loop through CRs, templates, Node labels and links makes finitely many changes, with a bound that the state decides |
| Surroundings.StateHasSurroundings | internal/controller/vxlantemplate_controller.go:89-124 | What the theorems on termination ask for holds of every state satisfying the invariant in which live templates of one kind that select a common node name different devices, no name in use, asked for or about to be used serves two kinds, and no bond spec in use lists one of these devices |
| Surroundings.OrderlyLoopTerminates | internal/controller/vxlantemplate_controller.go:169-189 | Hence the bound for every such reachable state, computed from the state, the selections and the lookups' answers |
| Rounds.RunsEndAsPredicted | internal/controller/vxlan_controller.go:80-203 | While nothing changes, every run an agent starts ends with the verdict read off the links before it, from nothing but the constant lookups and commands that do not fail needlessly |
| Rounds.QuietAgentRoundIsDone | internal/controller/vxlan_controller.go:51-118 | In an interleaved stretch without changes, a CR whose reconcile is served is live and has its finalizer, device, address, Node label and right condition |
| Rounds.QuietManagerRoundIsDone | internal/controller/vxlantemplate_controller.go:48-152 | In such a stretch a template whose reconcile is served is live, has its finalizer and condition, all its wanted CRs and no other live ones |
| Settling.QuietMeansGoal | internal/controller/vxlantemplate_controller.go:89-152 | A stretch without changes that serves every reconcile is at the goal of the whole system |
| Goal.GoalIsStable | internal/controller/vxlantemplate_controller.go:89-152 | At the goal with idle workers no interleaving ever changes anything again |
| Reports.ConfiguredIsReported | internal/controller/vxlan_controller.go:106-118 | A CR that is configured is live with its finalizer and reports, for its own generation, success or the one reason its configuration ends with |
| Reports.ConfiguredFromSpec | internal/controller/vxlan_controller.go:80-118 | If that is success its device is there, its Node carries the label of the device, which is a VXLAN's master, removed without one, and "true" for the others, and a VXLAN's recorded address is the explicit one, else the one found |
| Settling.FairRunsSettle | internal/controller/vxlantemplate_controller.go:169-189 | From every reachable state, of the serving stretches of a run at most as many as the potential says change anything, and all others are at the goal |
| Settings.EndLinksSame | internal/controller/vxlan_controller.go:120-242 | Links that agree on which devices there are, their types and the run's own device lead the run to the same own device, whatever is set on the others |
| Settings.UplinkSets | internal/controller/uplink_controller.go:75-138 | A run without needless failures that succeeds leaves the bond up with mode and master, on a bridge with the whole VLAN configuration, and every listed slave that is there and is not the bond itself set down and enslaved to it |
| Settings.VxlanSets | internal/controller/vxlan_controller.go:80-242 | Such a run of a VXLAN leaves it up with the explicit address, else the one found, with MTU, master and learning flag, and on a bridge with the bridge learning flag and the whole VLAN configuration |
| Applied.QuietAgentRoundSets | internal/controller/vxlan_controller.go:80-118 | In an interleaved stretch without changes, at the end of every served reconcile of a CR whose verdict is success its device is up and has all the settings of the spec, on a bridge port the whole VLAN configuration, and a bond all its slaves that no other stored bond of the node lists |
| Settling.FairRunsApplySettings | internal/controller/vxlan_controller.go:80-118 | In a fair run all but boundedly many serving stretches reconcile every CR whose device can be brought up, each time leaving the device with all its settings |
| Flooding.FloodsAreComplete | internal/controller/vxlan_controller.go:244-288 | In a stretch without changes, a node whose VXLAN worker has handled every recorded VXLAN of other nodes floods from each of its VXLAN devices to the recorded addresses of all that are labelled for the device's template |
| Settling.FairRunsDrain | internal/controller/vxlan_controller.go:290-305 | Every fair run drains a removed template: one of so many serving stretches begins with none of its CRs and none of their devices left |
| Contention.TwoOwnersNeverSettle | internal/controller/vxlantemplate_controller.go:110-124 | From every state in which two live templates of one kind select a common node with one device name, their manager's reconciles, without crash or failure, rewrite that CR any number of times |
| Contention.ContestedNeverRests | internal/controller/vxlantemplate_controller.go:110-124 | Every stretch of any run that serves two such templates, whoever else does whatever in it, changes something |
| Admission.ValidateMasterIsBridge | internal/webhook/v1alpha1/helpers.go:29-47 | No master, or the bridge name of a listed BridgeTemplate, is accepted; a list that cannot be had and a master that is not in it are refused, each with its own reason |
| Admission.AdmittedIff | internal/webhook/v1alpha1/vxlantemplate_webhook.go:87-99 | A VXLANTemplate is admitted exactly with a device name, a positive ID unless it is external, and no master or that of a listed BridgeTemplate; a missing name is told first, then the ID |
| Admission.AdmittedIsNamed | internal/webhook/v1alpha1/vxlantemplate_webhook.go:88-90 | Remark: on every node the CR of an admitted template stands for a device with a name |
| Admission.CreationIDIs | internal/controller/vxlan_controller.go:137-152 | The ID of a creation is the CR's own VNI, or that of the template its labels name; without such a template there is none |
| Admission.CreationIDPositiveIff | internal/webhook/v1alpha1/vxlantemplate_webhook.go:87-99 | Remark: with an admitted template stored, a device is created with a positive ID exactly when the CR's VNI is positive, or unset while the template is not an external one without an ID |
| Admission.SyncedIDPositiveIff | internal/controller/vxlan_controller.go:137-152 | Remark: for a CR in step with its admitted template this fails for a negative VNI only |
| Admission.SwitchToExternalGivesZero | internal/controller/vxlan_controller.go:307-319 | Remark: a template switched to external without an ID is admitted and gives ID 0 to an agent that acts on the CR synced before |
| Admission.ReleasedIffMasterRemains | internal/controller/vxlantemplate_controller.go:85-86 | Remark: the update that lets a deleted template go is admitted exactly when a BridgeTemplate for its master is still there |

## Left out

- Go's 64-bit `int`: numbers are unbounded, so wrap-around of VLAN, VNI or range arithmetic is not modelled.
- Command execution and output parsing: a command is its effect on the links or a failure; `ip -d link` is reduced to "is a bridge slave", `net.InterfaceByName` to an input.
- Kernel effects and refusals beyond those named above: duplicate routes of one flood entry, limits on MTU or VLAN numbers, what enslaving a device resets, bond modes refused while the bond is up or has slaves, port flags that VLAN tunnels need, the PVID a port loses when that VLAN is added again without flags.
- Stale VLANs, flood entries of removed peers and changed creation fields of existing VXLAN devices: the code does not clean them up, and nothing here says it does.
- Label selectors: the selected nodes are an input; termination is stated for valid selectors whose selection does not change, which rules out selectors on labels the agents write.
- CRs created by hand without a node label, or with that of another node than the one in their name: the agents of this model never meet one.
- Informer caches, work queues, retries with back-off, leader election and watches: any worker may read any stored object at any time.
- Condition messages and transition times, and finalizers other than kvnet's.
- Two runs of one controller at a time: each controller has one worker, so runs of two templates of one kind follow one another.
- The manager's imperative reconcile in one method with the finalizer of the template: FanOut has onChange and onDelete, and the step machine has the rest of Reconcile.
- Quiescence.LoopTerminates: counts which links there are and of what type, but not their settings and flood entries, which agents write again in every reconcile; where these end up is stated by Settling.FairRunsApplySettings and Flooding.FloodsAreComplete.
- Contention.TwoOwnersNeverSettle: gives the runs in which the CR is rewritten; for other schedules Contention.ContestedNeverRests says that something changes, not how often this CR does.
- Agents.VxlanOnChange: takes the template lookup and the detected address as inputs instead of calling the server and the host.
- The Bridge, Uplink and VXLAN webhooks and all defaulters: they accept everything and change nothing. The validators of BridgeTemplate and UplinkTemplate are the same checks in smaller form.
- `cmd/main.go`, deployment manifests, scripts and generated code.
