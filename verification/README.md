# Katl: verified models of the operator protocols

This project models, in Dafny, the parts of Katl whose correctness is about whole runs rather than
single calls, and proves what they promise.

- **Cluster protocols of katlctl.** The Kubernetes rollout (`Rollout`, `RolloutHistory`), the rotation
  of the management authority (`RotationWorld`, `Rotation`, `RotationHistory`), quorum-safe etcd member removal and
  the node wipe that uses it (`Inventory`, `Etcd`, `Wipe`), and the two-phase cluster apply with its
  node orders (`ClusterOrder`, `ClusterApply`). Each stops at the first failure and is meant to be
  run again, so the main statements are about any number of interrupted runs.
- **The journal ring of katl-console** (`JournalLine`, `JournalRing`): one byte array carved into
  slots, a bounded copy at a character boundary, an in-place timestamp compaction and a tail
  selection. It refines "the last N stored lines".
- **The installer discovery pool** (`Discovery`): producer, workers, closer, collector and timeout as
  a transition system over every interleaving.
- **Release tooling.** Write-once tag promotion (`Promotion`), the release manifest reader and
  rewriter (`ReleaseManifest`), the release-notes splice (`ReleaseNotes`), the partial package-lock
  refresh (`PackageLock`) and the CI test planner (`TestPlan`).

`Results`, `Order` and `Text` hold what the models share: option and result values, Go's string
order and sorting, and the operations of Go's `strings` package.

Node agents, kubectl, SSH, the registry and files are an environment. Its replies are parameters and
may be anything unless a lemma names what it asks of them; a request whose reply is lost may or may
not have taken effect. Losing the workstation at some point is a failure reply at the next step.
State that the source keeps outside its own process (agents, registry, etcd membership) is a value
passed from step to step; the ring, which the source updates in place, is a class over an array.

Five things that do not always hold of the code come with the condition under which they do:

- What a slot shows depends only on the line put there, except that a line longer than the slot
  leaves bytes of an older line visible behind the truncation marker exactly when a character
  straddles the cut (`JournalLine.StaleTail`; `JournalRing.OldByteShows` stores two messages in one
  slot and shows such a byte).
- The plain manifest syntax reads a rewritten value back exactly when it has no trailing space, no
  outer quote and no substitution; the quoted syntax carries every value
  (`ReleaseManifest.LineRoundTrip`, with `ReleaseManifest.TrailingSpaceIsLost`).
- A second run of the release-notes command reproduces the first for every section without an inner
  verification heading when the stripped notes do not begin with the legacy heading; for the
  sections the builder makes it does so only then (`ReleaseNotes.SecondRun`, with
  `ReleaseNotes.LegacyTwice`).
- Rotations keep the nodes together, whatever old requests they act on late, as long as no run brings
  in an authority that an earlier request expects (`RotationHistory.AnyRuns`; a rotation repeated
  with one output always meets this, `RotationHistory.RotateToOutput`). Rolling back to an earlier
  authority can split them: three runs in which nothing but the last rename fails do it to any idle
  cluster of several nodes that was never rotated (`RotationHistory.RollBackSplits`, with the concrete one of
  `RotationHistory.RollBackHappens`). From a settled idle cluster of several nodes in which
  nothing competes with the replacement, a run can split them exactly when some request takes a
  node from the replacement anywhere but back to the configured authority
  (`RotationHistory.CanSplit`); going back and forth between two authorities never does
  (`RotationHistory.BackAndForth`).
- An edit of the config made while a rotation runs always survives when it lands before the
  comparison; between the comparison and the rename it survives exactly when the rename fails or
  the edit changes nothing (`Rotation.ReferenceSecrets`).

## Model

| member | source | states |
|---|---|---|
| `Rollout.ConnectTargets` | cmd/katlctl/kubernetes_upgrade.go:561-684 | the planner returns exactly the declarative plan of the ordered fleet, or the error the first failing check names |
| `Rollout.Survey` | cmd/katlctl/kubernetes_upgrade.go:639-665 | the survey loop refuses exactly mixed sources and a worker ahead of a pending control plane, and reports whether a control plane runs the target |
| `Rollout.AssignRoles` | cmd/katlctl/kubernetes_upgrade.go:666-683 | the role loop gives the pending nodes in order the roles of the plan |
| `Rollout.DryRunAll` | cmd/katlctl/kubernetes_upgrade.go:213-230 | succeeds exactly when every target accepts its dry run; the dry runs sent are those up to the first refusal |
| `Rollout.PrepareAll` | cmd/katlctl/kubernetes_upgrade.go:230-252 | success means complete evidence from every control plane, all naming one etcd cluster and one target image; the requests are exactly those up to the first reply that falls short |
| `Rollout.SubmitAndWait` | cmd/katlctl/kubernetes_upgrade.go:298-362 | a node moves only after its upgrade request was sent; success means it moved and a control plane rejoined |
| `Rollout.RunTarget` | cmd/katlctl/kubernetes_upgrade.go:273-362 | the requests of one node in order; scheduling is restored exactly when this run changed it |
| `Rollout.UpgradeAll` | cmd/katlctl/kubernetes_upgrade.go:257-268 | the requests are, node by node, those of the planned targets with their planned roles, up to the first node that does not work; the cluster moves along the plan, the failing node exactly when its request took effect |
| `Rollout.PassGate` | cmd/katlctl/kubernetes_upgrade.go:213-256 | going on means every dry run was accepted, every control plane is prepared and `--plan` is off; the trace is exactly the dry runs and preparations up to the reply that stops it |
| `Rollout.Upgrade` | cmd/katlctl/kubernetes_upgrade.go:134-271 | a whole run ends with the planner's error and sends nothing, or runs the plan: outcome, trace and cluster are decided by the replies, completion moves every target, the upgrade requests are a prefix of the planned (name, role) pairs, none before the gate, and every cordon that took effect is undone before the next |
| `Rollout.RanMeans` | cmd/katlctl/kubernetes_upgrade.go:134-271 | what the exact trace of a run means: requests with their roles follow the plan behind the gate, versions change only along it, scheduling is restored |
| `Rollout.RequestsFollowPlan` | cmd/katlctl/kubernetes_upgrade.go:298-314 | the upgrade requests are the planned (name, role) pairs in order: all nodes that work, and of the rest at most the one begun |
| `Rollout.RequestsRestore` | cmd/katlctl/kubernetes_upgrade.go:273-296 | over a whole run every cordon that took effect is followed by an uncordon of that node before another is cordoned, and only such nodes are uncordoned |
| `Rollout.GatedTrace` | cmd/katlctl/kubernetes_upgrade.go:213-268 | a trace whose gate part holds all dry runs and preparations and no upgrade is safe whatever follows |
| `RolloutHistory.ResumeIsContinuation` | cmd/katlctl/kubernetes_upgrade.go:639-684 | after any number of interrupted runs the nodes at target are a prefix of the order, no refusal is reached, and each rerun plans exactly the rest of the first plan with the same roles |
| `RolloutHistory.WorkersNeverAhead` | cmd/katlctl/kubernetes_upgrade.go:662-665 | over such histories a worker at target means every control plane is at target |
| `RolloutHistory.ApplyIsTheFirstControlPlane` | cmd/katlctl/kubernetes_upgrade.go:666-683 | in any state a plan gives `apply` exactly to the first control plane of the order when no control plane is at target |
| `RolloutHistory.RunAppliesFirst` | cmd/katlctl/kubernetes_upgrade.go:666-683 | over a run `apply` is sent at most once, as the first upgrade request, and to the first control plane of the order |
| `RolloutHistory.OrderedFleet` | cmd/katlctl/kubernetes_upgrade.go:562-568 | the planner's order is control planes first, then by name, and is the only such arrangement |
| `RolloutHistory.AnyUpgrades` | cmd/katlctl/kubernetes_upgrade.go:134-271 | over any number of runs of the command, each stopped anywhere, the fleet stays a prefix of the order and never goes back, each run's requests follow its plan and send `apply` only to the first control plane, no run is refused for mixed versions or a worker ahead, and a run that reports completion leaves every node on the target |
| `Rotation.RotateOnNode` | cmd/katlc/management_rotation.go:40-90 | a dry run succeeds exactly if the request is admissible and answered and changes nothing; a request succeeds exactly if it is also carried out to its end; the disk moves only from the expected authority to the replacement, and the agent serves what it served before or what is on disk |
| `Rotation.Replacement` | cmd/katlctl/management_rotation.go:183-230 | an existing output file is never overwritten and is reused exactly if it fits; otherwise the replacement is saved there, and the failure of every step is named |
| `Rotation.Preflight` | cmd/katlctl/management_rotation.go:151-156 | passes exactly along accepted dry runs of every node in order, sends no request and changes no node except as an earlier request allowed; if it succeeds and no request leads out of the pair of old and new authority, every disk holds one of the two |
| `Rotation.Verify` | cmd/katlctl/management_rotation.go:364-377 | success means the agent accepted the replacement, refused the former authority and accepted the replacement again, in this order; it stops at the first that goes the wrong way |
| `Rotation.RotateAll` | cmd/katlctl/management_rotation.go:165-174 | from any world the nodes are asked one at a time and only for the one replacement, each verified before the next; the trace says where it stopped; success means every node was asked and verified and has the replacement on disk and in its agent unless the agent stopped since or a request that expects it took the node away |
| `Rotation.Switchover` | cmd/katlctl/management_rotation.go:147-177 | from any world requests are sent only after every node accepted its dry run, and a node that refuses ends the switch with nothing sent; the config's reference changes only after every node was verified on the replacement; a settled world stays settled unless the replacement is in reuse |
| `Rotation.Rotate` | cmd/katlctl/management_rotation.go:76-181 | a whole run from any world reaches the nodes exactly if nothing refuses it, sends requests only if every node's dry run is admissible and answered, changes no saved file, moves disks along requests only, changes the reference only when all nodes were verified on the replacement, and completes when nothing stands in the way; unless the replacement is in reuse it keeps every node on the configured authority or one saved replacement, each disk moving at most once |
| `RotationWorld.DriftKeeps` | internal/nodeidentity/rotation.go:56-126 | restarts, crashes and late switches keep the safety invariant, and a disk moves only from the configured authority as a request addressed to that node says |
| `RotationWorld.OneReplacement` | cmd/katlctl/management_rotation.go:165-174 | in a settled world all nodes off the configured authority share one replacement |
| `RotationWorld.SettledMoves` | internal/nodeidentity/rotation.go:56-126 | in a settled world a disk moves at most once, from the configured authority, as an earlier request says or to the authority being rotated in |
| `Rotation.ReferenceSecrets` | cmd/katlctl/management_secrets.go:237-258 | succeeds exactly when the file is what the run read and the rename works; says for each concurrent edit whether it survives |
| `RotationHistory.AnyRuns` | cmd/katlctl/management_rotation.go:76-230 | over any number of runs toward any outputs, nodes acting late on old requests during and between them: no secrets file changes, disks move along requests only, a run with nothing in its way finishes; and until a request goes out for an authority in reuse the nodes are at every point not split and every authority in use is in a saved file |
| `RotationHistory.BackAndForth` | cmd/katlctl/management_rotation.go:76-230 | over any runs between two authorities, reused or not, the nodes are never split and every authority in use is saved |
| `RotationHistory.ReuseSplits` | cmd/katlctl/management_rotation.go:76-230 | a run of the command toward an authority that some request leaves for a third, whose last rename fails, followed by that request: two nodes on different authorities off the configured one |
| `RotationHistory.CanSplit` | cmd/katlctl/management_rotation.go:76-230 | a run and the drift after it can split the nodes exactly when some request takes a node from the replacement anywhere but back to the configured authority |
| `RotationHistory.RollBackSplits` | cmd/katlctl/management_rotation.go:76-230 | three runs from a cluster that was never rotated, the last back to its first authority, end with split nodes |
| `RotationHistory.RollBackHappens` | cmd/katlctl/management_rotation.go:76-230 | a concrete cluster of two nodes to which those three runs apply |
| `RotationHistory.RotateToOutput` | cmd/katlctl/management_rotation.go:76-230 | over any number of runs with one output, with late requests, at every point every disk and agent is on the old authority or the saved replacement and the config references it only when all nodes run it; a run with nothing in its way finishes |
| `RotationHistory.UnderwayResumes` | cmd/katlctl/management_rotation.go:76-181 | whatever earlier runs with that output did, nothing is in the way of a helpful run on idle nodes |
| `Inventory.PlanInventory` | cmd/katlctl/main.go:1591-1614 | accepts exactly inventories with unique nonempty names and known roles; the first offending node names the error |
| `Inventory.WipeTargets` | cmd/katlctl/main.go:1560-1589 | selects exactly the distinct named nodes in order, or names the first name that fits none; `partial` says exactly whether a node is spared |
| `Inventory.SelectCoordinator` | cmd/katlctl/etcd.go:236-260 | the requested surviving control plane, or the first by name, never the excluded node; an error only when there is none |
| `Etcd.PlanRemoval` | cmd/katlctl/etcd.go:196-233 | decides exactly by the first member that carries the name or peer URL, and removes, accepts absence or refuses under exact conditions; a removal with a confirmed identifier is of that member |
| `Etcd.PlanEtcdRemoval` | cmd/katlctl/etcd.go:170-234 | the plan's target is a configured control plane, its coordinator another one, and the decision is justified by the coordinator's report and of the confirmed member; it succeeds exactly when that report decides |
| `Etcd.RemovalKeepsQuorum` | cmd/katlctl/etcd.go:219-233 | an accepted removal does not wrap, is not the coordinator's member, does not empty the membership and leaves a healthy strict majority |
| `Etcd.ObjectionExact` | cmd/katlctl/etcd.go:214-233 | for counters that agree with the members nothing is objected exactly if the member is the confirmed one, not the coordinator's own, and healthy majorities stand before and after |
| `Etcd.MembershipSurvives` | cmd/katlctl/etcd.go:196-233 | over any run of removals and health changes membership never empties, identities stay distinct and never return |
| `Etcd.EveryRemovalIsSafe` | cmd/katlctl/etcd.go:196-233 | at every removal of a run the member is gone for good, the coordinator stays, survivors keep a healthy majority, and majorities before and after meet |
| `Etcd.MajoritiesMeet` | cmd/katlctl/etcd.go:225-233 | any majority before a removal shares a member with any majority after it |
| `Etcd.ResumeAfterRemoval` | cmd/katlctl/etcd.go:207-213 | a repeated wipe after its removal finds the member gone exactly when no other member carries its name or peer URL |
| `Wipe.SubmitResets` | cmd/katlctl/main.go:1721-1826 | every reachable known node is asked once in order whatever the others do, and the call succeeds exactly when all of them do |
| `Wipe.Leave` | cmd/katlctl/main.go:1248-1285 | success is exactly that the planned etcd member is removed and the Node object deleted, after best-effort cordon and drain; requests and effects are those up to the step that fails |
| `Wipe.PlanCleanup` | cmd/katlctl/main.go:1188-1224 | an enrolled control plane gets a justified etcd plan or the run is refused; nothing else needs one |
| `Wipe.WipeNode` | cmd/katlctl/main.go:1140-1295 | done is exactly: preflight and plan good, no `--plan`, a kubeconfig and leaving where needed, and a reset that was sent, accepted, finished unless not waited for, and closed; requests are a prefix of the fixed script, the reset last, and their effects are exact |
| `Wipe.RemovedMeansAbsent` | cmd/katlctl/main.go:1249-1272 | after a justified removal the target's name and peer URL are absent from etcd and members remain |
| `Wipe.AbsentAllows` | cmd/katlctl/etcd.go:207-213 | once the member is absent a healthy quorum is enough for the next run's plan, which removes nothing |
| `Wipe.WipeAgain` | cmd/katlctl/main.go:1140-1295 | a run cut short anywhere after the removal took effect is completed by a prepared run that asks etcd for nothing; an unhindered first run already leaves the target wiped and out of etcd |
| `Wipe.CooperativeAnswers` | cmd/katlctl/main.go:1140-1295 | agents that meet what the repeated run asks exist wherever another control plane can coordinate |
| `Wipe.CooperativeFair` | cmd/katlctl/main.go:1140-1295 | the same agents meet what wipes among many ask |
| `Wipe.AnyWipes` | cmd/katlctl/main.go:1140-1295 | over any number of wipes every reset of an enrolled node follows its Node deletion, every reset control plane is out of etcd, members remain, and each unhindered wipe is done |
| `ClusterOrder.OrderControlPlanes` | cmd/katlctl/kubeadm_control_plane_config.go:895-911 | the others by name, then the coordinator: a permutation of uniquely named nodes, failing exactly when there is no such coordinator |
| `ClusterOrder.OrderKubeletNodes` | cmd/katlctl/kubeadm_control_plane_config.go:913-927 | the coordinator, then the others by name: a permutation of uniquely named nodes |
| `ClusterOrder.SelectConfigNodes` | cmd/katlctl/kubeadm_control_plane_config.go:504-520 | the selected nodes in configuration order, failing exactly when a name is unknown |
| `ClusterOrder.DefaultCoordinator` | cmd/katlctl/kubeadm_control_plane_config.go:324-332 | the last selected control plane by name, or the last of all when none is selected |
| `ClusterOrder.ComponentNodes` | cmd/katlctl/kubeadm_control_plane_config.go:308-357 | the requested or default coordinator and the component's order narrowed to the selection, available exactly when the request fits the inventory, and otherwise which of the three misfits is reported |
| `ClusterOrder.NarrowedOrder` | cmd/katlctl/kubeadm_control_plane_config.go:335-357 | with its coordinator selected the narrowed order is the component's order of the selected nodes: coordinator last or first, others by name, exactly the selected ones |
| `ClusterOrder.NarrowedOthers` | cmd/katlctl/kubeadm_control_plane_config.go:335-357 | without its coordinator the narrowed order is the selected others by name, and empty for kube-proxy |
| `ClusterApply.ValidateAll` | cmd/katlctl/kubeadm_control_plane_config.go:585-707 | succeeds exactly when every selected node passes; nodes are asked in order up to the first that does not |
| `ClusterApply.SubmitAll` | cmd/katlctl/kubeadm_control_plane_config.go:723-778 | submissions go to the changed nodes in order up to the first that is not accepted; it succeeds exactly when every one is accepted |
| `ClusterApply.Activate` | cmd/katlctl/kubeadm_control_plane_config.go:530-795 | validations, then submissions, exactly up to what stops them; a submission only without `--plan` and when all selected nodes passed and are uniformly bootstrapped or not; it succeeds exactly when nothing stops it |
| `ClusterApply.RunComponent` | cmd/katlctl/kubeadm_control_plane_config.go:373-462 | dry runs up to the first refusal, and applications only after every target was inspected and accepted its dry run, up to the first failure; it succeeds exactly when the component goes through on all targets |
| `ClusterApply.RollOut` | cmd/katlctl/kubeadm_control_plane_config.go:308-462 | the requests of a component are those of its run over its order under the requested or default coordinator; success means it was rehearsed and applied on the whole order |
| `ClusterApply.PartsSafe` | cmd/katlctl/kubeadm_control_plane_config.go:139-216 | rolling components out one after the other behind a safe activation keeps the whole trace safe |
| `ClusterApply.EarlierStagesWhole` | cmd/katlctl/kubeadm_control_plane_config.go:139-216 | requests of a component are sent only if every earlier due one was started, rehearsed, applied on its whole order and completed |
| `ClusterApply.ApplyCluster` | cmd/katlctl/kubeadm_control_plane_config.go:112-225 | a coordinator that is not selected or not wanted stops the command before anything is sent; otherwise the trace is the activation and then whole stages in the fixed order, up to the first component that fails; every mutating request follows all validations, every application its dry run, nothing mutates with `--plan`, components wait for reboots and bootstrap; success means every submission was sent and each due component rolled out; with nothing in the way it succeeds |
| `JournalLine.StaleTail` | cmd/katl-console/main.go:301-312 | the stored line depends only on the added line exactly when it fits or no character straddles the cut |
| `JournalLine.TruncationKeepsCharacters` | cmd/katl-console/main.go:301-312 | for valid UTF-8 longer than a slot the kept prefix ends between characters, at most three bytes early, followed by the marker |
| `JournalLine.ScannerFinds` | cmd/katl-console/main.go:314-357 | the scanner accepts every stamped line, finds its parts and rewrites them as specified |
| `JournalLine.CompactMeaning` | cmd/katl-console/main.go:314-357 | compaction is exactly the rewriting of a stamped line, whose reading is unique, and leaves every other line alone |
| `JournalLine.CompactOnce` | cmd/katl-console/main.go:314-357 | compaction never lengthens a line and is idempotent |
| `JournalLine.TrimMeans` | cmd/katl-console/main.go:266-287 | trimming keeps the slice that neither starts nor ends with an encoding of white space and has only such encodings around it |
| `JournalRing.CopyBounded` | cmd/katl-console/main.go:301-312 | the in-place copy equals the specification and touches only its window |
| `JournalRing.ScanTimestamp` | cmd/katl-console/main.go:314-345 | the index scan agrees with the scanner's specification |
| `JournalRing.CompactInPlace` | cmd/katl-console/main.go:314-357 | the overlapping in-place move equals the pure compaction and writes nothing behind it |
| `JournalRing.Ring.constructor` | cmd/katl-console/main.go:256-264 | an empty ring of `limit` disjoint windows with full capacity |
| `JournalRing.Ring.NextLine` | cmd/katl-console/main.go:289-299 | claims the next or oldest slot and cuts its slice, keeping its capacity |
| `JournalRing.Ring.Place` | cmd/katl-console/main.go:266-299 | fills one slot; no other slot's window or slice changes |
| `JournalRing.Ring.Add` | cmd/katl-console/main.go:266-276 | drops exactly the lines of white space only; otherwise the ring shows the newest lines of the history extended by the slice left between the white space at both ends, bounded and compacted |
| `JournalRing.Ring.AddString` | cmd/katl-console/main.go:278-287 | as `Add`, without compaction |
| `JournalRing.Ring.Lines` | cmd/katl-console/main.go:400-406 | reading slots oldest to newest gives the stored lines |
| `JournalRing.Ring.WriteTail` | cmd/katl-console/main.go:387-408 | writes, oldest first, the longest newest suffix that fits, and the newest line whenever a row is free |
| `JournalRing.ViewPush` | cmd/katl-console/main.go:289-299 | filling the claimed slot appends to what the ring shows and drops the oldest line only when full |
| `JournalRing.HistoryPush` | cmd/katl-console/main.go:266-299 | the ring keeps showing the last `limit` stored lines |
| `JournalRing.TailUnique` | cmd/katl-console/main.go:387-408 | the specified tail is unique |
| `JournalRing.OldByteShows` | cmd/katl-console/main.go:278-312 | two concrete messages into a ring of one slot leave a byte of the first on show behind the second |
| `Discovery.Reachable` | cmd/katlctl/install_discover.go:221-260 | the accounting and closing-order invariant holds in every reachable state of every interleaving |
| `Discovery.NeverBlocks` | cmd/katlctl/install_discover.go:222-237 | a worker with a result can always send it and never finds the channel closed |
| `Discovery.ProbedAtMostOnce` | cmd/katlctl/install_discover.go:228-249 | a distinct candidate is in at most one of a running probe, the found and the failed |
| `Discovery.ReturnsExactlyTheFound` | cmd/katlctl/install_discover.go:250-262 | on return the list is exactly the successful probes sorted by endpoint, all workers have exited, and in a run without the timeout every candidate was probed |
| `Discovery.NeverStuck` | cmd/katlctl/install_discover.go:227-260 | before it has returned some action other than the timeout is enabled |
| `Discovery.RunsEnd` | cmd/katlctl/install_discover.go:227-260 | no schedule runs for ever |
| `Promotion.TagsApart` | cmd/katl-kubernetes-release/automation.go:84-88 | no tag serves two stable versions and the three tags of one version differ |
| `Promotion.Promote` | cmd/katl-kubernetes-release/automation.go:134-163 | nothing is written unless the version is stable, all three tags are readable and free of another digest and the manifest resolves; then tags are written in the fixed order up to the first that is not written and confirmed, and it succeeds exactly if none is |
| `Promotion.AttemptKeeps` | cmd/katl-kubernetes-release/automation.go:134-163 | wherever it stops no tag moves, only tags of its version appear, and every version's tags stay staged in writing order on one digest |
| `Promotion.AnyPromotions` | cmd/katl-kubernetes-release/automation.go:134-163 | over any attempts, each stopped anywhere, tags are write-once and staged, at every point a plain version tag means all three aliases name its digest, and each attempt goes exactly as far as its replies let it |
| `Promotion.Retry` | cmd/katl-kubernetes-release/automation.go:134-163 | once an attempt wrote a tag, no attempt with another digest gets in its way and a helpful retry completes it |
| `ReleaseManifest.KeyShape` | cmd/katl-kubernetes-release/main.go:569-583 | the key of an assignment is part of its line and free of the separator |
| `ReleaseManifest.LineRoundTrip` | cmd/katl-kubernetes-release/main.go:569-598 | a rewritten line reads back its key and value exactly when it is quoted or the value is clean |
| `ReleaseManifest.TrailingSpaceIsLost` | cmd/katl-kubernetes-release/main.go:569-598 | a concrete line and value for which the plain syntax loses a trailing space |
| `ReleaseManifest.ReadValues` | cmd/katl-kubernetes-release/main.go:549-554 | the loop fills the map in which later assignments win |
| `ReleaseManifest.ReplaceValues` | cmd/katl-kubernetes-release/main.go:585-607 | succeeds exactly when every key has an assignment line, and then rewrites exactly those lines |
| `ReleaseManifest.RewriteThenRead` | cmd/katl-kubernetes-release/main.go:549-607 | the rewritten text reads as the old values overridden, other lines are unchanged and a second rewrite changes nothing |
| `ReleaseNotes.DropInserted` | cmd/katl-mkosi-artifacts/release_notes.go:154-161 | dropping the packages section takes out again any inserted one that holds no verification heading |
| `ReleaseNotes.SpliceMeans` | cmd/katl-mkosi-artifacts/release_notes.go:146-166 | the splice takes out a legacy table at the front and the first packages section, puts the new section before the first verification heading of the rest, and changes nothing else |
| `ReleaseNotes.SpliceSucceeds` | cmd/katl-mkosi-artifacts/release_notes.go:146-166 | it succeeds whenever such a rest with a verification heading exists |
| `ReleaseNotes.SecondRun` | cmd/katl-mkosi-artifacts/release_notes.go:146-166 | for every section without an inner verification heading a second run reproduces the first and stripping gives back the stripped notes, unless these begin with the legacy heading; for builder sections it then differs |
| `ReleaseNotes.LegacyTwice` | cmd/katl-mkosi-artifacts/release_notes.go:147-153 | a concrete input for which the second run differs |
| `ReleaseNotes.SectionShaped` | cmd/katl-mkosi-artifacts/release_notes.go:116-140 | from one-line names and versions the builder makes a section of the shape the splice relies on |
| `ReleaseNotes.SectionLists` | cmd/katl-mkosi-artifacts/release_notes.go:128-140 | read line by line the section has a row for every package, in order, and for every extension, by name, each with its own version, and no further line |
| `ReleaseNotes.KernelColumns` | cmd/katl-mkosi-artifacts/release_notes.go:118-127 | in the kernel table each flavour has one column with its name at the head and its kernel version below |
| `ReleaseNotes.WalkOrderDoesNotShow` | cmd/katl-mkosi-artifacts/release_notes.go:133-140 | the walk order of the extension map does not show |
| `PackageLock.PackageSetNames` | cmd/katl-resource-lock/main.go:451-464 | accepts exactly nonblank, distinct names and returns them trimmed, or names the fault of the first that is not |
| `PackageLock.MergeSets` | cmd/katl-resource-lock/main.go:392-417 | the set loops compute the merge by name |
| `PackageLock.MergeProfiles` | cmd/katl-resource-lock/main.go:418-441 | the profile loops compute the merge by name |
| `PackageLock.Validate` | internal/resourcetest/packagelock.go:251-294 | validation accepts exactly nonempty locks with distinct names and defined references whose entries pass their own checks |
| `PackageLock.RefreshedPackageLock` | cmd/katl-resource-lock/main.go:370-449 | without a selection the fresh lock; otherwise success exactly under the stated conditions, with the valid merge and the fresh tools as result, and each failure with the error of the first condition that fails |
| `PackageLock.RefreshedValid` | cmd/katl-resource-lock/main.go:418-449 | the merge is valid exactly when no profile that stays has the name of one that comes and some profile remains |
| `PackageLock.RefreshedWellFormed` | cmd/katl-resource-lock/main.go:370-449 | every entry of the merge passes the checks its origin passed |
| `PackageLock.SetsAfterRefresh` | cmd/katl-resource-lock/main.go:392-417 | lookup gives the fresh set if selected and the existing one otherwise; existing sets keep their places and new ones follow in fresh order |
| `PackageLock.ProfilesAfterRefresh` | cmd/katl-resource-lock/main.go:418-441 | profiles of selected sets are exactly the fresh ones, the others are untouched and in order |
| `PackageLock.RefreshTwice` | cmd/katl-resource-lock/main.go:370-449 | refreshing again is the identity |
| `TestPlan.SelectGroups` | cmd/katl-vmtest-plan/main.go:175-204 | the loop with its early return selects exactly the groups some path asks for, in table order |
| `TestPlan.SelectionJoins` | cmd/katl-vmtest-plan/main.go:175-204 | the groups of two path lists together are the table-ordered union of their groups |
| `TestPlan.SelectionGrows` | cmd/katl-vmtest-plan/main.go:175-204 | more paths never select less |
| `TestPlan.PathOrderDoesNotShow` | cmd/katl-vmtest-plan/main.go:175-204 | order and repetition of paths do not show |
| `TestPlan.BatchGroups` | cmd/katl-vmtest-plan/main.go:154-173 | the two lanes hold the joined tests of their package |
| `TestPlan.BatchKeepsTests` | cmd/katl-vmtest-plan/main.go:154-173 | every single test occurs in the batches exactly as often as in the selected groups |
| `TestPlan.PlanCI` | cmd/katl-vmtest-plan/main.go:105-152 | the plan collected by the loops is the declarative plan of the paths |
| `TestPlan.OneKernelChange` | cmd/katl-vmtest-plan/main.go:111-120 | a change to one flavour's kernel lock plans that flavour's VM and driver and no other, and after the merge both VMs and no driver |
| `TestPlan.ExtensionChange` | cmd/katl-vmtest-plan/main.go:121-123 | a change to an extension plans both VMs and both drivers |
| `TestPlan.PackageChange` | cmd/katl-vmtest-plan/main.go:124-126 | a change to a runtime package plans both VMs and no driver |
| `TestPlan.DocsChange` | cmd/katl-vmtest-plan/main.go:107-110 | a change to the documentation plans nothing, before and after the merge |
| `TestPlan.RotationChange` | cmd/katl-vmtest-plan/main.go:175-204 | a change to the rotation command plans the standard VM with the management tests alone |
| `TestPlan.FlavoursJoin` | cmd/katl-vmtest-plan/main.go:105-130 | flavours of two path lists together are the union of their flavours |
| `TestPlan.PlanGuarantees` | cmd/katl-vmtest-plan/main.go:105-152 | VM flavours are planned exactly when groups are, driver flavours only on planned VMs and never after a merge, and no selected test is lost or doubled |
| `Order.LessMeans` | cmd/katlctl/kubernetes_upgrade.go:562-568 | the string order by which nodes are sorted: the first difference decides and a proper prefix comes first |
| `Text.TrimSpaceMeans` | cmd/katl-resource-lock/main.go:451-464 | trimming keeps the slice that neither starts nor ends with white space and has only white space around it |
| `Text.TrimsMean` | cmd/katl-resource-lock/main.go:451-464 | the same of each name of a list, which keeps its length |
| `Text.TrimOnce` | cmd/katl-resource-lock/main.go:451-464 | there is only one such slice |

## Left out

- Flags, help text, tables, JSON and YAML output and progress messages, except where a failed progress write stops a run.
- gRPC, SSH, SOPS, OCI, dnf, git and systemctl calls: they are replies of the environment.
- RotationHistory.AnyRuns: the nodes of the config are the same in all runs; an operator who adds or removes a node between two runs is not covered.
- Certificates, keys, digests and TLS: authorities and digests are opaque values; per-node certificates and the periodic checks of exposed credentials are not modelled.
- The YAML editing of the management reference (cmd/katlctl/management_secrets.go:181-236): the rest of the config is one opaque value.
- The enumeration of candidate addresses (cmd/katlctl/install_discover.go:265-291): candidates are an arbitrary list.
- Wall-clock time: a timeout may fire at any step, and nothing is said about durations.
- JournalRing.Ring.WriteTail: reads the slots into a sequence before it selects, where the source indexes them directly; the writer's row budget is fixed during the call.
- Etcd.PlanRemoval: compares member identifiers ignoring ASCII case only, where the source folds Unicode case; identifiers are hexadecimal.
- Etcd.PlanEtcdRemoval: takes the peer URL of an address as a function, since splitting and joining host and port belong to Go's net package.
- Wipe.WipeNode: starts from the resolved target, whose name is trimmed by `Inventory.WipeTargets`; resolving it from a workstation context (cmd/katlctl/main.go:1325-1354) is not modelled.
- Wipe.AnyWipes: assumes that members joining etcd between wipes do not reuse a wiped node's name or peer URL; joins are not modelled.
- ClusterApply.ApplyCluster: covers the form with a ClusterConfig; the form with a bare inventory and a given generation skips activation and is not modelled.
- ReleaseNotes.SectionShaped: takes the fixed sentence under the heading as a parameter; reading package lists and comparing flavours (cmd/katl-mkosi-artifacts/release_notes.go:40-115) are not modelled.
- PackageLock.Validate: takes the checks of a single set's or profile's own fields (internal/resourcetest/packagelock.go:266-288) as a parameter.
- Boot health, generation activation, kubeadm planning, bundle compilation and the rest of the build tooling: they would add only easy members or live in code this model treats as environment.
