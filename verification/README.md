# Composable resource operator: a verified model

The operator reconciles two custom resources. A `ComposabilityRequest` asks for a number of devices of one
type and model, on one node or spread over nodes. A `ComposableResource` stands for one device and drives it
from the fabric onto its node and back. This project models the allocator, both lifecycles, the copy of each
resource's status kept in its request, the upstream syncer, device claiming in the cluster-manager client, the
token cache, the admission webhook and the GPU drain, and proves properties of whole runs of them.

`dafny verify dfyconfig.toml` checks the project.

## How the model is built

- Handlers that change things step by step are classes with methods (`RequestReconciler`, `ResourceReconciler`,
  `UpstreamSyncer`, `CachedToken`, `DrainRunner.Session`) or methods with loops (matching, priority removal,
  placement, claiming, listing, admission). Each method is proved equal to a specification function, and the
  theorems are about those functions and about runs of them.
- What each of these functions means is stated without naming it, over the stored fields, the answers and the
  text: `MatchMeaning`, `PlacementMeaning` and `AllocationMeaning` for an allocation pass, `RequestDiagram` and
  `ResourceMeaning` for the passes of the two controllers, `DrainText` and `DrainOutcome` for the drain.
- What the environment decides is data of the step: list orders, map iteration order, clock readings, lookup
  answers, the number of object writes that succeed before one fails, and the fate of every status write. No
  theorem assumes that a write succeeds unless it says so. `requeueOnErr` writes back the whole in-memory
  status, so a failed allocation keeps the entries it has already forgotten.
- In the cluster model one event is one whole pass of a handler, one half of a mirror pass (read, then write), or
  one write by somebody else. One worker per controller, reads that see the current store, and generated names
  that are not in use are assumed; so is that no user names a request like a stored resource, a tracked name or
  one with an update queued. Garbage collection of a request whose target node vanished is the deletion
  event; its failures are the error event.
- Objects that carry a request's label are made by that request's own passes, and labels never change; the
  absence of orphans rests on this.
- The queue of resource updates lives in memory and only updates enter it, so a restart of the operator would
  lose what is queued. The mirror theorems assume that there is none.
- `fair` predicates name what a run theorem asks of the environment. The mirror asks for `Undisturbed`;
  exclusivity asks for `Prudent`, which `CalmRuns` shows to follow from undisturbed runs with settled edits.
  `Composition` reduces both to `Obedient` and `Lawful`. `Guarantee` proves that every reconcile of a resource is
  a run of cluster events, an obedient one while the node is there, and `Joint` puts both controllers on one store
  and proves the theorems over every interleaving of whole reconciles. What remains assumed there, for the mirror,
  is that nobody else deletes a resource that a request still wants and that nodes stay; `Unguarded` says what the
  mirror keeps with none of this assumed. For exclusivity it is only that no edit makes a request float and that
  allocations are steady. `CycleRun` shows that the first turn of a request and any number of edits are a lawful
  joint run, in which the removed devices go through the whole detach. `Ownership` puts the cluster-manager
  provider and `SyncerRun` the upstream syncer on the same store; a tick reads the store at one moment, and what
  it asks for may be made at any later one.
- The background PCI removal of the last GPU is recorded where it is started; the command itself may run later,
  so the order proved for it is the order in which it is issued.

## Where a natural statement is false

- A differentnode pass with nothing to place need not succeed: the loop tests its bound only after appending.
  `ApartIdleIff` gives the exact condition, `OvershootExample` an instance; `EditAllocatesIff` says for every
  size edit of a settled request whether the allocator accepts it, and a shrinking differentnode request often
  is not accepted.
- Removal by priority may pick a resource the match pass has already forgotten. `Conservation` counts these,
  `ForgottenVictimExample` is an instance.
- A successful pass with surplus need not leave what was asked for: the surplus is never judged, and removal
  looks at state and age only, so it may remove the resources that fit. `SurplusPolicy.PolicyHolds` and
  `PolicyHoldsAtAnyAge` give the exact conditions; `OffTargetExample`, `MisfitExample` and `SharedNodeExample`
  are instances (off the target node, of another model, two on one node).
- A samenode request may get entries on the empty node name. `BlankNodeIff` gives the exact condition,
  `BlankNodeRun` a run from the empty cluster.
- Two samenode requests without target node can share a node. An allocation that tracks a resource it cannot
  list, gone with its node or not made yet, puts new entries on the node of the first listed resource that fits,
  or on the empty name; the request then stands on two nodes, and others see only the entry their scan yields
  first. `PrudentIff` gives the exact condition, `EarlyEditShares` and `VanishedNodeShares` are runs from the
  empty cluster. `NeverShareNode` and `JointExclusivity` hold over every run that keeps to the condition.
- Running need not mean Online once a node has vanished. A request whose resource goes with its node keeps the
  entry, Online, with nothing queued (`VanishesUnnoticed`), and an Updating pass then makes the resource anew and
  enters Running on the stale entry. `RunningMeansOnlineIff` gives the exact condition over every run,
  `RunsAfterVanishing` leads there from any state, `RunningBlindRun` from the empty cluster; while nodes stay it
  cannot happen (`JointMissing`, `JointRunningMeansOnline`). `StaleMeansQueuedOrNew` says what the mirror keeps
  in every run.
- An upstream device with an empty id is never owned and its detach resource asks for a new device:
  `DetachResourceAddsIffNoId`.
- Two detach resources for one device may be created within ten minutes when the first creation is answered
  with an error: `CreationsApart` with `ErrorMayRepeat` and `LostAnswerRepeats`.
- A detach resource made from the cluster manager's own list carries no model, so its removal is reported
  successful without a request: `SyncerRemovalIsSilent`, with the exact condition in `RemovalSentIff` and an
  instance in `SilentRemovalExample`.
- A labelled and an unlabelled resource can record the same device: `LabelledMayShare`.
- A comment in the webhook says that per-cluster and per-node requests cannot be mixed. The code admits such
  mixtures, and the verdict may depend on map iteration order; the model follows the code (`MixedAdmitted`,
  `VerdictUnderEveryOrder`).
- AddResource of the cluster-manager client sends a scale-up although no spec of the machine matches:
  `ScaleUpOfNothing`.
- In both OCP drain branches the answer to the GPU reset is ignored: `OcpPluginSucceedsIff`, `OcpDraSucceedsIff`.

## Model

| member | source | states |
|---|---|---|
| `MatchMeaning.MatchAbortsIff` | internal/controller/composabilityrequest_controller.go:254-276 | the pass aborts if and only if, before the size is met, it reaches a listed resource of the right type, model, forceDetach and target whose capacity lookup fails while other_spec is set; the error is that of the first such lookup, and only what was rejected before it is forgotten |
| `MatchMeaning.AbortKeepsTheRest` | internal/controller/composabilityrequest_controller.go:268-271 | the resource the pass aborts at, and every one after it, keeps its entry |
| `MatchMeaning.MatchLeaves` | internal/controller/composabilityrequest_controller.go:249-306 | otherwise it forgets exactly the resources it looked at and did not pick, still has to allocate what the picked ones fall short of, and counts as surplus what comes after the size is met |
| `MatchMeaning.ForgottenForAReason` | internal/controller/composabilityrequest_controller.go:254-304 | every name a pass forgets, aborted or not, differs in type, model, forceDetach or target, sits on a node without the capacity, or stands against the policy next to a picked one |
| `Matching.MatchPass` | internal/controller/composabilityrequest_controller.go:249-306 | the match loop with its counters and early exit computes, on every list, the result these four are about |
| `Matching.MatchForgetsOnlyListed` | internal/controller/composabilityrequest_controller.go:254-306 | aborted or not, the pass forgets only listed names and changes no entry it keeps |
| `Matching.MatchBalance` | internal/controller/composabilityrequest_controller.go:249-306 | every listed resource is kept, surplus or forgotten, exactly once; surplus appears only once the size is met |
| `Matching.MatchSurplus` | internal/controller/composabilityrequest_controller.go:298-304 | the surplus is at most what is listed, tracked or not |
| `Matching.MatchedFit` | internal/controller/composabilityrequest_controller.go:255-304 | every resource the pass judged and still tracks fits the request and its policy; every resource it never judged, because the size was met, stays tracked whether it fits or not |
| `Matching.MatchedSpread` | internal/controller/composabilityrequest_controller.go:278-304 | under differentnode the judged survivors sit on pairwise distinct nodes |
| `Priority.BeforeMeans` | internal/controller/composabilityrequest_controller.go:328-346 | one resource may go before another exactly when it is not of a later kind ("None" or Attaching without a device, marked Online, Attaching with a device, unmarked Online, the rest) and, within a kind, not used, or else created, later |
| `Priority.VictimsMean` | internal/controller/composabilityrequest_controller.go:310-359 | a set of names is a legal choice of victims if and only if it is as many listed names as are surplus, each of which may in that sense go before everything left |
| `Priority.Distribute` | internal/controller/composabilityrequest_controller.go:314-346 | each listed resource lands once, in its own bucket, and each bucket is sorted by last use or creation |
| `Priority.TakeFromBucket` | internal/controller/composabilityrequest_controller.go:350-357 | emptying one bucket from the front removes the next names in order and stops when the surplus is gone |
| `Priority.RemoveByPriority` | internal/controller/composabilityrequest_controller.go:310-359 | the loop never indexes past the fifth bucket, removes exactly the surplus, and every removed resource may go before all that are left, by kind and then by time |
| `Placement.CheckOccupied` | internal/controller/composabilityrequest_controller.go:406-430 | a node is occupied exactly when it is the target node of another samenode request or, for one without target node, the node of the first entry its map yields |
| `PlacementMeaning.TogetherMeans` | internal/controller/composabilityrequest_controller.go:393-443 | a samenode request goes to the first node that is sufficient and held by no other samenode request, unless a lookup fails before; it fails only when every node is insufficient or held, told from the other requests' fields |
| `PlacementMeaning.OnTargetMeans` | internal/controller/composabilityrequest_controller.go:363-384 | a request with a target node goes there exactly when the node exists and is sufficient, with the error of each other case |
| `PlacementMeaning.ApartMeans` | internal/controller/composabilityrequest_controller.go:444-467 | which nodes a differentnode request gets and which error, told from the capacities and the nodes in use: the bound is looked at after each sufficient node |
| `PlacementMeaning.PlaceMeans` | internal/controller/composabilityrequest_controller.go:363-467 | which of these searches decides |
| `Placement.PlaceTogether` | internal/controller/composabilityrequest_controller.go:393-442 | the samenode search computes `Together` on every node list |
| `Placement.PlaceApart` | internal/controller/composabilityrequest_controller.go:444-467 | the differentnode loop, bound tested after appending, computes `Apart` |
| `Placement.PlaceNodes` | internal/controller/composabilityrequest_controller.go:363-467 | the three placement branches with all their error returns compute `Place` |
| `Placement.ApartGivesFreeNodes` | internal/controller/composabilityrequest_controller.go:444-467 | a differentnode placement hands out exactly the number wanted, of distinct, unused, sufficient nodes |
| `Placement.ApartSucceedsIff` | internal/controller/composabilityrequest_controller.go:444-467 | with a positive shortfall and no lookup error it succeeds if and only if enough such nodes exist |
| `Placement.ApartOvershoots` | internal/controller/composabilityrequest_controller.go:455-460 | past its bound the loop can only fail |
| `Placement.ApartIdleIff` | internal/controller/composabilityrequest_controller.go:455-467 | with nothing to place it succeeds if and only if no node is sufficient or the first sufficient one is already used |
| `Placement.TogetherOutcome` | internal/controller/composabilityrequest_controller.go:393-442 | a samenode placement takes one sufficient unoccupied node for everything, and fails only when there is none |
| `Allocation.FilterLive` | internal/controller/composabilityrequest_controller.go:227-235 | exactly the resources that are neither Detaching nor Deleting remain, in order |
| `Allocation.NameEntries` | internal/controller/composabilityrequest_controller.go:471-479 | one blank entry per chosen node under generated names, nothing else touched |
| `Allocation.AllocateNodes` | internal/controller/composabilityrequest_controller.go:227-485 | the whole pass computes `Allocate` for victims that removal by priority may choose |
| `AllocationMeaning.PassLeaves` | internal/controller/composabilityrequest_controller.go:227-485 | a pass that aborts at a lookup has forgotten what it rejected before; any other seeks places for exactly what is missing, having forgotten all it rejected and the victims, and a failure then leaves just these entries |
| `Allocation.AddedEntries` | internal/controller/composabilityrequest_controller.go:474-479 | the new entries are exactly one per node, the old ones unchanged |
| `Allocation.PlaceLength` | internal/controller/composabilityrequest_controller.go:382-467 | a successful placement hands out exactly the shortfall under every policy |
| `Allocation.Conservation` | internal/controller/composabilityrequest_controller.go:249-359 | when listed and tracked names coincide, success leaves exactly Size entries plus one per victim already forgotten, and no pass both removes by priority and allocates |
| `Allocation.PolicyWithoutSurplus` | internal/controller/composabilityrequest_controller.go:278-297 | after a successful pass without surplus, samenode entries share one node (the target node if there is one) and differentnode entries are pairwise apart |
| `SurplusPolicy.SurviveIff` | internal/controller/composabilityrequest_controller.go:310-359 | a group of listed resources can survive the removal by priority together exactly when at least as many others as the surplus may go before all of them |
| `SurplusPolicy.PolicyHolds` | internal/controller/composabilityrequest_controller.go:249-479 | a pass whose placement succeeds leaves fitting resources and a policy kept, for every choice among equally old resources, exactly when whoever can survive fits and any two that can survive together agree |
| `SurplusPolicy.PolicyHoldsAtAnyAge` | internal/controller/composabilityrequest_controller.go:249-479 | the same over all states and ages of the listed resources: exactly when all resources the match pass did not forget fit and (if two survive) agree pairwise |
| `SurplusPolicy.OffTargetExample` | internal/controller/composabilityrequest_controller.go:298-359 | a request for one resource on node "a" succeeds with its only entry on node "b" |
| `SurplusPolicy.MisfitExample` | internal/controller/composabilityrequest_controller.go:298-359 | a request succeeds with its only entry of another model |
| `SurplusPolicy.SharedNodeExample` | internal/controller/composabilityrequest_controller.go:298-359 | a differentnode request succeeds with two entries on one node |
| `Allocation.OvershootExample` | internal/controller/composabilityrequest_controller.go:455-467 | a differentnode request with nothing missing and nothing surplus fails |
| `Allocation.ForgottenVictimExample` | internal/controller/composabilityrequest_controller.go:317-357 | a priority victim the match pass had forgotten leaves one entry too many |
| `Allocation.SameNodeKnown` | internal/controller/composabilityrequest_controller.go:287-297 | the samenode node is remembered if and only if some listed resource fits |
| `Allocation.BlankNodeIff` | internal/controller/composabilityrequest_controller.go:386-392 | entries land on the empty node name if and only if something is asked for, no listed resource fits and an unlisted name is tracked |
| `EarlyEdit.BlankNodeRun` | internal/controller/composabilityrequest_controller.go:213-542 | from the empty cluster, six events to a request with entries on the empty node name: its size is edited before the first Updating pass |
| `RequestReconciler.Reconciler.UpdateStatus` | internal/controller/composabilityrequest_controller.go:210-210 | a status write stores state, error, entries and applied spec, and never spec or metadata |
| `RequestReconciler.Reconciler.RequeueOnErr` | internal/controller/composabilityrequest_controller.go:627-637 | the whole in-memory status goes back with the error text, if that write gets through |
| `RequestReconciler.Reconciler.PerformGarbageCollection` | internal/controller/composabilityrequest_controller.go:147-167 | a request is deleted, that is marked or (without a finalizer) gone, exactly when it has a target node, the node is missing, it is not being deleted yet and the deletion is not refused; which error is returned in every other case |
| `RequestReconciler.Reconciler.HandleNone` | internal/controller/composabilityrequest_controller.go:197-211 | the finalizer is in place before NodeAllocating is stored |
| `RequestReconciler.Reconciler.HandleNodeAllocating` | internal/controller/composabilityrequest_controller.go:213-485 | the stored world changes as `AllocatePass` says, on success, failure and lost writes |
| `RequestReconciler.Reconciler.DeleteRedundant` | internal/controller/composabilityrequest_controller.go:507-519 | deletions up to the first failing one, and the set of tracked resources found |
| `RequestReconciler.Reconciler.CreateMissing` | internal/controller/composabilityrequest_controller.go:521-542 | creations up to the first failing one, each built from its entry |
| `RequestReconciler.Reconciler.CanRun` | internal/controller/composabilityrequest_controller.go:544-549 | true exactly when every entry is Online |
| `RequestReconciler.Reconciler.HandleUpdating` | internal/controller/composabilityrequest_controller.go:487-560 | the stored world changes as `UpdatePass` says under any write failures |
| `RequestReconciler.Reconciler.HandleRunning` | internal/controller/composabilityrequest_controller.go:562-586 | the stored world changes as `RunPass` says |
| `RequestReconciler.Reconciler.HandleCleaning` | internal/controller/composabilityrequest_controller.go:588-612 | the stored world changes as `CleanPass` says |
| `RequestReconciler.Reconciler.HandleDeleting` | internal/controller/composabilityrequest_controller.go:614-625 | the finalizer goes, and with it a deleted request |
| `RequestReconciler.Reconciler.HandleState` | internal/controller/composabilityrequest_controller.go:109-142 | the handler of the state makes one enabled event of the cluster happen |
| `RequestReconciler.Reconciler.HandleRequestChange` | internal/controller/composabilityrequest_controller.go:98-145 | without a target node or with the node found the handler of the state runs and, in any state but Deleting, leaves the request stored and its deletion mark as it was; with the node missing an unmarked request is marked or gone and its state is not handled; errors only write the error text; and every reconcile is one enabled event of the cluster or nothing |
| `RequestReconciler.Reconciler.BeginResourceChange` | internal/controller/composabilityrequest_controller.go:84-91 | a queued resource is taken and read |
| `RequestReconciler.Reconciler.FinishResourceChange` | internal/controller/composabilityrequest_controller.go:169-195 | the owner's entry takes state, error and both ids of the copy read; labelled resources are ignored; an error queues again |
| `RequestReconciler.Reconciler.ResourceStatusWritten` | internal/controller/composabilityrequest_controller.go:658-678 | a resource is queued exactly when its status changes |
| `RequestDiagram.NewIsStarted` | internal/controller/composabilityrequest_controller.go:197-211 | a new request gets its finalizer first, and is recorded as NodeAllocating only with it |
| `RequestDiagram.DecisionIsRecorded` | internal/controller/composabilityrequest_controller.go:217-485 | the entries the allocator leaves are recorded with Updating or, when it failed, with its error in NodeAllocating |
| `RequestDiagram.MarkedIsCleaned` | internal/controller/composabilityrequest_controller.go:213-219 | a marked request in NodeAllocating, Updating or Running is recorded as Cleaning, and nothing else happens |
| `RequestDiagram.EditIsReallocated` | internal/controller/composabilityrequest_controller.go:562-578 | an edited one in Updating or Running goes back to NodeAllocating for its new spec, and nothing else happens |
| `RequestDiagram.QuietRunning` | internal/controller/composabilityrequest_controller.go:562-586 | a Running request with nothing to do has its error cleared |
| `RequestDiagram.UpdatingGetsThroughIff` | internal/controller/composabilityrequest_controller.go:507-542 | the deletions and creations of an Updating pass go through if and only if as many writes succeed as there are untracked and missing resources and no missing name is taken |
| `RequestDiagram.UpdatingMeans` | internal/controller/composabilityrequest_controller.go:487-560 | in exactly that case the request is recorded as Running if every entry is Online and left alone otherwise; else the error is reported in Updating |
| `RequestDiagram.CleaningDeletesAll` | internal/controller/composabilityrequest_controller.go:588-612 | a Cleaning pass marks every managed resource a finalizer holds, takes the others away and touches nothing else; running out of writes it reports that |
| `RequestDiagram.CleaningEnds` | internal/controller/composabilityrequest_controller.go:588-604 | with nothing managed left the request is recorded as Deleting |
| `RequestDiagram.FinishMeans` | internal/controller/composabilityrequest_controller.go:614-625 | the finalizer goes and with it a marked request; a refused write is reported |
| `RequestDiagram.StepMoves` | internal/controller/composabilityrequest_controller.go:98-145 | under every event, whoever makes it, a stored request moves along the state diagram or not at all, each move with what it takes; spec and deletion mark change only by edit and deletion |
| `RequestDiagram.StepComesAndGoes` | internal/controller/composabilityrequest_controller.go:98-145 | a request enters the store as asked for and leaves it unheld or from Deleting while marked |
| `Cluster.DeleteEachEffect` | internal/controller/composabilityrequest_controller.go:509-519 | interrupted or not, deletions touch only listed names outside the tracked ones, and only mark what a finalizer holds |
| `Cluster.CreateEachEffect` | internal/controller/composabilityrequest_controller.go:521-542 | interrupted or not, creations only add objects of the request's making under tracked names |
| `Effects.UpdateEffect` | internal/controller/composabilityrequest_controller.go:487-560 | an Updating pass reaches Running only with every entry Online and the spec applied, and loses no tracked resource |
| `NoOrphans.StepKeepsGuard` | internal/controller/composabilityrequest_controller.go:197-219 | every step of either controller or of a user keeps owners of managed resources alive, in an owning state and with a finalizer |
| `NoOrphans.NoOrphan` | internal/controller/composabilityrequest_controller.go:487-542 | in every run, the request a managed resource names exists and holds its finalizer |
| `NoOrphans.LeavesOnlyWhenEmpty` | internal/controller/composabilityrequest_controller.go:588-625 | in every run, a step that removes a request, drops its finalizer or enters Deleting finds nothing managed by it |
| `Mirror.StepStaysCoherent` | internal/controller/composabilityrequest_controller.go:169-195 | every step keeps: an entry reflects its resource or an update is queued or under way, and a mirror pass holds the current copy or the resource is queued again |
| `Mirror.DeliveryMeans` | internal/controller/composabilityrequest_controller.go:169-195 | a delivery gives the owner's entry the state, error and both ids that were read and keeps its node; without the owner or on an error it is queued again; a detach resource changes nothing |
| `Mirror.QueueMeans` | internal/controller/composabilityrequest_controller.go:658-678 | a pass takes its resource off the queue and reads it as it is; a status write queues it exactly when it changes something |
| `Mirror.StaleMeansQueued` | internal/controller/composabilityrequest_controller.go:182-194 | in every run, an entry that differs from its resource has an update event still to come |
| `Mirror.RunningMeansOnline` | internal/controller/composabilityrequest_controller.go:544-555 | in every run where nobody but the owner takes tracked resources out, a request entering Running with nothing queued has every tracked resource stored and Online |
| `Exclusivity.FloatingDecision` | internal/controller/composabilityrequest_controller.go:386-443 | after a successful steady pass a samenode request without target node is on one node: the one it had, or one nobody else stands on |
| `Exclusivity.StepStaysSafe` | internal/controller/composabilityrequest_controller.go:386-443 | every prudent event keeps such requests on one named node each, and apart |
| `Exclusivity.NeverShareNode` | internal/controller/composabilityrequest_controller.go:386-443 | over every run in which no edit makes a request float and every allocation finds the tracked resources it cannot list on the node it goes on with, whatever becomes of nodes and resources, two samenode requests without target node never track one node |
| `Sharing.UnsteadySplits` | internal/controller/composabilityrequest_controller.go:386-391 | an allocation that is not steady leaves its request on two nodes |
| `Sharing.BlankIsUnsteady` | internal/controller/composabilityrequest_controller.go:386-391 | every allocation that leaves entries on the empty node name is one of these |
| `Sharing.NewcomerShares` | internal/controller/composabilityrequest_controller.go:406-430 | from there creation, acceptance and allocation of a new request put it on the same node, since the scan may see the other entry first |
| `Leaving.RequestLeaves` | internal/controller/composabilityrequest_controller.go:562-625 | whatever state a request is in and whatever it manages, it can be taken out, the other requests untouched |
| `Leaving.PrudentIff` | internal/controller/composabilityrequest_controller.go:386-443 | the condition is exact: after any prudent run, no prudent continuation of an allocation pass ever shares a node if and only if the pass is prudent |
| `SharingRun.EarlyEditShares` | internal/controller/composabilityrequest_controller.go:386-430 | from the empty cluster, a run to two requests on one node: a size is edited before the first Updating pass |
| `SharingRun.VanishedNodeShares` | internal/controller/composabilityrequest_controller.go:386-430 | the same as a run of both controllers with a settled edit, the resource going with its node before the allocation |
| `CalmRuns.CalmRunIsPrudent` | internal/controller/composabilityrequest_controller.go:213-443 | runs in which tracked resources are not deleted from outside and edits keep policy and target node and come in settled states are prudent |
| `CalmRuns.CalmNeverShareNode` | internal/controller/composabilityrequest_controller.go:386-443 | so exclusivity holds over every such run |
| `SettledCycle.MatchKeepsAll` | internal/controller/composabilityrequest_controller.go:254-306 | on a list where everything fits the pass forgets nothing |
| `SettledCycle.UpdateReconciles` | internal/controller/composabilityrequest_controller.go:501-560 | an Updating pass whose writes succeed makes the managed resources not being deleted exactly the tracked ones, the new ones with the request's type, model and forceDetach on their entry's node, and records Running exactly when every entry is Online |
| `SettledCycle.TurnSettles` | internal/controller/composabilityrequest_controller.go:213-560 | edit, allocation, Updating pass and finished deletions lead from settled to settled, with exactly the new size |
| `SettledCycle.EditsSettle` | internal/controller/composabilityrequest_controller.go:213-560 | the same for any number of edits |
| `FirstTurn.CreatedIsUntouched` | internal/controller/composabilityrequest_controller.go:197-211 | a created and accepted request tracks nothing and manages nothing, in any state a run may reach |
| `FirstTurn.FirstPassesSettle` | internal/controller/composabilityrequest_controller.go:213-560 | from there a first allocation and an Updating pass that go through end settled, at the size asked for |
| `Resizing.MatchKeepsFirst` | internal/controller/composabilityrequest_controller.go:254-306 | where everything fits the pass keeps the first Size listed, counts the rest as surplus and remembers only the kept nodes |
| `Resizing.ResizeSucceedsIff` | internal/controller/composabilityrequest_controller.go:249-467 | such a pass succeeds if and only if the cluster has what the policy needs, case by case |
| `Resizing.EditAllocatesIff` | internal/controller/composabilityrequest_controller.go:213-485 | which size edits of a settled request the allocator accepts, for every list order and node list |
| `Composition.StepStaysUnmarked` | internal/controller/composabilityrequest_controller.go:487-612 | neither controller marks a resource for deletion that a request still wants |
| `Composition.StaleMeansQueuedTogether` | internal/controller/composabilityrequest_controller.go:182-194 | mirror coherence over every run in which whoever writes resources marks before detaching and nobody deletes what a request wants |
| `Composition.NeverShareNodeTogether` | internal/controller/composabilityrequest_controller.go:386-443 | exclusivity over every such run with settled edits, derived from the general theorem |
| `Guarantee.StepShape` | internal/controller/composableresource_controller.go:73-126 | a pass that does not see its node missing writes the status, enrols, marks (labelled resources only) or lets go of the object, and nothing else |
| `Guarantee.ReconcileIsARun` | internal/controller/composableresource_controller.go:73-433 | from wherever a run of the controller can be, a reconcile under any answers, node there or not, changes the store exactly as a run of cluster events does |
| `Guarantee.ReconcileIsObedient` | internal/controller/composableresource_controller.go:73-433 | from wherever a run of the controller can be, while the node is there, every write of a reconcile under any failures keeps to what the request controller's theorems assume |
| `Unguarded.StepStaysLoose` | internal/controller/composabilityrequest_controller.go:182-194 | with nothing asked of anybody, every event keeps each entry of a stored resource fresh, queued, or facing a resource without status |
| `Unguarded.StaleMeansQueuedOrNew` | internal/controller/composabilityrequest_controller.go:182-194 | mirror coherence over every run whatsoever, vanished nodes and outside deletions included: a stale entry is queued or its resource was made anew and has no status yet |
| `Unguarded.RunningMeansOnlineIff` | internal/controller/composabilityrequest_controller.go:521-555 | in every run whatsoever, a request entering Running with nothing queued has every tracked resource Online exactly when every tracked name was stored, with a status, before the pass |
| `Joint.MoveJoins` | internal/controller/composableresource_controller.go:73-433 | every move of either controller keeps store and lifecycle in agreement on every resource |
| `Joint.JointRefines` | internal/controller/composableresource_controller.go:73-433 | every joint run of both controllers is a run of cluster events that keeps to the same assumptions |
| `Joint.JointLifecycle` | internal/controller/composableresource_controller.go:73-433 | in every joint run each stored resource is where a run of its own lifecycle has brought it |
| `Joint.JointMirror` | internal/controller/composabilityrequest_controller.go:182-194 | mirror coherence over every joint run while nodes stay and nobody else deletes what a request wants |
| `Joint.JointMissing` | internal/controller/composabilityrequest_controller.go:521-542 | over the same runs, a tracked name is without a resource only while its entry is blank or its request is leaving |
| `Joint.JointRunningMeansOnline` | internal/controller/composabilityrequest_controller.go:544-555 | over the same runs, a request entering Running with nothing queued has every tracked resource Online |
| `Joint.JointExclusivity` | internal/controller/composabilityrequest_controller.go:386-443 | exclusivity over every joint run of both controllers with prudent edits and allocations, nodes vanishing at any time |
| `Joint.JointExclusivityAtPeace` | internal/controller/composabilityrequest_controller.go:386-443 | exclusivity over every joint run while nodes stay, nobody else deletes what a request wants and edits are settled, with nothing asked of the allocations |
| `Joint.JointMirrorAnyhow` | internal/controller/composabilityrequest_controller.go:182-194 | what is left of mirror coherence over every joint run, nodes vanishing at any time |
| `Joint.JointRunningIff` | internal/controller/composabilityrequest_controller.go:521-555 | over every joint run, nodes vanishing at any time, Running is entered truthfully exactly when the pass had nothing to make anew |
| `Ownership.JointOwnership` | internal/cdi/fti/cm/client.go:432-459 | over every joint run whose AddResource answers are the cluster-manager provider's, two stored resources that record one device include one labelled to detach it |
| `Finishing.MarkedCanFinish` | internal/controller/composableresource_controller.go:176-421 | from wherever a run can be, a marked resource whose node is there can be taken out by passes of the controller alone, detaching its device |
| `Finishing.VanishesUnnoticed` | internal/controller/composableresource_controller.go:128-174 | in any joint state a run may reach: two passes that find the node missing and one mirror pass later the resource is gone, nothing is queued, and the request is unchanged, its entry Online |
| `Finishing.RunsAfterVanishing` | internal/controller/composabilityrequest_controller.go:521-555 | in any such state of an Updating request with all entries Online, the resource so lost is made anew by the next Updating pass, which reports Running while it has no status and nothing is queued |
| `BlindRun.RunningBlindRun` | internal/controller/composabilityrequest_controller.go:521-555 | from the empty cluster, a run of both controllers to such a Running request |
| `CycleRun.ReapingIsARun` | internal/controller/composableresource_controller.go:320-421 | from any joint state whose nodes are there, the completion of all marked deletions is reached by passes of the resource controller alone |
| `CycleRun.TurnIsLawful` | internal/controller/composabilityrequest_controller.go:213-560 | every turn of the settled cycle is a joint run of both controllers that meets the assumptions of the mirror and exclusivity theorems, detaches every removed device, and ends settled at the new size |
| `CycleRun.FirstTurnIsLawful` | internal/controller/composabilityrequest_controller.go:197-560 | creation, acceptance, first allocation and Updating pass are a lawful joint run that ends settled |
| `CycleRun.EditsAreLawful` | internal/controller/composabilityrequest_controller.go:213-560 | any number of edits that go through, carried out by both controllers with every removed device detached, are a lawful joint run that ends settled at the last size |
| `ResourceReconciler.Reconciler.RequeueOnErr` | internal/controller/composableresource_controller.go:423-433 | the whole in-memory status goes back with the error text, if that write gets through |
| `ResourceReconciler.Reconciler.PerformGarbageCollection` | internal/controller/composableresource_controller.go:128-174 | collection when the node is missing, with every failure on the way, does what `Collect` says |
| `ResourceReconciler.Reconciler.HandleNone` | internal/controller/composableresource_controller.go:176-198 | does what `NoneStep` says: finalizer first, then labels and Attaching |
| `ResourceReconciler.Reconciler.RecogniseDevice` | internal/controller/composableresource_controller.go:239-286 | failures of restarts are noted, then the visibility test decides |
| `ResourceReconciler.Reconciler.HandleAttaching` | internal/controller/composableresource_controller.go:200-287 | does what `AttachStep` says on the stored object and the calls made |
| `ResourceReconciler.Reconciler.HandleOnline` | internal/controller/composableresource_controller.go:289-318 | does what `OnlineStep` says |
| `ResourceReconciler.Reconciler.FindTaintDevice` | internal/utils/gpus.go:707-724 | the first device of the slices with that uuid attribute |
| `ResourceReconciler.Reconciler.CreateDeviceTaint` | internal/utils/gpus.go:691-754 | an existing rule is kept, a device not in the slices gets none, otherwise a rule for this device |
| `ResourceReconciler.Reconciler.HandleDetaching` | internal/controller/composableresource_controller.go:320-407 | does what `DetachStep` says on the stored object, the taint rule and the calls made |
| `ResourceReconciler.Reconciler.RemoveDeviceFromFabric` | internal/controller/composableresource_controller.go:354-364 | RemoveResource with its own status note, waiting and errors |
| `ResourceReconciler.Reconciler.ForgetDeviceWhenGone` | internal/controller/composableresource_controller.go:366-406 | restarts, visibility, taint rule, device id, state, in this order |
| `ResourceReconciler.Reconciler.HandleDeleting` | internal/controller/composableresource_controller.go:409-421 | the finalizer goes, and with it a deleted object |
| `ResourceReconciler.Reconciler.ReconcileOnce` | internal/controller/composableresource_controller.go:73-126 | a whole pass does what `Reconcile` says |
| `ResourceMeaning.BlankMeans` | internal/controller/composableresource_controller.go:176-198 | with the finalizer in place, both labels are carried into the status and Attaching is recorded |
| `ResourceMeaning.AttachingMarked` | internal/controller/composableresource_controller.go:203-213 | marked without a device goes to Deleting, with one and an error to Detaching |
| `ResourceMeaning.AttachingAdds` | internal/controller/composableresource_controller.go:217-237 | without a device AddResource is called once and both ids it hands out are recorded before anything else; waiting changes nothing, an error is reported |
| `ResourceMeaning.RecogniseMeans` | internal/controller/composableresource_controller.go:239-286 | the resource is Online if and only if the restarts went well or were noted, the device is visible and that can be written |
| `ResourceMeaning.OnlineOnlyWhenSeen` | internal/controller/composableresource_controller.go:200-287 | a step that turns a resource Online finds it Attaching, sees the device, and keeps the id it had or records the one AddResource handed out; never when it is marked and without a device or in error |
| `ResourceMeaning.OnlineMeans` | internal/controller/composableresource_controller.go:289-318 | marked goes to Detaching, labelled is deleted, and otherwise exactly the verdict of the check is the error |
| `ResourceMeaning.RuleSelects` | internal/utils/gpus.go:707-724 | the rule selects the first device of the listed slices with that uuid by its own name and its slice's driver and pool; none if and only if no device carries the uuid |
| `ResourceMeaning.TaintMeans` | internal/utils/gpus.go:691-754 | when the taint step goes through, and the rule then: the existing one, the one for that device, or none for a device without a name |
| `ResourceMeaning.DetachingMeans` | internal/controller/composableresource_controller.go:320-407 | RemoveResource is called if and only if load check (unless forced), taint step (under DRA) and drain go well; both ids are dropped if and only if, besides, removal and restarts succeed, the device is unseen, the rule is gone and that can be written; until then both stay |
| `ResourceMeaning.DetachingReports` | internal/controller/composableresource_controller.go:320-407 | the first call that fails, in their order, gives the error |
| `ResourceMeaning.LastStates` | internal/controller/composableresource_controller.go:395-421 | Detaching without a device goes to Deleting; Deleting loses its finalizer and, marked, is gone |
| `ResourceMeaning.NodeGoneMeans` | internal/controller/composableresource_controller.go:128-174 | with the node missing: rule, recorded Deleting with the node named, deletion, in this order, each failure ending the pass |
| `ResourceMeaning.LabelsStayTogether` | internal/controller/composableresource_controller.go:186-193 | over every run a detach resource records both ids of its labels or neither |
| `ResourceLifecycle.StateNeverGoesBack` | internal/controller/composableresource_controller.go:73-433 | under arbitrary failures, between any two moments of any run, the state rank does not go down |
| `ResourceLifecycle.NoDeviceLost` | internal/controller/composableresource_controller.go:128-213 | in every run, no finalizer, no object or Deleting only with no recorded device or a node seen missing; Deleting never with a taint rule; a rule names the recorded device |
| `ResourceLifecycle.DetachesOnlyWhenDeleted` | internal/controller/composableresource_controller.go:203-295 | in every run, a resource enters Detaching or Deleting only when deleted or its node was lost |
| `ResourceLifecycle.RemoveFollowsProtocol` | internal/controller/composableresource_controller.go:320-362 | every RemoveResource call follows, in the same pass and in this order, the load check unless forced, the taint step under DRA and a successful drain, and names the recorded device |
| `ResourceLifecycle.ClearedOnlyWhenGone` | internal/controller/composableresource_controller.go:364-402 | a recorded device id disappears only in a pass whose removal succeeded and that then saw the device gone |
| `ResourceLifecycle.DetachIdentity` | internal/controller/composableresource_controller.go:186-237 | a resource with a non-empty detach label carries that id until Detaching clears it, never adds a device and removes no other |
| `ResourceLifecycle.StepId` | internal/controller/composableresource_controller.go:186-237 | a recorded id comes from the resource itself, its label, or AddResource while it had none |
| `Syncer.UpstreamSyncer.SyncUpstreamData` | internal/controller/upstreamsyncer_controller.go:77-136 | one pass updates the tracking map as `Sync` says and asks for exactly the resources `Asked` lists |
| `Syncer.UpstreamSyncer.ExistingDeviceIDs` | internal/controller/upstreamsyncer_controller.go:88-93 | the recorded ids other than the empty one |
| `Syncer.UpstreamSyncer.DropVanished` | internal/controller/upstreamsyncer_controller.go:122-133 | exactly the tracked devices still upstream stay, with their times |
| `Syncer.AskedWhenOverdue` | internal/controller/upstreamsyncer_controller.go:107-153 | every resource asked for belongs to a turn that found its device tracked for more than ten minutes and unowned; it has the device's type, model and node, does not force, and carries the device id and the cdi device id as labels |
| `Syncer.OverdueIsAsked` | internal/controller/upstreamsyncer_controller.go:107-115 | every such turn asks for one |
| `Syncer.GracePeriod` | internal/controller/upstreamsyncer_controller.go:95-120 | in every history, a creation at t has an earlier sighting more than ten minutes before, and every successful sync between saw the device upstream and unowned |
| `Syncer.OverdueIsNoticed` | internal/controller/upstreamsyncer_controller.go:95-120 | conversely, two such sightings more than ten minutes apart force a creation by the later one |
| `Syncer.CreationsApart` | internal/controller/upstreamsyncer_controller.go:107-115 | two creations for one device are more than ten minutes apart if the first was answered with success |
| `Syncer.ErrorMayRepeat` | internal/controller/upstreamsyncer_controller.go:109-114 | after a creation answered with an error, and not repeated with success in the same pass, the next pass may ask again at once |
| `Syncer.LostAnswerRepeats` | internal/controller/upstreamsyncer_controller.go:109-114 | a history in which a lost answer leads to two creations a minute apart |
| `Syncer.DetachResourceAddsIffNoId` | internal/controller/upstreamsyncer_controller.go:138-153 | a syncer-made resource can come to call AddResource if and only if its device id is empty |
| `Syncer.ListedIdsAreRecorded` | internal/controller/upstreamsyncer_controller.go:138-153 | the first pass over such a resource records both ids as the fabric listed them |
| `SyncerRun.AskedWhenLeftAlone` | internal/controller/upstreamsyncer_controller.go:88-133 | on the store of both controllers: when a detach resource is asked for, then at every tick since a sighting over ten minutes earlier nobody had the device recorded, and every stored resource labelled with it was still blank or had cleared its id |
| `SyncerRun.LabelledWasAsked` | internal/controller/upstreamsyncer_controller.go:138-153 | every labelled resource in the store was asked for by some tick, in every run in which only the syncer makes labelled resources |
| `Claiming.MatchesSpec` | internal/cdi/fti/cm/client.go:487-499 | true exactly when the type is equal and there is a condition that the model equals the one asked for |
| `Claiming.FindAvailableDevice` | internal/cdi/fti/cm/client.go:501-509 | the first device nobody records |
| `Claiming.CheckAddingResources` | internal/cdi/fti/cm/client.go:432-459 | only the first matching spec and in it only the first unrecorded device is considered |
| `Claiming.AddingMeans` | internal/cdi/fti/cm/client.go:432-459 | of the first matching spec the first unrecorded device is handed out when complete, and with an error quoting its reason when failed; in any other case that spec with its count is to be scaled, and without a matching spec the one without a name |
| `Claiming.ScaleUpSent` | internal/cdi/fti/cm/client.go:127-140 | a scale-up is sent if and only if no such device with an id is there, and asks for one device more of the first matching spec |
| `Claiming.ScaleUpOfNothing` | internal/cdi/fti/cm/client.go:127-140 | without a matching spec a scale-up is sent too, for one device of the spec without a name |
| `Claiming.AddFailsIff` | internal/cdi/fti/cm/client.go:107-170 | AddResource fails if and only if the machine cannot be read, the device to hand out has failed, or the scale-up is refused, with the error of that case |
| `Claiming.CheckRemovingResources` | internal/cdi/fti/cm/client.go:461-485 | only the first matching spec is searched for the device |
| `Claiming.FirstMatch` | internal/cdi/fti/cm/client.go:440-443 | index of the first matching spec, with none before it |
| `Claiming.FirstUnused` | internal/cdi/fti/cm/client.go:501-509 | index of the first unrecorded device, with all before it recorded |
| `Claiming.FirstNamed` | internal/cdi/fti/cm/client.go:472-479 | index of the first entry for the device, with none before it |
| `Claiming.AddedIff` | internal/cdi/fti/cm/client.go:107-131 | a device is handed out if and only if it is the first unrecorded one of the first matching spec, complete and with an id |
| `Claiming.PendingDeviceHidesFreeOne` | internal/cdi/fti/cm/client.go:445-455 | a device still being attached hides a free one behind it |
| `Claiming.RemovalSentIff` | internal/cdi/fti/cm/client.go:184-218 | a scale-down is sent if and only if the first matching spec lists the device and has an id, and it names this device and the count less one |
| `Claiming.FailureIsNoted` | internal/cdi/fti/cm/client.go:472-479 | an error is noted if and only if the first entry for the device in the first matching spec has failed to be removed, and it is that reason |
| `Claiming.GetResources` | internal/cdi/fti/cm/client.go:311-350 | every GPU of every node in order, without a model |
| `Claiming.InfosMean` | internal/cdi/fti/cm/client.go:311-350 | the list holds exactly the devices of the GPU specs of every node, each with its node and both ids |
| `Claiming.SyncerRemovalIsSilent` | internal/cdi/fti/cm/client.go:341-347 | a detach resource made from this list is reported removed without a request, unless a spec selects on an empty model |
| `Claiming.SilentRemovalExample` | internal/cdi/fti/cm/client.go:320-350 | one listed device whose detach resource has no removal sent, while a resource that knew the model would have |
| `Claiming.StepKeepsOwners` | internal/cdi/fti/cm/client.go:432-459 | every reconcile, creation or deletion keeps: two resources recording one device include one labelled to detach it |
| `Claiming.SingleOwnership` | internal/cdi/fti/cm/client.go:432-459 | over all interleavings of whole reconciles, resources without a detach label never record the same device |
| `Claiming.LabelledMayShare` | internal/controller/composableresource_controller.go:186-193 | a labelled and an unlabelled resource can come to share a device |
| `TokenCache.CachedToken.SlowPath` | internal/cdi/fti/token.go:85-100 | checks again, fetches, and stores only what was fetched |
| `TokenCache.CachedToken.GetToken` | internal/cdi/fti/token.go:74-101 | a call alone returns the cached token while it is more than thirty seconds from its expiry and else what it fetches, which is then cached; an error carries the fetch's and leaves the cache alone |
| `TokenCache.StepKeepsInv` | internal/cdi/fti/token.go:74-101 | every lock step of any caller keeps the lock discipline and the equivalence with the log of settled calls |
| `TokenCache.Linearizable` | internal/cdi/fti/token.go:74-101 | every interleaving is equivalent to its settled calls run one at a time in the order of the log, and at whatever moment the run is cut, calls that had returned come before calls that had not begun |
| `TokenCache.MutualExclusion` | internal/cdi/fti/token.go:76-86 | a writer is alone |
| `TokenCache.ResultsValid` | internal/cdi/fti/token.go:80-100 | every token returned was good past the leeway at the caller's entry or fetched by that call |
| `TokenCache.NoNeedlessFetch` | internal/cdi/fti/token.go:88-98 | a caller fetching while a token is cached entered no earlier than its expiry less the leeway |
| `TokenCache.FetchesApart` | internal/cdi/fti/token.go:88-98 | of two fetches with no store between, the later caller entered within the leeway of the first token's expiry or after it |
| `Admission.ValidateRequest` | internal/webhook/v1alpha1/composabilityrequest_webhook.go:100-147 | the scan returns the first conflict in list order, for every list and list error |
| `Admission.FirstClash` | internal/webhook/v1alpha1/composabilityrequest_webhook.go:113-144 | none exactly when no listed request clashes |
| `Admission.VerdictMeans` | internal/webhook/v1alpha1/composabilityrequest_webhook.go:100-147 | a failed list and a differentnode request with a target node are refused; otherwise the first listed request in the way (same type and model, and differentnode too or on the node asked for) is named, and with none the request is admitted |
| `Admission.PutKeepsAdmitted` | internal/webhook/v1alpha1/composabilityrequest_webhook.go:100-147 | an admitted create or update keeps the invariant |
| `Admission.AdmissionInvariant` | internal/webhook/v1alpha1/composabilityrequest_webhook.go:100-147 | over every sequence of creates, updates, deletes and status writes: no differentnode request with a target node, at most one per type and model, and no two samenode requests of one explicit target node, type and model |
| `Admission.VerdictUnderEveryOrder` | internal/webhook/v1alpha1/composabilityrequest_webhook.go:123-144 | exactly when the webhook admits, and exactly when it refuses, a request under every order of the list and of the status maps |
| `Admission.MixedAdmitted` | internal/webhook/v1alpha1/composabilityrequest_webhook.go:111-122 | a per-node and a per-cluster request of one type and model are both admitted |
| `Listing.SelectFields` | internal/utils/gpus.go:1075-1083 | the requested fields, or the first unsupported one |
| `Listing.MissingMeans` | internal/utils/gpus.go:1075-1080 | a query is refused for the first field the listing does not have, and only then |
| `Listing.SelectMeans` | internal/utils/gpus.go:1075-1083 | otherwise exactly the requested fields are given, each with its own value |
| `Listing.ParseListing` | internal/utils/gpus.go:1052-1085 | the parsing loop computes `Parse`, errors included |
| `Listing.RoundTrip` | internal/utils/gpus.go:1022-1036 | reading back what the script prints gives the same GPUs in order, for every list of non-empty triples without spaces and commas |
| `Listing.InfosDiffer` | internal/utils/gpus.go:1069-1084 | no two lists of GPUs read alike |
| `Listing.LinesReadIff` | internal/utils/gpus.go:1059-1085 | any text is read if and only if each line is empty or has three parts |
| `Listing.RefusedForFirst` | internal/utils/gpus.go:1059-1068 | a text that is not read is refused for its first line with fewer parts |
| `DrainRunner.Session.RunTable` | internal/utils/gpus.go:425-438 | a table of steps runs in order up to the first failure that counts |
| `DrainRunner.Session.RunUnlessDraining` | internal/utils/gpus.go:272-292 | the RKE2 table without the steps a draining GPU skips |
| `DrainRunner.Session.FindTarget` | internal/utils/gpus.go:215-222 | the first listed GPU with the uuid |
| `DrainText.LineMeans` | internal/utils/gpus.go:990-1008 | a line is read as draining if and only if it contains "drain" and, after its first colon, "draining" but not "not draining", and as not draining if and only if that part contains "not draining"; case, blanks and stops do not matter |
| `DrainText.DrainStateMeans` | internal/utils/gpus.go:984-1008 | the answer is that of the first line that says either |
| `DrainText.PrintedAnswer` | internal/utils/gpus.go:984-1008 | a query that prints "…drain…: draining" or "…drain…: not draining", with or without a stop, is read as what it prints |
| `DrainRunner.Session.ReadDrainState` | internal/utils/gpus.go:984-1008 | the loop gives an answer exactly when the text says it |
| `DrainRunner.Session.CheckDrainStatus` | internal/utils/gpus.go:964-1012 | the drain query with its empty bus id, failures and unreadable answers |
| `DrainRunner.Session.LoadedModules` | internal/utils/gpus.go:1105-1118 | which of the two modules some line of the lsmod output starts with |
| `DrainText.LoadedMeans` | internal/utils/gpus.go:1105-1118 | reading what lsmod prints, a module counts as loaded if and only if it has a row |
| `DrainRunner.Session.RemoveDriverModules` | internal/utils/gpus.go:1091-1173 | lists the modules and removes those loaded, nvidia_drm first |
| `DrainRunner.Session.CheckStillRunning` | internal/utils/gpus.go:1175-1226 | whether a PCI removal is under way |
| `DrainRunner.Session.RemoveLastGpu` | internal/utils/gpus.go:318-386 | the last GPU of a node, with the removal in the background |
| `DrainRunner.Session.DrainRke2` | internal/utils/gpus.go:198-386 | the RKE2 branch |
| `DrainRunner.Session.DrainOcpDra` | internal/utils/gpus.go:387-548 | the OCP branch with DRA |
| `DrainRunner.Session.DrainOcpPlugin` | internal/utils/gpus.go:549-661 | the OCP branch with the device plugin |
| `DrainRunner.Session.DrainGpuDevice` | internal/utils/gpus.go:197-664 | the choice of branch; log and outcome are those of `DrainGpu` |
| `DrainSafety.DoAllSucceedsIff` | internal/utils/gpus.go:425-438 | a table succeeds if and only if every answer passes, and has then run every command once, in order |
| `DrainSafety.DrainSafe` | internal/utils/gpus.go:197-664 | in all branches, for every sequence of answers: only the target's device files are removed, and only after persistence mode was disabled or the query printed that the GPU is draining, and this pass's open-file check was silent; a reset or PCI removal needs maintenance mode set or draining printed besides, a PCI removal also the loaded modules removed and no other removal under way; without a target nothing dangerous runs |
| `DrainSafety.OcpPluginSucceedsIff` | internal/utils/gpus.go:580-660 | succeeds if and only if the three answers before the reset pass; the reset's own answer does not count |
| `DrainSafety.OcpDraSucceedsIff` | internal/utils/gpus.go:418-547 | succeeds if and only if the five answers before the reset pass, and has then run these six commands in order |
| `DrainSafety.RemovalByCount` | internal/utils/gpus.go:294-321 | whatever the listing reads as, a PCI removal is issued only when one GPU was read and a reset only otherwise |
| `DrainSafety.RemovalOnlyOfTheLast` | internal/utils/gpus.go:294-321 | and that is exactly when the script printed one GPU |
| `DrainOutcome.Rke2SucceedsIff` | internal/utils/gpus.go:229-386 | succeeds if and only if the bus id is not blank, the query's text tells the drain state, every command run went well (a PCI removal that answers late aside) and no removal is left under way after the last GPU; it has then run the steps for that drain state, in order, and after them just the reset or, for the last GPU, the removal |
| `DrainOutcome.LastGpuSucceedsIff` | internal/utils/gpus.go:318-386 | the same for the last GPU alone |
| `DrainOutcome.DrainsTheNamedGpu` | internal/utils/gpus.go:200-228 | on a node whose script lists these GPUs, the drain is that of the first one with the uuid, with its own minor and bus id; without one only the listing runs and the drain succeeds |
| `DrainOutcome.UnreadListing` | internal/utils/gpus.go:200-214 | a listing that fails or cannot be read ends the drain |
| `DrainOutcome.SmiTargetIs` | internal/utils/gpus.go:395-417 | on OCP the first entry with the uuid is drained, at its bus id less a leading "0000" |
| `DrainOutcome.BranchTaken` | internal/utils/gpus.go:188-664 | which branch runs: the GPUs are listed by a command exactly under DRA without the container driver, no device file is touched without DRA, and what a missing pod means in each branch |
| `DrainOutcome.NoTroubleOnSuccess` | internal/utils/gpus.go:197-664 | in every branch a drain that succeeds has run no command that failed or wrote an error, but for a reset on OCP and a late PCI removal |

## Left out

- HTTP and JSON traffic of the cluster-manager, fabric-manager and Sunfish clients: their answers are data of a step.
- CheckResource of the cluster-manager client: its verdict is only copied into an error text.
- Pod lookup and pod exec: nothing is claimed about which pod runs a drain command, since the driver pod lookup checks for a pod on the node but returns the first one listed.
- The nvidia-smi query of the OCP branches and the load checks: their answers are data of a step.
- Case mapping in the drain texts is modelled on ASCII letters only.
- Node capacity arithmetic and daemonset restarts: an abstract answer per node and an oracle that may fail.
- Provider and device type selection by environment variables: fixed parameters of the model.
- Manager start-up, RBAC, webhook wiring, deep copies, manifests: plumbing without a property of its own.
- Liveness, requeue delays and log text.
- Intermediate status writes within one resource reconcile appear in the cluster model as one write of the final status.
- SettledCycle.EditsSettle: assumes that the passes of each edit go through and that marked deletions finish, as the property does; `EditAllocatesIff` says when the allocation does.
