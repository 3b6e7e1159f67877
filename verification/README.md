# kuberator: a verified model of its reconcile

kuberator is a Kubernetes operator. A reconcile makes a linked list of resources from the spec,
compares the fingerprint of what is observed with that of what is desired, plans a linked list of
commands (duplicates removed, restarts deferred), executes the plan against the status map and the
cluster until a command fails, and persists the status. This project models that loop, the rolling
restart and fail-over protocols behind two of its commands, the one-pod-at-a-time StatefulSet
handler, and the canonical texts and config merges that fingerprints are computed from.

## How the files fit together

| file | content |
|---|---|
| Types | actions, states, resources, commands, status entries |
| Lines, Insertion | the linked lists, updated in place, and what they mean as sequences |
| Planning, Execution, Rounds | planner, executor and whole reconciles as functions, with their theorems |
| Pipelines | the pipeline object, updated in place, proved against those functions |
| Handlers, Convergence | the built-in handlers; runs of reconciles reach the desired state |
| Specs, Starvation | runs whose resources are made anew each time; resources crowded out of the plan |
| RollingRestart, RestartClient | the restart protocol over all interleavings; the code as a run of it |
| Discharge | how pending restarts are discharged once everything else matches |
| Pods, Ordinals, Environment, FailingOver | readiness, restart order, pod names, environment variables, fail-over |
| Fingerprint, Config, Claims | canonical texts, configuration files, claim scale-down |
| Results | command results and the reply object they share |

Methods and classes are used where the Go code changes state; each is proved against a function or
a relation, and the theorems are about that function or relation.

## Main results

- **Refinement.** `Pipelines.Pipeline.Compute` walks and relinks the heap lists like the Go code, and
  what it persists and does to the cluster is `Rounds.Reconcile` of its inputs, for every map order
  and every sequence of apply outcomes.
- **Convergence.** `Specs.SpecConvergesIff`: with a fixed spec, a quiet environment and successful
  calls, some number of reconciles suffices for all resources to match ever after in every run,
  whatever the map orders and whatever commands evict each other, if and only if files of one name
  have one content in every ConfigMap and no resource is stuck at the start. `Convergence.Converges`
  gives the number for fixed made resources, `Convergence.GroupConverges` the same for a group that
  shares no category with the others, stuck or not.
- **Restarts are never lost**, over every run: `Rounds.RestartSurvives`, `Planning.PendingIsPlanned`;
  how they are discharged, and that all of them are: `Discharge.OneDebtPerReconcile`,
  `Discharge.TotalDischarge`.
- **Rolling restart.** `RollingRestart.SafeIff`: over every interleaving at most one pod is down once
  a delete was issued, if and only if no pod was already being deleted when the restart began.
- **Fail-over.** `FailingOver.QuorumIffOdd`: survivors are a majority, always meet, and the deleted
  pods fit the disruption budget, in all outcomes, if and only if the number of pods is odd.
- **Plan shape, execution state machine, step scaling, canonical texts, config mounts**: see the table.

## Where the code and its promise part

Each of these is a lemma below. The model does what the code does.

- `MoveIfAbsent` promises one command per (action, category). The key of the first command can stay
  three times (`Insertion.ThreeCopies`), and a plan is free of repeats exactly when no later command
  has that key (`Insertion.PlanRepeatsIff`).
- Two resources with a restart of one category pending cause two rolling restarts of it, one per
  reconcile (`Discharge.OneDebtPerReconcile`).
- A rolling restart can take a second pod down when a deletion is already under way: readiness does
  not look at the deletion timestamp, deletes go by name, and a new pod that is itself on its way out
  is taken for the restarted one (`RollingRestart.SecondDown`, `RollingRestart.MistakenReturn`).
- A restart of a single pod can end without error with the pod gone (`RollingRestart.LonePodLost`,
  `RollingRestart.EndsGoodIff`).
- The fail-over cap equals the disruption budget and leaves a majority for odd sizes only
  (`FailingOver.QuorumIffOdd`, `FailingOver.EvenSplits`).
- The recreate check stores the desired claim templates on the observed side, so it fires whenever
  there is a claim template at all (`Handlers.RecreateNeededIff`). It panics when a set without claim
  templates is offered one, and also when neither side has any and the selectors differ, which
  needs an extension, as the built-in make always sets a template
  (`Handlers.RecreatePanics`, `Handlers.RecreatePanicsIff`, `Convergence.PanicsIff`).
- A resource that is asked for and marked for deletion, a Service asked to leave its cluster address,
  a StatefulSet on which its handler panics, and a resource that sets a leaf the API server does not
  keep, such as a Secret with data, never reach their fingerprint (`Convergence.MarkedNeverMatches`,
  `Convergence.AddressNeverMatches`, `Convergence.PanicNeverMatches`,
  `Convergence.SecretNeverMatches`). While a handler panics nothing else is applied either
  (`Convergence.PanicFreezes`).
- A resource that is not stuck can still never be applied, when enough stuck ones of its category
  crowd it out of the plan (`Starvation.MiddleStarves`, `Starvation.ThirdStarves`); resources that
  share no category with stuck ones are safe unless a handler panics (`Convergence.GroupConverges`).
- The data of a ConfigMap can differ between two reconciles of one spec, exactly when files of one
  name have different content (`Config.DataIsStableIff`, `Config.DataVaries`), and such a spec never
  settles (`Specs.SpecConvergesIff`); a pod can mount a key that the ConfigMap does not have, exactly
  when a file name ends in a slash and another file name (`Config.MountsIff`).
- The text `ToString` gives can be read back exactly without `=` in keys and newlines in values
  (`Fingerprint.RoundTripIff`); with either, different maps can collide (`Fingerprint.KeyCollision`,
  `Fingerprint.ValueCollision`).
- A StatefulSet that is missing or has no count loses all its claims (`Claims.ClaimClient.Recycle`).
- Claims are sorted as texts: with more than ten of them a scale-down can delete the claim of a pod
  that stays (`Claims.KeepsLowestIff`).
- `Merge` of two command results loses the errors of the second (`Results.Merge`), and printing a
  result can make another copy of it non-empty (`Results.CopyChangesIff`).

## Model

| member | source | states |
|---|---|---|
| Lines.Node.Append | api/core/framework_api.go:181-205 | Appending one list to a disjoint one is concatenation: afterwards the nodes of both, in order, are the list; only the link of the last node changes. |
| Lines.Acyclic | api/core/framework_api.go:207-229 | A list that ends in nil visits no node twice, so every list the other members keep in shape is free of cycles. |
| Lines.MoveIfAbsent | api/core/framework_api.go:207-229 | Unlinking and appending in place leaves exactly the surviving nodes followed by the new ones, for any list and any set of nodes with the new key; a nil command changes nothing. |
| Insertion.EvictData | api/core/framework_api.go:212-227 | Which nodes survive depends only on their keys: removal on nodes and removal on commands agree. |
| Insertion.InsertNode | api/core/framework_api.go:207-229 | Seen from the commands, the in-place operation is the sequence operation Insert, and the head node never changes. |
| Insertion.PlanOrder | kernel/component_reconcile_worker.go:172-176 | After any sequence of insertions the plan is an order-preserving selection of the inserted commands (the positions are returned). |
| Insertion.SurvivorsExact | api/core/framework_api.go:212-227 | In a reachable plan an insertion removes exactly the older commands with its key, except the first command and, if that one has the key, the untested second. |
| Insertion.LineShape | api/core/framework_api.go:207-229 | Every reachable plan starts with the first inserted command and repeats no key beyond its first two positions. |
| Insertion.PlanKeeps | api/core/framework_api.go:207-229 | The last inserted command of every key is in the plan, and for any key but that of the first command it is the only one. |
| Insertion.PlanKeys | api/core/framework_api.go:207-229 | Eviction loses no (action, category) and invents no command. |
| Insertion.PlanCopies | api/core/framework_api.go:207-229 | The key of the first command occurs at most three times, every other key at most once. |
| Insertion.ThreeCopies | api/core/framework_api.go:207-229 | The bound of three is reached by four insertions of one key. |
| Insertion.PlanRepeatsIff | api/core/framework_api.go:207-229 | A plan has one command per (action, category) if and only if no later command was inserted with the key of the very first one. |
| Planning.RefusedIff | kernel/component_reconcile_worker.go:117-143 | Planning stops without a plan exactly when the pre-apply of some changed resource returns a non-empty result. |
| Planning.RestartsAreLast | kernel/component_reconcile_worker.go:166-170 | The restart kept for a category is the last one collected for it, and there is one exactly when one was collected. |
| Planning.PlanShape | kernel/component_reconcile_worker.go:144-197 | For every order of the restart map: restarts form a suffix with distinct categories; a category is restarted exactly when a restart of it was collected and no Create or Delete of it anywhere in the round; no other key is lost, nothing is invented. |
| Planning.PlanningKeepsPending | kernel/component_reconcile_worker.go:114-178 | Planning never forgets a recorded restart nor marks it successful, whatever the handlers do. |
| Planning.PendingIsPlanned | kernel/component_reconcile_worker.go:120-137 | A completed planning that sees a resource unchanged while its restart is pending plans a restart of its category, unless a Create or Delete of that category was collected. |
| Planning.PendingRestartsComponent | kernel/component_reconcile_worker.go:120-137 | On the labels: that category is the one of a non-empty reference label, or else of the category label, or else the resource's own; and the restart collected for the resource lists no pods of the labelled component, so that it takes all of them. |
| Planning.CollectedIsAnswered | kernel/component_reconcile_worker.go:149-178 | Everything collected is the answer of a handler to one of the resources, with the owner and the category filled in only where the handler left them open, and nothing else changed. |
| Planning.AnsweredIsCollected | kernel/component_reconcile_worker.go:114-178 | Every answer of a handler is collected when planning completes: those of its pre-apply when the resource is present on one side only or its fingerprints differ, those of its visitation otherwise. |
| Planning.ReadingsSeparate | kernel/merge_stage.go:10-26 | What was observed depends on the first reading only; what is desired depends on the second, which the spec overrides, and is the spec itself without one. |
| Planning.SilentResource | kernel/component_reconcile_worker.go:145-147 | A resource that is not changed and for which nothing is collected leaves no trace in the status. |
| Planning.RefusedRecords | kernel/component_reconcile_worker.go:141-143 | A resource whose pre-apply refuses is recorded with its two fingerprints and its past actions; none of its commands is. |
| Planning.NoteAllCause | kernel/component_reconcile_worker.go:160-170 | The last command of an action is recorded as waiting, with its message as the cause. |
| Planning.CollectedWaits | kernel/component_reconcile_worker.go:160-178 | With base handlers every collected command is recorded as Preparing, or WaitRestart for restarts, when planning ends, even if later resources overwrite the entry. |
| Planning.PlanningStartsNothing | kernel/finger_stage.go:18-44 | Planning puts no action in progress. |
| Planning.ChangedIsRecorded | kernel/finger_stage.go:18-42 | A changed resource enters execution recorded with its observed fingerprint, the desired one as the next, its past state, and its past details overridden by the desired ones. |
| Execution.ExecEntry | kernel/component_reconcile_worker.go:204-236 | Each executed (resource, action) is recorded as a success, or as failed with the text of the error, by its last execution; every other entry, missing ones included, is untouched. |
| Execution.ExecUnknown | kernel/component_reconcile_worker.go:206-209 | A command of a resource without an entry is recorded in a new one that says so, with no other action. |
| Execution.NoneLeftInProgress | kernel/component_reconcile_worker.go:204-236 | An entry in progress after a run was so before, and its action was not executed. |
| Execution.ExecUid | kernel/component_reconcile_worker.go:224-231 | The recorded fingerprint moves to the next one exactly when some command of the resource succeeded; the next one itself never changes. |
| Execution.StopsOnce | kernel/component_reconcile_worker.go:204-241 | The outcomes, and what callbacks and post-apply leave in the shared result, determine how far a run gets: the executed commands are the prefix up to the first non-empty result. |
| Rounds.RoundKeepsPending | kernel/component_reconcile_worker.go:247-267 | One reconcile keeps a recorded restart pending unless it applies a restart of that resource without error. |
| Rounds.RestartSurvives | kernel/component_reconcile_worker.go:247-267 | Over every run of reconciles, with any handlers, specs, clusters and failures, and however early callbacks or post-apply end an execution: a recorded restart stays recorded and unsuccessful until some reconcile applies it without error. |
| Rounds.CollectedEnds | kernel/component_reconcile_worker.go:202-245 | After a reconcile every collected command is Success or Failed as it last ran, or still Preparing or WaitRestart when it was not reached. |
| Rounds.NothingLeftInProgress | kernel/component_reconcile_worker.go:202-267 | No reconcile persists an action in progress if none was before. |
| Rounds.UidMoves | kernel/component_reconcile_worker.go:219-231 | The persisted fingerprint of a changed resource is the desired one exactly when a command of it succeeded, otherwise the observed one. |
| Rounds.PersistedHasNoNext | api/v1beta1/middlewarecluster_types.go:177 | What a reconcile persists never holds a next fingerprint. |
| Rounds.RefusedRound | kernel/component_reconcile_worker.go:254-257 | A refused planning applies nothing and persists what it planned. |
| Rounds.SilentRound | kernel/component_reconcile_worker.go:258-261 | When no resource is changed, visited or pending, a reconcile leaves status and cluster exactly as they were. |
| Pipelines.Pipeline.AddAction | kernel/component_reconcile_worker.go:152-176 | Adding a copied node in place inserts its command into the plan; all nodes of the plan stay owned by the pipeline. |
| Pipelines.Pipeline.TakeAction | kernel/component_reconcile_worker.go:149-177 | One loop round keeps the plan and both maps equal to the functions of everything collected so far. |
| Pipelines.Pipeline.CollectAll | kernel/component_reconcile_worker.go:108-179 | The loop over the resource list, stopping where a pre-apply refuses, computes PlanAll of the list it was given. |
| Pipelines.Pipeline.AppendRestarts | kernel/component_reconcile_worker.go:181-197 | Walking the restart map in any order appends exactly the restarts whose category is not skipped. |
| Pipelines.Pipeline.ActionPipeline | kernel/component_reconcile_worker.go:108-200 | The in-place planner yields the plan whose shape Planning proves, for the order its map walk took, and the status PlanAll gives. |
| Pipelines.Pipeline.ExecCommand | kernel/component_reconcile_worker.go:205-234 | One executed command changes status and cluster as the executor function says; a failed one leaves the cluster alone. |
| Pipelines.Pipeline.Exec | kernel/component_reconcile_worker.go:202-245 | The loop applies exactly the prefix up to the first command that fails or whose callback or post-apply makes the result non-empty, and returns the failure, if any. |
| Pipelines.Pipeline.ResourcePipeline | kernel/component_reconcile_worker.go:90-106 | Without a make error the resource list is the flattening, in chain order, of the made lists; nil results contribute nothing; an error is reported exactly when some make failed. |
| Pipelines.Pipeline.Compute | kernel/component_reconcile_worker.go:247-267 | A whole reconcile on the heap equals Reconcile on values: same persisted status, same cluster; after a make error nothing changes. |
| Handlers.OrderedReadyPodManagement | kernel/handler/category_statefulset_handler.go:330-367 | The desired count is overwritten in place with the ordered step, and a command is returned exactly when a step is due. |
| Handlers.RecheckInPlace | kernel/handler/category_statefulset_handler.go:261-328 | Reading back the count the ordered step left, it overwrites it again only when a recreation fires. |
| Handlers.PreApplyUpdate | kernel/handler/category_statefulset_handler.go:378-400 | The three steps in sequence, on the same object, produce the commands and the final desired object of UpdateSet, including the panic on a missing claim template. |
| Handlers.RecreateNeededIff | kernel/handler/category_statefulset_handler.go:261-292 | A recreation is asked for exactly when the selectors differ or either side has a claim template. |
| Handlers.RecreatePanicsIff | kernel/handler/category_statefulset_handler.go:277-290 | The check indexes an empty list exactly when one side has no claim template although a recreation is asked for. |
| Handlers.RecreatePanics | kernel/handler/category_statefulset_handler.go:277-290 | Two inputs on which it does: a first claim template for a set without any, and another selector on a set without any. |
| Handlers.RecreateNeverShrinks | kernel/util/pvc_util.go:35-74 | A recreation never shrinks the requested storage nor exceeds the observed limit, and a rolling update of the claims accompanies it exactly when the request changes. |
| Handlers.StepsAgree | kernel/handler/category_statefulset_handler.go:261-367 | The recreate step arrives at the count of the ordered step it reads back, one pod at most from the observed count and never past the target. |
| Handlers.OnePodAtATime | kernel/handler/category_statefulset_handler.go:378-400 | From at least one pod towards at least one: whether or not a recreation fires, the pushed count moves by at most one pod towards the target and stands still only at it, and nothing else of the desired object changes. |
| Handlers.AttachedCommands | kernel/handler/category_statefulset_handler.go:241-400 | Every attached restart names exactly the pods that exist before and after the step; every update or recreation pushes the final desired object. |
| Handlers.UpdateActions | kernel/handler/category_statefulset_handler.go:241-400 | The answer to a StatefulSet update is, in this order, an update or, where a recreation fires, the recreation, wrapped in an expansion of the claims and a restart when the storage changes; and last a restart when the pod templates differ. A recreation fires exactly when both sides have a claim template and the storage of the first one does not shrink nor exceed the observed limit. |
| Handlers.RestartAttachedIff | kernel/handler/category_statefulset_handler.go:241-259 | A restart is attached if and only if the pod templates differ or a recreation changes the storage. |
| Handlers.AttachedTargets | kernel/handler/category_statefulset_handler.go:241-328 | Every attached restart names the category label and exactly the pods instance-category-0 up to the smaller of the observed and the pushed count; a recreation carries that category, an expansion the one of the claims. |
| Handlers.FromOrToZero | kernel/handler/category_statefulset_handler.go:330-367 | From or to no pod the set is scaled at once, unless a recreation fires, which overwrites the count with one step. |
| Handlers.BaseAnswer | kernel/extend/component_extend.go:85-107 | The base answer is determined by presence and the deletion label, and acts on the desired object, a deletion on the observed one if there is one. |
| Handlers.ConfigMapAnswer | kernel/handler/category_config_map_handler.go:67-74 | An update of a ConfigMap, and nothing else, is followed by a restart of the component its reference label names, all pods of it. |
| Handlers.ScalingConverges | kernel/handler/category_statefulset_handler.go:330-367 | Repeated reconciles reach the wanted size after exactly the difference in pods, not before, and stay there, never leaving the 32-bit range. |
| Convergence.KeptIff | kernel/merge_stage.go:10-23 | Merging the spec again into what was merged and stored changes nothing if and only if the API server neither drops nor changes a leaf that the spec sets, whatever it fills in besides; otherwise every stored object differs from its merge. |
| Convergence.MergeSettles | kernel/merge_stage.go:10-23 | So with a kept spec a merged and stored object, with any replica count, is merged to itself in all that is compared. |
| Convergence.PanicsIff | kernel/handler/category_statefulset_handler.go:261-292 | The handler of a changed StatefulSet panics if and only if it is to be updated and the spec offers a set without claim templates a first one or another selector. |
| Convergence.HasMutator | kernel/extend/component_extend.go:85-107 | The answer to every changed resource carries exactly one command that changes the cluster. |
| Convergence.Progress | kernel/finger_stage.go:18-42 | Applying that command to a resource that is not stuck lowers its weight and does not get it stuck. |
| Convergence.CollectedMoves | kernel/component_reconcile_worker.go:108-179 | With the built-in handlers planning is never refused and collects exactly the moves of the changed resources. |
| Convergence.DiffersIff | kernel/handler/category_statefulset_handler.go:210-239 | A stored resource counts as changed exactly when its spec sets a leaf it lacks or has otherwise; for services and jobs also a label; for a StatefulSet also a leaf of the pod template, another selector, other claim templates or another count. |
| Convergence.VisitIff | kernel/handler/category_statefulset_handler.go:370-375 | An unchanged StatefulSet is checked for a fail-over of all its pods, and no other resource is. |
| Convergence.QuietEffect | kernel/component_reconcile_worker.go:202-245 | After a quiet reconcile each object is what its own command makes it, or untouched when that command was evicted. |
| Convergence.SomeMoveRuns | api/core/framework_api.go:207-229 | Eviction never starves a whole group that shares no category with other resources: while one of it differs, the command of one of it that differs is in the plan. |
| Convergence.QuietRound | kernel/component_reconcile_worker.go:108-267 | Without a panic, a quiet reconcile strictly lowers the measure of such a group unless it matches, keeps a matching group matching, and gets none of it stuck. |
| Convergence.MatchedIsQuiet | kernel/component_reconcile_worker.go:108-200 | When everything matches no Create, Update, Delete or ReCreate is planned. |
| Convergence.QuietRunExists | kernel/component_reconcile_worker.go:108-267 | Quiet runs of every length exist from every world, so the theorems about them are not empty. |
| Convergence.MarkedNeverMatches | kernel/extend/component_extend.go:85-107 | A missing resource that is asked for and marked for deletion matches in no state of any quiet run, whatever else is made beside it. |
| Convergence.AddressNeverMatches | kernel/handler/category_service_handler.go:66-77 | Nor does any service that has a cluster address, not imposed by the API server, and is asked to leave it, whatever else is made. |
| Convergence.PanicNeverMatches | kernel/handler/category_statefulset_handler.go:277-290 | Nor does any StatefulSet without claim templates that is offered one or another selector, whatever else is made. |
| Convergence.SecretNeverMatches | kernel/handler/category_secret_handler.go:48-73 | Nor does a secret with data, missing or as the API server stores it, whatever else is made: the text data is written but never read back. |
| Convergence.StaysStuck | kernel/component_reconcile_worker.go:108-267 | A resource that is stuck is stuck in every later state of every quiet run, whatever else is made beside it. |
| Convergence.PanicFreezes | kernel/component_reconcile_worker.go:108-267 | When a handler panics at the start, no later reconcile of a quiet run changes the cluster or the status at all. |
| Convergence.AnswersStay | kernel/handler/category_statefulset_handler.go:261-328 | Once stored, an object never makes its handler panic, so a quiet run without a panic at the start has none. |
| Convergence.RunDrops | kernel/component_reconcile_worker.go:108-267 | While none of such a group is stuck, every reconcile of a quiet run lowers its measure until it matches. |
| Convergence.GroupConverges | kernel/component_reconcile_worker.go:108-267 | Such a group matches from reconcile number Measure of the group on if and only if none of it is stuck at the start, whether or not other resources are; while a handler panics it matches only if it did. |
| Convergence.Converges | kernel/component_reconcile_worker.go:108-267 | Every quiet run that makes the same resources each time has all of them at their desired fingerprint from reconcile number Measure on, if and only if none was stuck at the start. |
| Specs.TwoMakes | kernel/handler/category_config_map_handler.go:15-21 | A ConfigMap with files of one name and different content can be made in two ways that no stored object matches both. |
| Specs.SteadyRun | kernel/util/config_map_util.go:75-113 | With one content per file name every reconcile of a spec makes the same resources, so its runs are those of the theorem above. |
| Specs.SpecConvergesIff | kernel/component_reconcile_worker.go:247-300 | For a spec whose data is made anew in any order by each reconcile: some number of reconciles suffices for everything to match ever after in all quiet runs, if and only if files of one name have one content in every ConfigMap and no made resource is stuck at the start. |
| Starvation.SameKeyPlan | api/core/framework_api.go:207-229 | Of three or more insertions of one key the plan keeps the first two and the last. |
| Starvation.MiddleStarves | kernel/component_reconcile_worker.go:108-245 | While the updates of the first two and the last of several changed ConfigMaps store what is stored already, no quiet reconcile changes any object, and every ConfigMap in between differs for ever. |
| Starvation.ThirdStarves | kernel/component_reconcile_worker.go:108-245 | An input: the third of four ConfigMaps is not stuck and matches in no state of any quiet run. |
| Discharge.DebtAfter | kernel/component_reconcile_worker.go:120-137 | When everything matches, a quiet reconcile discharges the pending restart of a resource exactly when it is the last in the list for its category; it adds none and changes no object. |
| Discharge.RestartsWhileInDebt | kernel/component_reconcile_worker.go:120-197 | The plan restarts a category exactly when some resource has a restart of it pending. |
| Discharge.OneDebtPerReconcile | kernel/component_reconcile_worker.go:108-245 | Along every quiet run from a matching cluster each reconcile discharges exactly one pending restart per category until none is left, and restarts the category exactly that often. |
| Discharge.TotalDischarge | kernel/component_reconcile_worker.go:108-267 | In every quiet run without a stuck resource, from reconcile number Measure plus the number of resources on, everything matches and no restart is pending. |
| RollingRestart.StepKeepsInv | kernel/util/buildin_resource_client.go:219-356 | Every step of the operator or the cluster keeps the protocol invariant. |
| RollingRestart.RunIsSafe | kernel/util/buildin_resource_client.go:219-356 | Starting with no deletion under way and at least two pods, at every step of every run, time-outs and errors included: before the first delete every good pod stays good, afterwards at most one pod is absent, terminating or not ready. |
| RollingRestart.FirstDelete | kernel/util/buildin_resource_client.go:228-283 | The first delete is issued only when every pod is present, ready and not terminating. |
| RollingRestart.RunSucceeds | kernel/util/buildin_resource_client.go:233-322 | A run that ends without error found no pod and deleted nothing, or has replaced every pod by a good one with another UID. |
| RollingRestart.SecondDown | kernel/util/buildin_resource_client.go:280-302 | If a pod other than the first is already being deleted, some run takes a second pod down. |
| RollingRestart.MistakenReturn | kernel/util/buildin_resource_client.go:337-353 | If the first pod is already being deleted, some run takes a terminating replacement for the restarted pod and deletes the next. |
| RollingRestart.SafeIff | kernel/util/buildin_resource_client.go:219-356 | Every run keeps all but one pod up, once it deletes, if and only if no pod was being deleted when it began. |
| RollingRestart.StillCluster | kernel/util/buildin_resource_client.go:222-283 | A look at a cluster that does not move leads to an error without templates or when some pod is missing or not ready, to nothing when there is no pod at all, and otherwise to the first deletion. |
| RollingRestart.CanSucceed | kernel/util/buildin_resource_client.go:219-322 | From any cluster without a deletion under way some run ends without error with every pod replaced. |
| RollingRestart.LonePodLost | kernel/util/buildin_resource_client.go:329-332 | For a single pod some run ends without error with the pod gone: the poll that finds nothing takes it for restarted. |
| RollingRestart.EndsGoodIff | kernel/util/buildin_resource_client.go:219-356 | Every run that deleted something and ends without error leaves all pods good, if and only if there are at least two. |
| RestartClient.PodClient.CheckIfExists | kernel/util/buildin_resource_client.go:358-381 | The look-ups, one at a time with the cluster moving in between, are steps of the protocol; an error stops them early. |
| RestartClient.PodClient.TerminalWaitPodReady | kernel/util/buildin_resource_client.go:324-356 | One poll answers true exactly when a complete look shows the pod back under a new UID and ready, or no pod at all. |
| RestartClient.PodClient.AwaitPod | kernel/util/buildin_resource_client.go:309-318 | The wait ends with the pod back or with the deadline error. |
| RestartClient.PodClient.Restart | kernel/util/buildin_resource_client.go:219-322 | Every execution of the code, against a cluster that moves between any two calls, is a run of the protocol that ends with its answer; so the theorems above are about the code. |
| Pods.IsPodReady | kernel/util/pod_util.go:94-113 | True exactly when every given pod is running with ready containers and no failed condition. |
| Pods.NotReadyIff | kernel/util/pod_util.go:94-113 | A pod is not ready exactly because of its phase, of a container that is not ready, waits or has terminated, or of one of three conditions. |
| Pods.CrashedIff | kernel/util/pod_util.go:115-132 | A pod counts as crashed if and only if it is not ready and the timeout has passed since its start, or since its creation when it has none. |
| Pods.Sort | kernel/util/pod_util.go:85-92 | A permutation in order of creation time. |
| Pods.Ordered | kernel/util/pod_util.go:57-83 | Crashed pods by age, then other pods that are not ready by age, then ready pods in input order. |
| Pods.OrderedIsPermutation | kernel/util/pod_util.go:57-83 | No pod is lost or duplicated. |
| Pods.BadPodsFirst | kernel/util/pod_util.go:57-83 | No pod precedes a crashed one without being crashed, and none precedes one that is not ready while being ready. |
| Pods.OldestFirst | kernel/util/pod_util.go:57-92 | Crashed pods, and late ones, come oldest first. |
| Pods.ReadyStayInOrder | kernel/util/pod_util.go:57-83 | When all pods are ready the order is the input order. |
| Ordinals.PodNamesDistinct | kernel/util/pod_util.go:44-55 | No pod is named twice, for any count. |
| Ordinals.RestartPods | kernel/apply_stage.go:34-54 | A restart acts on the pods its command lists, or on as many as the component of its category wants; none for an unknown category. |
| Ordinals.SameWidth | kernel/util/pod_util.go:51 | Ordinals with equally many digits are ordered like their texts, and differ when the texts do. |
| Environment.ModifyEnv | kernel/util/pod_util.go:193-213 | In every container, in place: variables with other names keep their order, and those of the given ones that carry a value follow them. |
| Environment.SetTwice | kernel/util/pod_util.go:193-213 | A second set of at least the same names gives what it gives alone. |
| Environment.SetThenRemove | kernel/util/pod_util.go:193-213 | Removing the names that were set gives back a container that had none of them. |
| Environment.SetThenGet | kernel/util/pod_util.go:182-213 | After a set in at least one container the first effective value of a name is read back, nothing for a removed name, and every other name reads as before. |
| Environment.SetMembers | kernel/util/pod_util.go:193-213 | A container then holds exactly its variables of other names and the given ones that carry a value or a value source. |
| Environment.GetEnvAt | kernel/util/pod_util.go:182-191 | The value read is that of the first variable of the name, container by container. |
| FailingOver.SetClient.Examine | kernel/util/buildin_resource_client.go:165-175 | Without an error the collected pods are those that were crashed when examined, none unless every look-up found its pod. |
| FailingOver.SetClient.RestartCrashed | kernel/util/buildin_resource_client.go:219-320 | The pods as read again are dealt with in the restart order, crashed ones first, a prefix of it completely and at most one pod more; only the given pods and the claims read again are asked to go; when all had vanished nothing is; success means all of them were. |
| FailingOver.SetClient.FailOver | kernel/util/buildin_resource_client.go:158-217 | What is asked to go is an outcome in the sense of the bound below, all crashed pods with their claims when the restart completes; after a call without error that set the recovery flag, or that found it left behind by a majority crash, the stored template is without the flag; otherwise the template is untouched. |
| FailingOver.FlagIsGone | kernel/util/buildin_resource_client.go:202-212 | A recovery flag that is reset is removed from every container, whatever value it had, and reads as unset. |
| FailingOver.FailOverBound | kernel/util/buildin_resource_client.go:158-199 | Every outcome deletes only pods of the templates, at most half of them, each not ready for longer than the timeout when examined, and none unless all templates exist; a pod within the limit is in no outcome. |
| FailingOver.FailOversIff | kernel/util/buildin_resource_client.go:165-175 | The pods to fail over are exactly those not ready for longer than the timeout, and none unless every template was found. |
| FailingOver.ActsIff | kernel/util/buildin_resource_client.go:180 | A fail-over acts on at least one and at most half of the pods. |
| FailingOver.BudgetIsReached | kernel/handler/category_pdb_handler.go:15-23 | For an odd size of three or more some fail-over takes exactly the budget. |
| FailingOver.SmallBudgets | kernel/handler/category_pdb_handler.go:15-23 | The budget is zero without a count and for one or two pods, and minus one for none. |
| FailingOver.QuorumIffOdd | kernel/handler/category_pdb_handler.go:15-23 | For every list of templates: all outcomes leave a strict majority, any two outcomes leave a common survivor, and all outcomes fit the disruption budget, each if and only if the number of pods is odd. |
| FailingOver.OddKeepsQuorum | kernel/util/buildin_resource_client.go:180-199 | For an odd number of pods, whatever two fail-overs delete, some pod survives both. |
| FailingOver.EvenSplits | kernel/util/buildin_resource_client.go:180-199 | For every even number of pods the fail-over of one half exceeds the budget and leaves no majority, and those of the two halves leave no common survivor. |
| Fingerprint.SortedKeys | api/v1beta1/middlewarecluster_types.go:278-284 | Whatever order the keys come in, the result is the ascending listing of the key set. |
| Fingerprint.ToString | api/v1beta1/middlewarecluster_types.go:278-291 | The text is that of the ascending listing of the keys. |
| Fingerprint.TextIsCanonical | api/v1beta1/middlewarecluster_types.go:278-291 | One map has one text. |
| Fingerprint.RoundTripIff | api/v1beta1/middlewarecluster_types.go:278-291 | Reading the text back gives the map if and only if no key contains = and no value a newline. |
| Fingerprint.Injective | api/v1beta1/middlewarecluster_types.go:139-150 | On such maps equal texts, hence equal hash pre-images, mean equal maps, and conversely. |
| Fingerprint.KeyCollision | api/v1beta1/middlewarecluster_types.go:278-291 | With = in a key two maps collide. |
| Fingerprint.ValueCollision | api/v1beta1/middlewarecluster_types.go:278-291 | With a newline in a value two maps collide. |
| Config.MergeConf | kernel/util/config_map_util.go:75-113 | The list holds one file per properties name, the file of the component winning, in some order. |
| Config.MountedFiles | kernel/handler/category_statefulset_handler.go:25-61 | The list holds one file per properties name, the file of the cluster winning, strictly sorted by properties name for every map order. |
| Config.BuildConfigMapMount | kernel/util/config_map_util.go:40-72 | Nothing is mounted without files; otherwise one volume over the ConfigMap of the component, named in lower case, picks the file names, in order, at the path of the first file. |
| Config.GetConfigMapData | kernel/handler/category_config_map_handler.go:15-21 | The data maps each file name to the content of the last file of that name. |
| Config.SameFiles | kernel/util/config_map_util.go:75-113 | The two merges, of opposite precedence, know the same properties names. |
| Config.Winners | kernel/util/config_map_util.go:75-113 | The ConfigMap has the last file of the component, or else the last of the cluster; the StatefulSet mounts the last file of the cluster, or else the first of the component. |
| Config.NameOfKey | api/v1beta1/middlewarecluster_types.go:342-344 | Of two files with one properties name, the names are equal, or one ends in a slash and the other. |
| Config.MountsIff | kernel/util/config_map_util.go:40-113 | For any set of file names: pods mount exactly the keys the ConfigMap has, for all files with these names under any paths and every order of both maps, if and only if no name ends in a slash and another of the names. |
| Config.SlashParts | kernel/util/config_map_util.go:40-113 | Two such names always give two files for which they differ. |
| Config.DataIsStableIff | kernel/handler/category_config_map_handler.go:15-21 | The ConfigMap data is the same for every map order if and only if files of one name have one content. |
| Config.DataVaries | kernel/handler/category_config_map_handler.go:15-21 | An input: two paths that hold files of one name and different content, both in the cluster or both in the component. |
| Claims.ClaimClient.Recycle | kernel/handler/category_pvc_handler.go:86-128 | Without error as many claims are left as the set has replicas, or as there were, and every kept name precedes every deleted one; no claim is left when the set is missing or has no count; a failed listing deletes nothing and reports nothing; a failed look-up of the set deletes nothing. |
| Claims.RecyclePods | kernel/handler/category_pvc_handler.go:86-128 | Up to ten claims, a scale-down to n replicas keeps exactly the claims of pods 0 to n-1. |
| Claims.SameWidthKeepsLowest | kernel/handler/category_pvc_handler.go:112-121 | When the ordinals have equally many digits, every kept claim has a lower ordinal than every deleted one. |
| Claims.KeepsLowestIff | kernel/handler/category_pvc_handler.go:112-121 | Scaling down the claims of pods 0 to m-1 keeps the lowest ordinals for every target count if and only if m is at most ten. |
| Results.Merge | api/core/framework_api.go:132-141 | The errors of the argument are lost; the shared reply is taken from it when the receiver is empty or the argument is not. |
| Results.Get | api/core/framework_api.go:143-179 | The answer has an error, a requeue or a positive delay exactly when the result was non-empty, and asking does not change whether it is; an error worth a retry is turned into a requeue. |
| Results.AnswerIff | api/core/framework_api.go:143-179 | The same for every result and reply, and asking twice answers the same. |
| Results.RetryIff | api/core/framework_api.go:158-170 | Errors are answered with a requeue instead if and only if one of them says that the object exists, conflicts or is missing; otherwise the first is reported and the reply stays. |
| Results.DelayIff | api/core/framework_api.go:171-174 | Without errors a default delay is used exactly when nothing else was asked for and nothing deleted. |
| Results.CopyChangesIff | api/core/framework_api.go:91-104 | Printing one copy changes whether another is empty exactly when the printed one has an error worth a retry and the other was empty. |

## Left out

- Hashing: a fingerprint is what the md5 text is computed from, so hash collisions are not modelled.
- Aliasing of status entries: `ComponentState` is a value; the Go code keeps pointers, but writes the same entry back under its name, so no reader sees a difference.
- Aliasing of error slices: two results grown from one copy may share a backing array in Go; here errors are values.
- Results with a nil reply, which no builder makes, and the log output of `Print`.
- Command chains of a handler are sequences; only the plan and the resource list are heap lists. The pointer an Update or ReCreate keeps to its desired object is modelled by aiming it at the final object.
- Status writes succeed: the conflict retry of the reduce stage, which writes back what it just fetched, is not modelled. A panic of a handler is modelled in quiet runs only, as a reconcile that applies and persists nothing. Timestamps and details of states other than the merge in the fingerprint stage are left out.
- Validate, Callback and post-apply of a command: their errors are dropped by the executor; what they leave in the shared result is an arbitrary input that can end a run early; their other effects on the cluster are left out, except the claim callback, which is modelled on its own.
- Extension handlers are arbitrary function values in the planner, executor and run theorems; convergence is about the built-in handlers.
- Convergence.Converges: does not cover claim lines; a fingerprint is a function of the content, that is, the rendering is assumed deterministic, which printing a toleration with a pointer field is not; the API server may fill in, impose or drop leaf fields and pod template leaves, but stores labels, selector, claim templates and replicas as pushed; a failed call is assumed to leave the objects as they were; the merge is an override of leaf fields in which a zero replica count counts as absent.
- DeleteAllOf by label selector removes the one object of the resource's name; labels are assumed to be unique to it.
- Recreation is one step of the API server; its polling loop is not modelled. Update conflicts appear as failed applies.
- Wall-clock deadlines are arbitrary numbers of polls in the rolling restart; one clock reading serves all pods of an ordering.
- FailingOver.SetClient.RestartCrashed: the waiting loops, which do not poll again, are steps that may fail.
- RollingRestart.RunIsSafe: readiness is a flag of the pod, as `Pods.IsPodReady` computes it.
- RollingRestart.SafeIff: a pod that is present, ready and not terminating does not fail on its own: the environment removes terminating pods, replaces absent ones and changes the readiness of pods that are not good.
- Pods.Sort: promises nothing about pods of one age, as the source's sort is not stable.
- Make functions, the fields that rendering picks, TcpGather, owner references, RBAC, watches, logging and event recording: field copying and I/O, which would only add easy members.
- Ingress, HPA, Job, CronJob and Secret handlers beyond the base answer.
