# Control-plane protocols, modelled and proved in Dafny

This project models the parts of the platform control plane where a mistake would change real
infrastructure: who may run Terraform, when, how often, on whose approval, from which inputs, and when
an object may finally be let go. Every statement below is about all inputs, all interleavings or all
reachable states of the model; nothing here executes the control plane itself.

`dafny verify dfyconfig.toml` checks the whole project.

## How the model is cut

| file | what it models |
|---|---|
| `Gate`, `GateRuns` | the execution gate as a class with its redundant counters, and whole sequences of calls on it |
| `Api`, `RunHistory` | the objects of the API server, and how a run's status may evolve |
| `Admission`, `AdmissionProofs`, `Console` | building Plan, Destroy and Apply runs, approvals, Apply admission and validation, the approve button |
| `ArtifactStore`, `Runner`, `Capture` | the write-once store, one runner process, and how its result is verified and recorded |
| `Execution`, `ExecutionSafety`, `JobRecords`, `ExecutionSlots`, `SlotReconstruction`, `SlotCoverage`, `SlotReturns`, `ExecutionGuards`, `ExecutionTrace`, `ExecutionProcess`, `Reconstruction` | the TerraformRun reconciler as a state machine with stale reads, lost writes and crashes; its invariants; what its guards let through; which slots come back; the imperative steps; recovery |
| `StackLifecycle`, `StackSafety`, `StackRemoval`, `StackDecisions`, `StackTrace`, `StackScans` | the InfraStack reconciler over its runs, up to the finalizer, with cached lists and writes that fail or lose their answer |
| `EnvironmentDeletion`, `Quota` | the deletion protocol across three objects read from a cache, and tenant admission |
| `Bootstrap`, `Pruning` | wave-ordered apply and guarded pruning against a cluster others change too |
| `PlanGraph`, `ModuleInputs`, `SourceBundle`, `Paths`, `Text`, `Sets` | the plan graph, frozen inputs, the source bundle, and the facts about strings and sets they need |

Code that changes fields in place is a class or a loop here too, each method proved against a
specification function or a property; code that only computes is a function with lemmas.

How finely a step is cut differs. In the machine of the TerraformRun reconciler (`Execution`) a step is one
API call or one local decision, so that a crash can fall between any two; a read returns any version a run
ever had, a status update succeeds only against the latest version and may be lost or succeed without an
answer, and a Create request may land after its caller has given up. In the machines of the InfraStack
(`StackLifecycle`) and of an environment's deletion (`EnvironmentDeletion`) a step is one whole pass. It
reads from a cache: a list may leave out runs that exist and show any earlier status of the others, and a
child object may be missing or shown as it once was. Each of its writes may fail or lose its answer, and an
update against a version that is not the current one is refused. The object the pass is about is read as it
is, and nothing else happens between the reads and the writes of one pass.

Digests are an injective constructor, JSON and archive encodings exact round trips, creation times and
UIDs inputs. Names that hash their arguments are arbitrary functions.

## What turned out not to hold

Each of these is a proved statement about the code as it is, with the exact condition.

- **Slot coverage can be lost.** `SlotCoverage.CoverageIsLostExactly` lists, for every reachable state, the
  steps that leave an unfinished Job without its slot, and `CoveredThroughout` says that runs without such
  a step are exactly those covered from beginning to end. Where nobody else makes Jobs there are two kinds
  left (`OwnLossesAre`): a reconciliation gives its slot back while the Job of its run is running, or a
  Create reported as failed lands after all. The first is a Create reported as failed that has made its
  Job, or a reconciliation that works on a cached run without its Job reference (`RunningMeansOutdated`). The
  latter is told that it holds the slot already, and keeps it only if its lookup finds the Job
  (`OutdatedEnds`, `OutdatedReadLosesSlot`, and the concrete run
  `ExecutionTrace.OutdatedReadBreaksCoverage`). At-most-once execution does not depend on any of this.
- **A slot can be left behind.** A run whose Job is not found any more, or turns out to be another's, is recorded
  Indeterminate without its slot being given back (`SlotReturns.LostJobKeepsItsSlot`), and from then on nothing
  gives it back before the process restarts, unless a reconciliation of that run reads an outdated status
  (`SlotReturns.SettledKeepsItsSlot`). `SlotReturns.SlotComesBackExactly` and `FinishFreesExactly` say for every
  step of a reconciliation when it does give its slot back.
- **The finalizer of a stack can go beside an unsettled Apply**, in two ways. A Removed condition is trusted
  after it became outdated: the finalizer write failed, the stack was wanted again, and the status writes
  of its Plan and Apply were lost (`StackTrace.OutdatedConditionIsReachable`). Or the list of runs that
  Destroy looks through leaves the Apply out (`StackTrace.MissedApplyReleases`).
  `StackRemoval.ReleaseIsRightExactly` says for every reachable state, whatever the lists show, when a release
  is right. On the word of the condition: when no Apply was ever admitted, or every Apply is settled and a
  Destroy run is more recent than every Apply of the other mode; durable evidence of the removal then
  follows (`RunBacked`). On what a list shows: when the Applies it left out were never admitted (before a
  first convergence) or are settled (after it). With complete lists, exactly an outdated condition beside an
  Apply that was admitted is wrong (`FinalizerSafetyExactly`).
- **An environment's deletion goes out of order if a pass does not see an object that exists**
  (`EnvironmentDeletion.UnseenChildIsOvertaken`), and lets go too early exactly then
  (`EnvironmentDeletion.ReleaseIsRightExactly`). Outdated versions of objects that are seen do no harm.
- **The recovery guard of an environment's deletion cannot hold** while the ResourceSet exists, so an
  Apply that ended Indeterminate does not hold back the ResourceSet's deletion.
- **A failed Apply with its artifacts ready never comes from the shipped runner**, so the controller's
  handling of a failure before mutation is unreachable with it (`Capture.ApplyFailsOnlyOnContradiction`).
- **An approved Destroy is admitted only if role, service account and runner identity of the stack are
  still those of the converged run**, although everything else is rebuilt from the record.
- **Quota**: an environment that a status recorded without a check made count, for an invalid spec or
  because it named its own stack, passes every later check. With (timestamp, name) order being creation
  order among the living, no more are granted than the maximum and those that came late that way
  (`Quota.GrantedBound`), and with fresh reads no more are admitted than the maximum and those
  (`Quota.AdmittedBound`); both are attained for every maximum and every number (`Quota.UncheckedExceedsQuota`).
  For every maximum and every two environments whose order contradicts creation, a run in which all are
  checked exceeds it (`Quota.DisagreementExceedsQuota`). An annotation is enforced as written exactly below 2^31.
- **`pruneRemoved` treats an item that is already gone as an error**, and ends with NotFound exactly for that
  reason (`Pruning.MissingItemEndsThePass`); `pruneInventory` does not.
- **Keys collide**: an inventory address shares its key with another exactly when a part of it holds a slash
  (`Pruning.KeyIsItsOwnExactly`), an edge of a plan exactly when an address of it holds NUL
  (`PlanGraph.KeyIsItsOwnExactly`). A graph loses an edge exactly when two of the plan's edges share a key
  (`PlanGraph.EdgesAreLostExactly`), and every two possible edges that share one do so in some plan (`PlanGraph.NulLosesAnEdge`).
- **`bundlePathAllowed` does not refuse `..` by itself** (`SourceBundle.DotDotIsAllowed`); of all paths that
  lead out of the destination it lets through exactly those that clean to `..`, and the check against the
  destination refuses them (`SourceBundle.OnlyDotDotSlipsThrough`).

## Model

| member | source | states |
|---|---|---|
| ExecutionGate.Gate.constructor | internal/reliability/gate.go:42-44 | A new gate is open, empty, and every counter is exact |
| ExecutionGate.Gate.CloseAdmission | internal/reliability/gate.go:46-50 | Closes the gate for new items and changes no item, no counter and no other flag |
| ExecutionGate.Gate.TryAcquire | internal/reliability/gate.go:54-70 | True exactly when the ID is already held for the same kind and stack, or the gate is open and unflagged, fewer items of the kind are counted than its limit, fewer of its group than the group allows, and for an Apply none on its stack; only then is the item added, and all counters stay exact |
| ExecutionGate.Gate.EnsureActive | internal/reliability/gate.go:72-86 | The same condition, count by count: a running Job gets no privilege over a new one |
| ExecutionGate.Gate.Release | internal/reliability/gate.go:115-138 | Removes what is held under the ID, whatever else the argument says; over-capacity clears only if both totals are then within limits |
| ExecutionGate.Gate.Reconstruct | internal/reliability/gate.go:164-198 | The gate becomes the one rebuilt from the items alone; safety violation exactly when an item is invalid, an ID repeats or two Applies share a stack |
| ExecutionGate.Gate.HasCapacity | internal/reliability/gate.go:140-162 | Reading five counters answers the question about the set of items: fewer of the kind than its limit, fewer of the group than its limit, no Apply on the stack |
| ExecutionGate.NewItemGrantedExactly | internal/reliability/gate.go:54-70 | An ID that is not held is granted if and only if it is not empty, the gate is ready with neither flag set, and by the counts there is room in total, in the group and, for an Apply, on its stack; an unknown kind never is |
| ExecutionGate.HeldItemGrantedExactly | internal/reliability/gate.go:58-62 | An ID that is held is granted again if and only if kind and stack are those it is held for, whatever flags and counters say |
| ExecutionGate.CountsAre | internal/reliability/gate.go:98-113 | What the counters count: the active items, and the observed ones they replaced, of that kind, stack or group |
| ExecutionGate.ConflictingExactly | internal/reliability/gate.go:164-190 | Observed items conflict if and only if one has no ID or no known kind, or two proper ones share an ID or, both Applies, a stack |
| ExecutionGate.CountAfterRebuild | internal/reliability/gate.go:200-215 | After a reconstruction every counter counts each valid observation, repeated IDs included |
| ExecutionGate.StackOccupied | internal/reliability/gate.go:176-186 | The stack counter that Reconstruct consults is positive exactly when an earlier valid Apply was on that stack |
| ExecutionGate.ConflictGrows | internal/reliability/gate.go:164-190 | Judging item by item finds a conflict exactly when the whole list has one |
| GateRuns.RunOrigin | internal/reliability/gate.go:54-198 | Over every sequence of calls the violation flag is decided by the last reconstruction alone |
| GateRuns.CountersMatchActiveItems | internal/reliability/gate.go:98-138 | Over every sequence of calls no counter is below the active items it stands for, and all are equal to them exactly when the last reconstruction saw no ID twice |
| GateRuns.ShadowsAreRepeats | internal/reliability/gate.go:200-215 | Items overwritten but still counted exist exactly when a reconstruction observed an ID twice |
| GateRuns.OverCapacityIsExact | internal/reliability/gate.go:132-136 | The over-capacity flag is set exactly while the Plans or the Applies counted exceed their limit, over every sequence of calls |
| GateRuns.CapacityBound | internal/reliability/gate.go:140-162 | Active Plans and Applies never exceed the larger of the limit and what the last reconstruction found |
| GateRuns.GroupBound | internal/reliability/gate.go:140-162 | The same bound for one kind within a group whose items of that kind agree on a positive limit |
| GateRuns.AdmissionsAreGuarded | internal/reliability/gate.go:63-70 | Only a reconstruction, or a request with a ready gate, no over-capacity, no violation and room, makes an ID active |
| GateRuns.GrantedExactly | internal/reliability/gate.go:54-162 | After every sequence of calls an ID that is not held is granted if and only if the gate was not closed since the last reconstruction, that one saw no conflict, no total is above its limit, and one more of its kind fits in total, in its group and on its stack |
| GateRuns.FillsUp | internal/reliability/gate.go:42-70 | A new gate can be filled to its limits: Plans and Applies up to their limits, Applies on different stacks, are all granted, in any order |
| GateRuns.EmptyGateGrants | internal/reliability/gate.go:42-70 | A new gate with positive limits grants every proper item without a group |
| GateRuns.ViolationBlocks | internal/reliability/gate.go:63-67 | After a reconstruction with a violation nothing is admitted until the next one |
| GateRuns.OneApplyPerStack | internal/reliability/gate.go:140-162 | Unless the last reconstruction reported a violation, no stack has two Applies in the gate |
| ArtifactStore.Store.PutImmutable | internal/artifacts/s3.go:59-99 | Succeeds exactly when the create was answered, the stored content is the given one and, if the key was taken, both comparison reads were answered; an object already stored is never replaced; the Ref reads back the same content |
| ArtifactStore.Store.GetVerified | internal/artifacts/s3.go:101-125 | What it returns is stored under the key and has the digest of the reference; whenever the content stored has that digest, it is returned |
| ArtifactStore.Store.GetVerifiedByKey | internal/artifacts/s3.go:127-137 | What it returns is stored under the key, has the digest kept in the object's own metadata and reads back under the reference returned with it; an object that was stored by PutImmutable is always returned |
| ArtifactStore.KeyIsValidExactly | internal/artifacts/s3.go:163-168 | A key is accepted if and only if it holds no backslash and is `.` or has no empty or `.` part and `..` only in front; keys that lead upwards are among them |
| ArtifactStore.FirstWriteWins | internal/artifacts/s3.go:59-99 | From an empty bucket, over every sequence of puts with lost requests and replies, a key holds the content of the first put that arrived, for ever |
| ArtifactStore.ReadsAreStable | internal/artifacts/s3.go:101-125 | A reference that reads back goes on reading back the same content, whatever is put later |
| Admission.ValidApprovalForPlan | internal/controller/infrastack_controller.go:369-389 | Finds the first approval in the list that is in the Plan's namespace and repeats its name, UID, digests and report before it expires, and none only if there is none |
| Admission.EnsureApplyRun | internal/controller/infrastack_controller.go:391-425 | Only an admitted approval yields an Apply; a listed Apply of the Plan, in this namespace and for this stack, prevents a new one and is used only if this stack owns it; an Apply that was not listed is used only if it is this stack's, under the one name, with the very spec that would be created |
| AdmissionProofs.UsableExactly | internal/controller/infrastack_controller.go:369-389 | An approval is usable if and only if it is in the Plan's namespace, repeats its name, UID, digests and report, and the Plan has an expiry that has not come |
| AdmissionProofs.BuiltApplyBinds | internal/controller/infrastack_controller.go:793-858 | After admission, the Apply's own bindings to approval and Plan hold by construction |
| AdmissionProofs.ApplyValidationIsExact | internal/controller/terraformrun_controller.go:250-318 | The Apply reconciler's checks accept exactly the Apply the stack reconciler would build now, for a Plan it would still admit, with plan, source bundle, backend, report, terminal result and module inputs all in the store with their digests |
| AdmissionProofs.ValidatedMeansAuthorised | internal/controller/terraformrun_controller.go:250-318 | A validated Apply has one approval by UID with every digest, of a finished, complete, unexpired Plan of this generation, context and runner identity, with the fence down unless it is a Destroy |
| AdmissionProofs.ApplyCarriesPlan | internal/controller/infrastack_controller.go:793-858 | An Apply differs from its Plan only in what makes it an Apply: operation, retained bundle and backend, approved artifacts, approval and fence |
| AdmissionProofs.ApplyRunsWhatWasAsked | internal/controller/infrastack_controller.go:604-643 | From the stack to the Apply: what an admitted Apply of a Reconcile Plan runs is, field by field, what the stack asked for when the Plan was made |
| AdmissionProofs.ContextDetectsEveryEdit | internal/controller/infrastack_controller.go:860-876 | A Plan's context digest still fits exactly while the stack spec is unchanged apart from the two flags it leaves out |
| AdmissionProofs.DestroyRebuildsConvergedRun | internal/controller/infrastack_controller.go:645-791 | Recording a convergence and rebuilding after any edit gives the converged run's own spec as a Destroy Plan over the retained bundle and backend |
| AdmissionProofs.DestroyUsesWhatApplyUsed | internal/controller/infrastack_controller.go:645-717 | After a converged Apply, Destroy uses the bundle, backend, inputs, workspace, executor, role and service account that Apply ran with |
| AdmissionProofs.DestroyIgnoresEdits | internal/controller/infrastack_controller.go:645-741 | Of the stack as edited since, only name, generation and fence reach the Destroy Plan |
| AdmissionProofs.DestroyAdmittedIffIdentityKept | internal/controller/infrastack_controller.go:427-468 | An approved Destroy is admitted if and only if the stack's role, service account and runner identity are still the converged run's |
| AdmissionProofs.FreshPlanAdmittedIffUnedited | internal/controller/infrastack_controller.go:427-468 | An approved Reconcile Plan is admitted if and only if the fence is down, the generation is the planned one and the spec is unedited but for the two flags |
| Console.Server.ApprovePlan | internal/console/server.go:347-433 | Accepts only an approval of a finished, current Plan whose digests the request repeats; at most one approval is created |
| Console.AcceptedExactly | internal/console/server.go:347-433 | An approval is accepted if and only if the request repeats UID, digests and report of a complete, unexpired Plan with changes of the stack as it is, unfenced unless it destroys, and no other approval has its name; what is accepted repeats all the Plan says |
| Console.ApprovingAgainChangesNothing | internal/console/server.go:388-433 | A repeated request, at any later time before expiry, answers with the same approval and creates nothing |
| Console.PlannedUntilEdited | internal/controller/infrastack_controller.go:214-226 | A Plan made by ensurePlanRun fits its stack exactly until the spec is edited outside the two flags |
| Console.AcceptedIsAdmitted | internal/console/server.go:347-433 | Whatever the console accepts is usable, and whichever usable approval the controller picks passes Apply admission while nothing changes |
| Console.AcceptedReachesExecution | internal/controller/terraformrun_controller.go:250-318 | The Apply created for it also passes the Apply reconciler's own validation while the approved artifacts are readable |
| Runner.ExecutePlan | internal/terraform/executor.go:115-161 | Without an error init succeeded, the workspace was selected or created, the deadline was kept and Terraform exited with 0 for no change or 2 for changes; and with no fault in the way such an exit is never an error |
| Runner.ExecuteApply | internal/terraform/executor.go:163-204 | Succeeded exactly when init succeeded, the workspace was selected or created, the deadline was kept and Terraform exited with 0 |
| Runner.Start | internal/terraform/executor.go:213-251 | No error if and only if init exited with 0 and the workspace was selected or, where that exited with another code, created; an error is the deadline's exactly when the step that ended it was cut off by the deadline |
| Runner.UploadPlanArtifacts | cmd/terraform-runner/main.go:373-442 | Success means that plan and report, and the snapshots that apply, read back under the references filled in; the terminal result is left alone and nothing is overwritten |
| Runner.UploadDiscovery | cmd/terraform-runner/main.go:444-483 | Discovery without the digests of source, backend and inputs, or an upload that fails, makes the artifacts not ready; nothing else of the result changes; with no fault the discovery reads back |
| Runner.Prologue | cmd/terraform-runner/main.go:122-194 | Terraform is started only after version and inputs were found as requested and the bound inputs are stored and read back |
| Runner.ConcludePlan | cmd/terraform-runner/main.go:196-238 | The Plan's result is honest: a positive outcome needs preparation, the right workspace and the matching exit code; with no fault it is complete |
| Runner.ConcludeApply | cmd/terraform-runner/main.go:249-302 | The Apply's result is honest: Succeeded needs preparation, the right workspace and exit 0, Indeterminate a deadline that passed, and artifacts are ready only with success; with no fault it is complete |
| Runner.RunPlan | cmd/terraform-runner/main.go:117-248 | Whatever fails, a Plan's runner overwrites nothing and leaves no terminal result that preparation, workspace and Terraform's exit code do not support; if nothing fails, a complete one |
| Runner.RunApply | cmd/terraform-runner/main.go:117-312 | The same for an Apply, with or without the retained discovery of a Destroy |
| Capture.RecordedKeepsJob | internal/controller/terraformrun_controller.go:435-475 | Recording a finished Job settles the outcome, never as Rejected, and never touches the Job's identity |
| Capture.RunObject.ApplyTerminalResult | internal/controller/terraformrun_controller.go:547-626 | The field-by-field assignments give the status the outcome table speaks of, fallbacks for missing references included |
| Capture.RunObject.ApplyMissingTerminalResult | internal/controller/terraformrun_controller.go:628-635 | Without trusted evidence an Apply is Indeterminate and a Plan Failed, never anything better |
| Capture.RunObject.Finish | internal/controller/terraformrun_controller.go:435-475 | What a finished Job leaves in the status depends only on the run and on what the store verifies |
| Capture.IdentityExactly | internal/controller/terraformrun_controller.go:477-513 | A terminal result is taken as the run's own if and only if it names the run, the Job that was observed and the Job on record, its times are in order, and outcome, operation, exit code and plan reference fit each other |
| Capture.VerifiedMeansConfirmed | internal/controller/terraformrun_controller.go:515-545 | Verification that passes has confirmed each artifact the result refers to, the module inputs among them |
| Capture.ConfirmedMeansVerified | internal/controller/terraformrun_controller.go:515-545 | Conversely those artifacts, the identity and the approved closure are all that verification asks for |
| Capture.EvidenceIsRecorded | internal/controller/terraformrun_controller.go:547-602 | Every reference the recorded status holds reads back |
| Capture.PositiveNeedsEvidence | internal/controller/terraformrun_controller.go:604-626 | No matter what is in the bucket, no positive outcome is recorded without its evidence, and no Succeeded without the approved closure |
| Capture.PositiveComesFromTheRun | internal/controller/terraformrun_controller.go:449-475 | A positive outcome comes from a terminal result under the run's own key that passed all that, and the status repeats what it says, expiry included |
| Capture.PlanOutcomes | internal/controller/terraformrun_controller.go:477-545 | With an honest runner a Plan is NoChange only after exit 0 and ChangesPresent only after exit 2, in a workspace that was selected or created, all evidence verified, and otherwise Failed |
| Capture.ApplyOutcomes | internal/controller/terraformrun_controller.go:604-635 | With an honest runner an Apply ends Succeeded, after exit 0 in a workspace that was selected or created, with evidence, or Indeterminate, never Failed |
| Capture.ApplyFailsOnlyOnContradiction | internal/controller/terraformrun_controller.go:604-626 | An Apply is recorded Failed if and only if its verified result claims a failure with artifacts ready |
| Capture.FaultlessPlan | internal/controller/terraformrun_controller.go:449-545 | A Plan in which nothing fails is recorded as exactly what Terraform's exit code says |
| Capture.FaultlessApply | internal/controller/terraformrun_controller.go:449-545 | An Apply in which nothing fails, over readable approved artifacts, is recorded Succeeded |
| RunHistory.AppendKeepsHistory | internal/controller/terraformrun_controller.go:637-657 | One more status version keeps the history of a run well-formed |
| ExecutionSafety.AtMostOnce | internal/controller/terraformrun_controller.go:160-178 | Over every interleaving with stale reads, lost writes, crashes and late Creates, one Create request at most is ever sent for a run and one Job at most comes of it |
| ExecutionSafety.OneApplyPerPlan | internal/controller/infrastack_controller.go:894-897 | However many approvals match a Plan and however many runs claim it, at most one Apply Job is ever requested for it |
| ExecutionSafety.OnlyAuthorisedApplies | internal/controller/terraformrun_controller.go:149-154 | Every Apply Job ever requested was authorised by an approval, a Plan version and a stack that were all in the API server, and its spec is the one recomputed from them |
| ExecutionSafety.ApplyKey | internal/controller/terraformrun_controller.go:299-301 | An Apply that got a Job carries the one name its Plan allows |
| ExecutionSafety.HistoryIsStable | internal/controller/terraformrun_controller.go:100-102 | A status that names a Job names it for ever, and a settled Apply keeps its status for ever |
| ExecutionSafety.RejectedNeverRan | internal/controller/terraformrun_controller.go:97-159 | A run that is ever recorded Rejected never had a Job requested |
| ExecutionSafety.NextKeeps | internal/controller/terraformrun_controller.go:78-219 | Every step of every reconciliation, and everything the world does, keeps the safety invariant |
| ExecutionSafety.RunKeeps | internal/controller/terraformrun_controller.go:78-219 | The safety invariant holds in every reachable state |
| JobRecords.NextJobs | internal/controller/terraformrun_controller.go:78-219 | While nobody else makes Jobs, each step keeps the record of Jobs: a Job carries the name, owner and label of a run whose Create was executed, no run has two, and a Job UID in a status is that of the run's only Job |
| JobRecords.RunJobs | internal/controller/terraformrun_controller.go:78-219 | So that record holds in every state of every such run, outdated reads and failed Creates included |
| SlotCoverage.EveryJobHasItsSlot | internal/controller/terraformrun_controller.go:144-218 | With fresh run reads and honest Create failures, while the gate is open every unfinished Job's run holds its slot, through crashes and restarts |
| SlotCoverage.OneApplyJobPerStack | internal/controller/terraformrun_controller.go:144-218 | Under the same hypotheses no stack ever has two unfinished Apply Jobs, not even between a crash and the recovery |
| SlotCoverage.ReconstructionIsExact | internal/controller/terraformrun_reconstruction.go:38-62 | On such a cluster reconstruction reports no violation and finds exactly the runs with unfinished Jobs, in whatever order Jobs are listed |
| SlotCoverage.NextSlots | internal/controller/terraformrun_controller.go:144-218 | Each step under those hypotheses keeps the slot invariant |
| SlotCoverage.CoverageIsLostExactly | internal/controller/terraformrun_controller.go:144-218 | From every reachable state where unfinished Jobs are covered, one step uncovers one if and only if it gives a slot back while a Job of that run is unfinished, makes a Job for a run without a slot, brings in a foreign Job without one, or reconstructs a gate over a Job that no run can be found for |
| SlotCoverage.CoveredThroughout | internal/controller/terraformrun_controller.go:144-218 | Over every sequence of steps, all states are covered if and only if no step is of those kinds |
| SlotCoverage.OwnLossesAre | internal/controller/terraformrun_controller.go:144-218 | Where nobody else makes Jobs, the losing steps are exactly a rejection, refused Job, failed lookup, unstored intent or failed Create while the run's Job is running, and a Create that lands without a slot; a recorded finish and a reconstruction never lose one |
| SlotCoverage.RunningMeansOutdated | internal/controller/terraformrun_controller.go:144-171 | A reconciliation before its intent whose Job is running works on a version from before an earlier intent |
| SlotCoverage.OutdatedEnds | internal/controller/terraformrun_controller.go:155-183 | Plan or Apply, of its possible continuations exactly a refused Job, a failed lookup and every attempt to store the intent uncover the Job; finding the Job keeps it covered |
| SlotCoverage.OutdatedReadLosesSlot | internal/controller/terraformrun_controller.go:144-171 | An outdated reconciliation of a running Plan or Apply whose lookup does not find the Job ends with it uncovered, whatever validation says |
| SlotReturns.SlotComesBackExactly | internal/controller/terraformrun_controller.go:149-183 | A reconciliation that holds its slot gives it back if and only if its Apply does not validate, its Job is refused, its lookup fails, its intent is not known to be stored or its Create is reported failed |
| SlotReturns.FinishFreesExactly | internal/controller/terraformrun_controller.go:144-218 | A reconciliation that has just begun gives a slot back if and only if it finds the run's own Job finished and the result it makes of that very Job is on record, by its write or before it |
| SlotReturns.FreedMeansRecorded | internal/controller/terraformrun_controller.go:214-218 | When such a slot has come back, that result is among the versions of the run's status |
| SlotReturns.SettledKeepsItsSlot | internal/controller/terraformrun_controller.go:100-102 | Over every continuation without a restart and without an outdated read of the run: once its outcome is settled while it holds a slot and nobody works on it, it holds that slot for good |
| SlotReturns.LostJobKeepsItsSlot | internal/controller/terraformrun_controller.go:199-208 | That is so, from every reachable state, after a recorded Job that holds a slot is not found or found to be another's |
| ExecutionTrace.AfterFinish | internal/controller/terraformrun_controller.go:144-198 | A concrete run from an empty cluster to a recorded running Job, every hypothesis met: the theorems above are not vacuous |
| ExecutionTrace.OutdatedReadBreaksCoverage | internal/controller/terraformrun_controller.go:167-171 | Continuing that run with one outdated reconciliation uncovers the running Job |
| ExecutionProcess.Process.constructor | internal/controller/terraformrun_reconstruction.go:72-86 | A new process on an existing cluster is the crashed state: gate made, closed and empty before anything runs |
| ExecutionGuards.OpensExactly | internal/controller/terraformrun_controller.go:97-102 | A reconciliation goes to work on a run if and only if the version read has no terminal outcome and the run is no fenced Apply, unless it destroys |
| ExecutionGuards.FencedIsRejected | internal/controller/terraformrun_controller.go:97-99 | A fenced Apply is rejected, and nothing else is ever done for it |
| ExecutionGuards.SlotIsGrantedExactly | internal/controller/terraformrun_controller.go:144-148 | A run without a slot gets one if and only if the gate is open and, by the counts, there is room for one more of its operation in total and under the run's own group limits, and for an Apply on its own stack |
| ExecutionGuards.SlotNamesTheRun | internal/controller/terraformrun_controller.go:238-248 | The slot stands for the run's UID, operation, namespace, stack, group and both group limits |
| ExecutionGuards.OnlyOwnJobsAreAdopted | internal/controller/terraformrun_controller.go:184-196 | A Job found under the run's name is adopted if and only if label and owner carry the run's UID and its UID contradicts none on record; any other makes the outcome Indeterminate |
| ExecutionGuards.OnlyOwnJobsAreObserved | internal/controller/terraformrun_controller.go:199-208 | A recorded Job that is missing or not the run's own makes the outcome Indeterminate and changes nothing else |
| ExecutionGuards.RunningIsRecorded | internal/controller/terraformrun_controller.go:435-447 | The run's own unfinished Job is recorded Running while it is active and Pending while it is not |
| ExecutionProcess.Process.EnsureExecutionSlot | internal/controller/terraformrun_controller.go:221-230 | Asks the real gate with the run's own item, new Job or running one |
| ExecutionProcess.Process.ReleaseExecutionSlot | internal/controller/terraformrun_controller.go:232-236 | Gives back exactly the run's slot |
| ExecutionProcess.Process.UpdateExecutionStatus | internal/controller/terraformrun_controller.go:637-657 | Writes only against the version it read, and leaves the write out only if what it reads again says the same |
| ExecutionProcess.Process.AskSlot | internal/controller/terraformrun_controller.go:144-148 | The imperative step is the state machine's, on the real gate |
| ExecutionProcess.Process.Validate | internal/controller/terraformrun_controller.go:149-154 | An Apply goes on only if it validates against the objects read, and is otherwise rejected with its slot given back; a Plan goes on |
| ExecutionProcess.Process.Abort | internal/controller/terraformrun_controller.go:149-165 | Every exit before the intent gives the slot back, then rejects if it has to |
| ExecutionProcess.Process.FindJob | internal/controller/terraformrun_controller.go:160-196 | A Job found under the name is adopted if it is this run's and else makes the outcome Indeterminate; the slot is kept |
| ExecutionProcess.Process.PersistIntent | internal/controller/terraformrun_controller.go:167-174 | No Create goes out unless the Job reference was stored first |
| ExecutionProcess.Process.SendCreate | internal/controller/terraformrun_controller.go:175-175 | The Create is sent, and recorded as issued, only after the intent |
| ExecutionProcess.Process.CreateFails | internal/controller/terraformrun_controller.go:175-178 | A Create reported failed gives the slot back and leaves the intent on record |
| ExecutionProcess.Process.RecordStart | internal/controller/terraformrun_controller.go:184-196 | The created Job's identity is written against the version the reconciliation worked on |
| ExecutionProcess.Process.ObserveActive | internal/controller/terraformrun_controller.go:209-213 | A Job that still runs takes its slot or waits for one |
| ExecutionProcess.Process.ObserveFinished | internal/controller/terraformrun_controller.go:214-218 | The slot of a finished Job is given back only once its result is recorded |
| ExecutionProcess.Process.Recover | internal/controller/terraformrun_reconstruction.go:19-63 | Recovery from fresh lists is the state machine's reconstruction step |
| Reconstruction.IndexRuns | internal/controller/terraformrun_reconstruction.go:24-36 | The loop gives each UID the last run listed with it, and ignores runs without one |
| Reconstruction.Classify | internal/controller/terraformrun_reconstruction.go:44-58 | An unfinished Job becomes a valid item if and only if its label or owner, its name and its identity belong to a listed run, and then with that run's UID, kind, stack, group and group limits; otherwise it is an invalid item rather than being left out |
| Reconstruction.CollectItems | internal/controller/terraformrun_reconstruction.go:38-60 | Every unfinished Job in the list, and no finished one, is an item, in order |
| Reconstruction.ReconstructActiveTerraformRuns | internal/controller/terraformrun_reconstruction.go:19-63 | Leaves the gate rebuilt from the unfinished Jobs and reports its flags |
| Reconstruction.ListedRuns | internal/controller/terraformrun_reconstruction.go:20-36 | A fresh list of runs restores the map of current runs, whatever its order |
| Reconstruction.RestartIsExact | internal/controller/terraformrun_reconstruction.go:19-63 | A restart end to end: the code's own scan gives the gate exactly the runs with unfinished Jobs and no violation |
| StackSafety.RunHistoryKept | internal/controller/infrastack_controller.go:47-155 | Whatever lists show and whichever writes fail, in every reachable state an Apply has the mode and generation of a Plan of the stack, runs of the current generation have the stack's mode, and no Destroy run exists without a recorded convergence |
| StackRemoval.RunBacked | internal/controller/infrastack_controller.go:47-155 | Whatever lists show and whichever writes fail, a Removed condition is either outlived by an Apply more recent than every Destroy run or, once there was a convergence, backed by durable evidence that no other Apply came after |
| StackRemoval.RemovedTells | internal/controller/infrastack_controller.go:89-92 | Beside a Removed condition there is durable evidence of the removal if and only if some Destroy run is more recent than every Apply of the other mode |
| StackRemoval.ReleaseIsRightExactly | internal/controller/infrastack_controller.go:89-155 | In every reachable state, whatever the lists show: a release leaves all Applies settled, and either none admitted or the removal shown by durable evidence, if and only if, on the word of a Removed condition, none was ever admitted or, with a recent Destroy run, all are settled; on a list without a recorded convergence, the Applies it left out were never admitted; on a list with one, they are settled |
| StackRemoval.ReleaseWithFullList | internal/controller/infrastack_controller.go:89-155 | With a list that leaves nothing out, a release is wrong exactly when it trusts a Removed condition although an Apply was admitted and no recent Destroy run with all Applies settled stands beside it |
| StackSafety.ListTellsSettled | internal/controller/infrastack_controller.go:93-111 | A list whose Applies are all settled, however outdated, tells that every Apply is exactly when those it leaves out are |
| StackSafety.RunSafe | internal/controller/infrastack_controller.go:47-155 | If no Destroy pass is shown a list without some Apply, the stack invariant holds in every reachable state: a Removed condition is true unless an Apply was created after it |
| StackSafety.CleanMeans | internal/controller/infrastack_controller.go:89-155 | What a right release leaves behind, outcome by outcome: every Apply Succeeded, Rejected, or Failed before it changed anything; and either all were rejected before a Job was asked for, or a Destroy Plan without changes or a succeeded Destroy Apply has its evidence in the store |
| StackSafety.NextSafe | internal/controller/infrastack_controller.go:47-155 | Every such step keeps it, and releases the finalizer only as FinalizerSafety says |
| StackSafety.FinalizerSafety | internal/controller/infrastack_controller.go:89-155 | Over those runs the finalizer goes only when every Apply is settled and either none was ever admitted or a Destroy Plan without changes or a succeeded Destroy Apply has durable evidence, or else on a Removed condition that an Apply has outlived |
| StackRemoval.FinalizerSafetyExactly | internal/controller/infrastack_controller.go:89-155 | Over runs whose Destroy passes list every Apply, a release is right if and only if the condition it trusts was not outlived by an Apply, or no Apply was ever admitted |
| StackSafety.FinalizerSafetyWhenWritten | internal/controller/infrastack_controller.go:548-579 | If besides no status update that follows an Apply's creation is lost, the second case does not occur |
| StackTrace.OutdatedConditionReleases | internal/controller/infrastack_controller.go:90-92 | If one is lost and the stack goes back to Destroy, the finalizer is released while that Apply is unsettled, whatever the lists show |
| StackTrace.LostStatusOutdates | internal/controller/infrastack_controller.go:391-425 | That loss leaves a Removed condition beside a new unsettled Apply |
| StackTrace.RemovedReleases | internal/controller/infrastack_controller.go:90-92 | A destroying stack whose condition says Removed loses its finalizer whatever its runs are |
| StackTrace.OutdatedConditionIsReachable | internal/controller/infrastack_controller.go:89-155 | For every new stack there is a run, all its lists complete, that ends in such a release beside an unsettled Apply |
| StackTrace.EmptyListReleases | internal/controller/infrastack_controller.go:93-155 | A destroying stack with nothing recorded is let go if the list shows it no Apply, whatever Applies there are |
| StackTrace.MissedApplyReleases | internal/controller/infrastack_controller.go:93-155 | For every new stack there is a run without any lost write that ends in such a release beside an unsettled Apply |
| StackSafety.DestroyPlansWait | internal/controller/infrastack_controller.go:93-110 | A Destroy Plan is created only when every Apply in the list, as it is by then, is Succeeded, Rejected, or Failed with nothing changed and classification FailedPreMutation; all Applies are so exactly when those left out are |
| StackRemoval.OpenApplyHolds | internal/controller/infrastack_controller.go:97-111 | From every reachable state, a pass whose list shows an Apply without outcome, Pending, Running, Indeterminate or Failed after it may have changed something creates no Destroy Plan, and releases the finalizer only on the word of a Removed condition |
| StackScans.ScanApplies | internal/controller/infrastack_controller.go:97-111 | Lets go if and only if every listed Apply of the stack is Succeeded, Rejected, or Failed with nothing changed and classification FailedPreMutation; otherwise the first other one decides: RecoveryRequired if it is Failed or Indeterminate, DeletionHeld if it has not ended |
| StackScans.LatestAttempt | internal/controller/infrastack_controller.go:166-178 | The newest Plan of the stack's name, current generation and mode; any that another stack controls is an error |
| StackScans.StackObject.SetStackCondition | internal/controller/infrastack_controller.go:556-579 | Status first, evidence next, finalizer last: the finalizer goes only with a true condition and after both writes succeeded; a failure on the way keeps it |
| StackScans.SettledAsListed | internal/controller/infrastack_controller.go:97-111 | Over any list the cache may show, the scan decides whether every Apply in it was settled as shown |
| StackDecisions.ConvergedExactly | internal/controller/infrastack_controller.go:751-791 | A convergence is recorded if and only if the Plan is complete, the run that ended it has terminal result and target discovery, and bundle, backend, inputs, execution identity and target are all known |
| StackDecisions.VerdictFollows | internal/controller/infrastack_controller.go:255-300 | The condition that follows from each outcome of a Plan that has no Apply |
| StackDecisions.ApplyVerdictFollows | internal/controller/infrastack_controller.go:300-367 | The condition that follows from each outcome of its Apply; it is true exactly for Ready and Removed |
| StackDecisions.PlanReusedExactly | internal/controller/infrastack_controller.go:236-245 | A Plan is used again if and only if it is not Failed, Indeterminate, Rejected, Expired or Superseded and its expiry has not come |
| StackDecisions.ApplyIsDue | internal/controller/infrastack_controller.go:391-468 | From every state, whatever the lists show, a pass creates an Apply only for a complete unexpired Plan with changes of this stack and generation, approved by an approval that repeats it, that no Apply claims; and then with the spec built from the three |
| StackDecisions.ReleaseNeedsWrites | internal/controller/infrastack_controller.go:556-579 | From every state, whatever the lists show, the finalizer goes only from a fenced stack that is being destroyed, and after its evidence was stored |
| EnvironmentDeletion.HasActiveMutatingApply | internal/controller/platformenvironment_controller.go:502-520 | Active if and only if the list fails or some Apply has no outcome or is Pending or Running |
| EnvironmentDeletion.Cluster.ReconcileDelete | internal/controller/platformenvironment_controller.go:405-500 | One pass writes at most one stage to the cluster, the one called for by what the cache shows; updates of outdated versions are refused |
| EnvironmentDeletion.EventReachesExactly | internal/controller/platformenvironment_controller.go:405-500 | After a stage is written, it has been reached for good if and only if the objects the pass did not see are there already; and it is written only where neither it nor a later one had been reached |
| EnvironmentDeletion.EventsInOrder | internal/controller/platformenvironment_controller.go:405-500 | Over every run with faults, other controllers and a cache that lags behind but misses no object, stack fence, child fence, child deletion, Destroy, stack deletion and release happen in this order, each at most once |
| EnvironmentDeletion.EventsAreJustified | internal/controller/platformenvironment_controller.go:405-500 | Each stage follows what has to come before it, whoever brought that about: as far as the pass sees the objects, the conditions named in the source hold, field by field, however old the versions shown |
| EnvironmentDeletion.StackAllows | internal/controller/platformenvironment_controller.go:405-520 | Nothing is written past a stack of another owner; a ResourceSet is deleted beside a stack only if the Applies were listed, none of them is without outcome, Pending or Running, and the stack does not ask for recovery; a stack only once it reports its infrastructure removed |
| EnvironmentDeletion.ReasonIsGivenExactly | internal/controller/platformenvironment_controller.go:405-500 | A pass without faults that writes no stage reports an ownership conflict exactly beside a stack of another owner, the need of recovery exactly when only that holds the ResourceSet back, and otherwise that it is deleting |
| EnvironmentDeletion.ReleaseIsRightExactly | internal/controller/platformenvironment_controller.go:484-500 | When the finalizer goes, both children are gone if and only if the pass missed none |
| EnvironmentDeletion.ReleasedMeansGone | internal/controller/platformenvironment_controller.go:484-500 | Over runs that miss no object, the finalizer goes only when both children are gone, whatever versions are shown |
| EnvironmentDeletion.UnseenChildIsOvertaken | internal/controller/platformenvironment_controller.go:469-479 | A pass that does not see an existing ResourceSet asks for Destroy before its deletion |
| EnvironmentDeletion.MeasureStep | internal/controller/platformenvironment_controller.go:405-500 | Whatever the cache shows, every stage written lowers a measure that no controller ever raises |
| EnvironmentDeletion.MeasureOverRuns | internal/controller/platformenvironment_controller.go:405-500 | So a run writes no more stages than its first state leaves to do |
| EnvironmentDeletion.PassProgressesUnlessWaiting | internal/controller/platformenvironment_controller.go:405-500 | A pass without faults on up-to-date objects writes a stage exactly when there is nothing to wait for, by outcomes and fields, or a fence is missing |
| EnvironmentDeletion.RecoveryGuardNeverHolds | internal/controller/platformenvironment_controller.go:456-462 | In a deletion that finds its stack in present mode and misses no object, the guard on a stack that needs recovery never fires while the ResourceSet exists, whatever version of the stack is shown |
| EnvironmentDeletion.IndeterminateDoesNotHoldTheChild | internal/controller/platformenvironment_controller.go:456-470 | So the ResourceSet is deleted although some Apply ended Indeterminate, if none is without outcome, Pending or Running |
| Quota.ValidateTenantPolicy | internal/controller/platformenvironment_controller.go:256-301 | Admits exactly when the class is allowed, the annotation is readable, and fewer other living environments than the maximum hold a place, by a stack reference or any status reason but the three rejections, or come earlier by (timestamp, name) |
| Quota.RankIsCounted | internal/controller/platformenvironment_controller.go:273-312 | The two counts of the loop together are the number of those environments |
| Quota.LimitMeansWhatItSays | internal/controller/platformenvironment_controller.go:264-271 | An annotated maximum is enforced as written if and only if it fits 32 bits |
| Quota.TwoTo31MeansNoLimit | internal/controller/platformenvironment_controller.go:264-271 | The smallest that does not fit becomes negative, which means no limit |
| Quota.CountsCover | internal/controller/platformenvironment_controller.go:273-299 | However often a list repeats an environment, the counts are at least the environments they stand for |
| Quota.AdmissionLeavesRoom | internal/controller/platformenvironment_controller.go:273-301 | A check that passes leaves room for every living environment ahead in (timestamp, name) order, however outdated the statuses it reads; if that is creation order, for every one created earlier |
| Quota.GrantedBound | internal/controller/platformenvironment_controller.go:256-312 | With outdated reads, lost and refused writes, statuses recorded without a check, and restarts: if (timestamp, name) order is creation order among the living, no more living environments are granted than the maximum and those that slipped past the count after the last one counted |
| Quota.AdmittedBound | internal/controller/platformenvironment_controller.go:256-312 | With fresh reads no more living environments are recorded as admitted than the maximum and those that a status recorded without a check made count, whatever the timestamps |
| Quota.UncheckedExceedsQuota | internal/controller/platformenvironment_controller.go:64-88 | Both bounds are attained: for every maximum, every number and every status that counts without a check, a run with fresh reads and agreeing orders grants and admits that many more than the maximum |
| Quota.DisagreementExceedsQuota | internal/controller/platformenvironment_controller.go:283-299 | For every maximum and every two environments whose order contradicts that of creation, a run that creates and checks them all grants one more than the maximum |
| Quota.OutdatedTieExceedsQuota | internal/controller/platformenvironment_controller.go:283-299 | A concrete case: of two environments created in one second the later comes first by name, and both are granted under a maximum of one |
| Bootstrap.ApplyBootstrap | internal/runtime/bootstrap.go:23-80 | An object is patched only after every required object of every lower wave was seen ready in this pass, and read only after its whole wave was patched; success patches each object once, in stable wave order, with one inventory entry each that records what the server answered, the target, and the object's ownership, readiness and deletion rules; an error leaves a prefix and ends on a fault |
| Bootstrap.ApplyWave | internal/runtime/bootstrap.go:34-54 | Patches the wave in order and records what the server answered |
| Bootstrap.AwaitWave | internal/runtime/bootstrap.go:55-76 | Goes on only when each required object of the wave was seen ready |
| Bootstrap.WaveEnd | internal/runtime/bootstrap.go:30-33 | The positions from start to end are one whole wave |
| Bootstrap.SortIsStable | internal/runtime/bootstrap.go:82-86 | The order is by wave, and as declared within each wave |
| Bootstrap.SortIsPermutation | internal/runtime/bootstrap.go:82-86 | Nothing is lost or added |
| Bootstrap.StableOrderIsUnique | internal/runtime/bootstrap.go:82-86 | There is only one such order |
| Bootstrap.AnyStableSort | internal/runtime/bootstrap.go:82-86 | So any stable sort gives it, however the library works |
| Bootstrap.LowerWaves | internal/runtime/bootstrap.go:29-33 | An object of a lower wave stands before the wave at hand |
| Pruning.Client.PruneItem | internal/controller/resourceset_controller.go:215-244 | Deletes at most the one object at the item's address that has its UID, its target, its ownership and this manager's label, of an item neither retained nor of a protected kind or namespace; a delete whose answer is lost included; and succeeds only if a later read finds it gone |
| Pruning.Client.PruneRemoved | internal/controller/resourceset_controller.go:180-198 | Every deletion, those with a lost answer included, is of an object in the old inventory and not in the new that has the recorded UID, target and ownership and this manager's label, and is not retained or of a protected kind or namespace; success means every removed item that may be deleted was seen gone in this pass |
| Pruning.Client.PruneInventory | internal/controller/resourceset_controller.go:200-213 | The same for the whole inventory; an item that is already gone is no error |
| Pruning.PruneIsJustified | internal/runtime/runtime.go:114-135 | Even if another actor replaces the object between read and delete, what is deleted has the UID, target, ownership and manager recorded |
| Pruning.JustifiedIsDeletedExactly | internal/controller/resourceset_controller.go:215-244 | Conversely an object with all of these is deleted exactly when it is what the read finds and is unchanged, by UID and resource version, when a delete that takes effect arrives |
| Pruning.GoneIsSeen | internal/controller/resourceset_controller.go:236-244 | Success and NotFound both rest on a read that found nothing |
| Pruning.InventoryKeyIsInjective | internal/controller/resourceset_controller.go:458-460 | Keys tell apart all addresses whose parts hold no slash |
| Pruning.KeyIsItsOwnExactly | internal/controller/resourceset_controller.go:458-460 | An address shares its key with no other address if and only if none of its parts holds a slash |
| Pruning.KeysDecide | internal/controller/resourceset_controller.go:180-192 | Comparing keys decides whether an item was removed |
| Pruning.MissingItemEndsThePass | internal/controller/resourceset_controller.go:180-198 | A pass of pruneRemoved ends with NotFound if and only if, after the items before it were pruned, some item is read as gone already |
| Pruning.ProtectedIsKept | internal/runtime/runtime.go:137-145 | An item that is retained, a Namespace, CustomResourceDefinition or PersistentVolumeClaim, or in kube-system is never deleted, whatever the cluster holds |
| PlanGraph.MatchingAddress | internal/planview/plan.go:230-238 | Returns a longest known address that the reference names or extends, in whatever order the map is walked |
| PlanGraph.BestIsUnique | internal/planview/plan.go:230-238 | There is only one such address |
| PlanGraph.MatchesExactly | internal/planview/plan.go:230-238 | An address matches a reference if and only if it is the reference or the reference goes on from it with a dot or a bracket |
| PlanGraph.CollectEdges | internal/planview/plan.go:209-228 | Adds the edges of a module tree under their keys and nothing else |
| PlanGraph.EdgesAreReferences | internal/planview/plan.go:209-228 | Those edges are exactly the reference relation over known addresses, without self-edges |
| PlanGraph.NoEdgeIsLost | internal/planview/plan.go:209-228 | Without NUL in the addresses every edge has a key of its own |
| PlanGraph.KeyIsItsOwnExactly | internal/planview/plan.go:220-221 | An edge shares its key with no other edge if and only if neither of its addresses holds a NUL |
| PlanGraph.EdgesAreLostExactly | internal/planview/plan.go:209-228 | However the maps are walked, the map holds every edge of the plan if and only if no two of them share a key |
| PlanGraph.NulLosesAnEdge | internal/planview/plan.go:209-228 | For every two possible edges with one key there is a plan that refers along both and whose graph lacks one of them |
| PlanGraph.SortedEdges | internal/planview/plan.go:121-134 | The edges come out strictly sorted, without duplicates, the same set |
| PlanGraph.SortedIsUnique | internal/planview/plan.go:121-134 | A set of edges has one strictly sorted sequence, so the map's order does not matter |
| PlanGraph.SummaryAddsUp | internal/planview/plan.go:92-118 | The five summary counts add up to the number of nodes |
| PlanGraph.CollectNodes | internal/planview/plan.go:92-118 | One node for each change with address and type, and a summary that counts them by action |
| PlanGraph.NodesAre | internal/planview/plan.go:94-106 | The nodes are those of the changes with address and type, provider and action included |
| PlanGraph.ActionsAre | internal/planview/plan.go:136-149 | What each list of actions amounts to: create, update and delete alone, delete and create together in either order |
| PlanGraph.SortNodes | internal/planview/plan.go:119-121 | Sorted by address, the same nodes |
| Text.LessExactly | internal/planview/plan.go:119-119 | The order of strings used for sorting: one is less than another if and only if, where the two part, it ends or has the smaller character |
| PlanGraph.Parse | internal/planview/plan.go:81-134 | Accepts exactly the supported formats; nodes, summary and edges are the ones above, and all references are edges exactly when the keys tell them apart, as they do without NUL |
| PlanGraph.SupportedExactly | internal/planview/plan.go:86-91 | A format is supported if and only if none is named or its major version is 1 |
| ModuleInputs.BindModuleInputs | internal/terraform/module.go:57-75 | In whatever order maps are walked: an error exactly when a fixed value is contradicted or the profile is missing or invalid, and else the inputs with S3 endpoint, STS endpoint, region and execution role laid over them under their four names |
| ModuleInputs.BindingIsIdempotent | internal/terraform/module.go:57-75 | Bound inputs bind to themselves |
| ModuleInputs.DigestsAgreeExactly | internal/controller/terraformrun_controller.go:320-323 | The controller's digest is that of the runner's upload if and only if the run's inputs carry what the execution identity fixes |
| ModuleInputs.FrozenInputsAgree | internal/terraform/job.go:229-242 | A Plan, and the Apply made from it, upload the very inputs the controller expects |
| ModuleInputs.DestroyInputsUnchanged | internal/controller/infrastack_controller.go:205-222 | The inputs of a Destroy Plan, rebuilt from a converged Apply's record after any edit and bound again to the profile resolved anew, are accepted and stay those of the Apply; the runner uploads the same, and the controller's digest fits |
| SourceBundle.BuildSourceBundle | internal/terraform/sourcebundle.go:88-177 | Fails exactly when the tree holds something refused; otherwise the bundle has an entry for each file to be kept and no other, strictly sorted, in whatever order the walk goes |
| SourceBundle.WalkedExactly | internal/terraform/sourcebundle.go:88-148 | Below directories other than `.terraform`, `.git` and those with private names, links, special files and variable files that Terraform takes by itself are refused, and files are bundled if and only if their names are not private, in any case of letters: state, plans, overrides, backends, credentials and variables |
| SourceBundle.RestoreSourceBundle | internal/terraform/sourcebundle.go:25-86 | The loop gives the tree the entries describe, or fails at the first refused one |
| SourceBundle.BundleIsUnique | internal/terraform/sourcebundle.go:150-177 | A set of files has one bundle only |
| SourceBundle.RestoreAcceptsBuild | internal/terraform/sourcebundle.go:25-177 | Restore accepts every bundle Build makes and gives back exactly the bundled files |
| SourceBundle.RebuildGivesTheSame | internal/terraform/sourcebundle.go:25-177 | Building again from the restored tree succeeds and gives the same bundle |
| SourceBundle.RestoreStaysInside | internal/terraform/sourcebundle.go:204-242 | Whatever entries a bundle holds, every file restored lies below the destination, in no `.terraform` or `.git` directory, and has no private name |
| SourceBundle.OnlyDotDotSlipsThrough | internal/terraform/sourcebundle.go:25-86 | Of the relative paths that lead out of the destination, in whatever spelling, the rule for paths lets through exactly those that clean to `..`, and restoring refuses each of them |
| SourceBundle.DotDotIsAllowed | internal/terraform/sourcebundle.go:218-242 | Two such paths that the rule does not refuse, `..` itself among them |

## Left out

- Two processes that both believe they lead; the leader election itself.
- The mode without execution (`ExecutionEnabled` false) and a reconciler without a gate: both return early.
- Resolving execution profiles, validating backend files and assembling the Job's pod: one abstract rejection each. Validating a Job's identity is the comparison of its labels, name and owner with the run.
- Deletion of TerraformRuns: at-most-once is about runs that stay, as the source assumes when it looks for the Job of a recorded run.
- Adopting Plans of a former owner and the errors for foreign ones: in the stack state machine every run belongs to the stack, and runs are known by UID. `StackScans.LatestAttempt` covers the foreign-owner error by itself.
- One stack reconciliation reads the stack object as it is (what it writes to it goes through only against the current version anyway) and is atomic apart from its writes, any of which can fail or lose its answer; it is a function on values, not a class, except for `SetStackCondition` and the scans, so aliasing of the object between helpers is not captured.
- In an environment's deletion the cache shows no version of a child from before the deletion began, and the environment itself is read as it is.
- That a stack's generation grows when it is marked for deletion or edited is taken from Kubernetes.
- Target resolution and discovery checks are a yes/no input; readiness per kind is the answer of a read.
- YAML, HCL, tar, zstd, JSON, SHA-256, file modes, umask, empty directories, a destination that is itself a link, Unicode case folding, versioned buckets, path cleaning of unusual UIDs, and strings measured in characters rather than bytes.
- `ValidateModule`, redaction of plan values, what is printed on standard output, draft generation and all console handlers but the approval.
- In the ResourceSet reconciler the status bookkeeping around bootstrap and pruning; a failed bootstrap keeps the old inventory.
- Overflow of the 32-bit counters inside the quota loop: it needs more than two thousand million environments. The conversion of the annotation is modelled.
- Liveness, except that an environment's deletion makes progress unless it has something to wait for.
- Quota.GrantedBound: speaks of one fixed maximum; changing it while environments are admitted is not modelled, because the code has no memory of it.
- SlotCoverage.EveryJobHasItsSlot: assumes fresh reads of runs at slot requests, that a Create reported as failed made no Job, and no foreign Jobs; every other run is covered exactly as far as SlotCoverage.CoveredThroughout says.
