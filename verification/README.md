# Verified model of sh-mcp-go's planner and deployment lifecycle

This project models, in Dafny 4.11, the two parts of sh-mcp-go that carry state and proves what
they keep over whole runs.

**Plans.** `Plans.dfy` holds the plan aggregate with its two moves, selecting the ready steps and
updating one step. `Planner.dfy` builds plans from an arbitrary list of apps. The repository has no
executor; its architecture document says that `ReadySteps` exists to enable parallel execution, so
`Executor.dfy` lets any executor begin or skip only steps that `ReadySteps` returned and then report
a running step as succeeded or failed, in any order. `Rounds.dfy` is the fully parallel executor.

**Deployments.** `Deployments.dfy` is the deployment aggregate with its events and, in
`AggregateRuns`, every sequence of its commands. `Store.dfy` is the SQLite table with its upsert.
`Machine.dfy` is the orchestration service at the grain of its port calls: each port may fail at any
time, calls interleave freely, and a crash forgets all calls in flight. On it rest
`Interleaving.dfy` (what every interleaving keeps), `Announcements.dfy` (what stands behind a
published event), `HelmLog.dfy` (what stands behind a Helm call), `Overlap.dfy` and `Races.dfy` (which
overlapping calls disturb each other, and which do not), `Sequential.dfy` (calls made one after the
other, with crashes anywhere), `Traces.dfy` (the effects of a call, written out), `Outcomes.dfy` (what
a call can come to) and `Projection.dfy` (when the published events rebuild the store).
`Mirroring.dfy` relates rows to aggregates. `Service.dfy` is the service itself, method by method.
Its store and its other ports answer as a given environment has it, and put on record what they were
asked and what they answered (`Ports.dfy`); each command is proved to be a run of the machine on
exactly the answers on record, to keep the service contract and to have the effects written out.

**Small pieces.** `Names.dfy` gives the two name patterns their regular-expression meaning;
`CircuitBreaker.dfy` treats the floating-point trip test.

Conventions. Step ids and deployment ids are natural numbers drawn fresh; only their equality
matters. Which requests a port answers is a parameter of the methods' environment and an explicit
answer in the machine. Clock readings are arbitrary. A Helm call and a publication are entries of a
log, and a Helm call is filed under the deployment it is made for. Integers are unbounded.

## What turned out

- Write-ahead ordering (the row says DEPLOYING, UPGRADING or ROLLING_BACK whenever Helm is called) and
  monotone stored versions do not hold for all overlapping calls. The exact conditions are on pairs of
  calls that name one release. Write-ahead breaks for two calls of which each upgrades or rolls back,
  and for an uninstall with any other command; a stored version can fall for two calls that upgrade or
  roll back, at least one of them upgrading. Where no such pair overlaps the property holds through
  every other interleaving, fault and crash (`Overlap.WriteAheadIfSerialised`,
  `Overlap.VersionsNeverFall`), and every such pair has a breaking run from every reachable state that
  offers both calls something to work on (`Races.WriteAheadBreaksExactly`,
  `Races.VersionsFallExactly`, `Races.ClashesBreakAnywhere`).
- Published events and stored rows agree after a call exactly when it ends at a *safe point*
  (`Projection.AgreementExactly`). For a call that returned this means that no *harmful* fault
  occurred: a failed save after Helm answered, a failed second save of an install, or a failed
  publication, except that a failed rollback of a deployment that was already FAILED may go
  unpublished. For a call cut short by a crash it means that nothing was saved yet, or just that
  exception.
- The publisher's comment (`internal/domain/deployment/repository.go:28`) promises publication after a
  successful save. For successes and rollbacks this holds in every interleaving, one save for each
  event (`Announcements.AnnouncedAtMostAsStored`). For failures it holds exactly when the store
  answered the save of the failure (`Outcomes.FailureWasSavedExactly`); the service publishes either
  way, and any call that may work on a deployment can publish a failure it never saved
  (`Outcomes.FailureCanGoUnsaved`).
- Load after save gives the saved aggregate back exactly when the chart's name, repo and source are
  those of the first save (`Store.SavePreservesExactly`). An upgrade that asks for another chart
  succeeds, records the requested chart in the history and leaves the old one in the row
  (`Outcomes.UpgradeStoresChartExactly`, `Outcomes.UpgradeCanLoseChart`).
- Where code and text disagree otherwise, the model follows the code: the release-name error text
  (`internal/domain/deployment/value_objects.go:30`) promises at most 53 characters and the pattern
  accepts 54; `Save` (`internal/adapters/storage/sqlite/repository.go:63`) says "replaces" and keeps
  six columns.

## Model

| member | source | states |
|---|---|---|
| Names.NamesAreLabels | internal/domain/deployment/value_objects.go:12-50 | for every string: a release name is accepted iff it is a lower-case label (alphanumeric and inner hyphens) of length 1 to 54, a namespace iff one of length 1 to 63, and the empty-name error is for the empty string alone |
| Names.ReleaseNamesAreNamespaces | internal/domain/deployment/value_objects.go:12-13 | the accepted release names are exactly the accepted namespaces of at most 54 characters |
| Names.MessageUnderstatesLimit | internal/domain/deployment/value_objects.go:29-31 | a 54-character name is accepted although the error text says 1-53 |
| CircuitBreaker.TripTestIsExact | internal/infrastructure/circuit/breaker.go:105-113 | for all 32-bit counts the double-precision test equals requests >= 3 and 5*failures >= 3*requests, for every rounding that is monotone with relative error at most 2^-53; in particular no trip at zero requests |
| Plans.Plan.UpdateStepStatus | internal/domain/plan/entity.go:132-153 | fails, changing nothing, iff no step has the id; otherwise the first step that has it takes the status and the error text, is stamped as started iff it runs and as completed iff it succeeded, failed or was skipped, and nothing else changes |
| Plans.Plan.ReadySteps | internal/domain/plan/entity.go:188-216 | returns exactly the pending steps all of whose dependencies are succeeded or skipped |
| Plans.ReadyInPlanOrder | internal/domain/plan/entity.go:197-215 | the returned steps sit at strictly ascending plan positions and no ready position is missing |
| Executor.MovesCommute | internal/domain/plan/entity.go:189-216 | moves on different steps never disable each other and their order does not matter |
| Executor.NothingRunsEarly | internal/domain/plan/entity.go:189-216 | in every run, a step that has started or may start has all direct and indirect dependencies done |
| Executor.ReadyStepsIndependent | internal/domain/plan/entity.go:188-216 | steps returned together never depend on each other, directly or indirectly |
| Executor.StepTellsItsActions | internal/domain/plan/entity.go:132-153 | at any point of any run a step is untouched, or carries the status, times and error text of its own begin, skip, success or failure and nothing else |
| Executor.RestIsNoMove | internal/domain/plan/entity.go:189-216 | no move is possible iff nothing runs and nothing is ready |
| Executor.RunsTerminate | internal/domain/plan/entity.go:132-153 | a plan of n steps allows at most 2n moves |
| Executor.BlockedExactlyByFailures | internal/domain/plan/entity.go:189-216 | deadlock freedom: at rest, a step is pending iff some direct or indirect dependency failed |
| Executor.NoFailureNoLoss | internal/domain/plan/entity.go:189-216 | a run at rest without failures has done every step |
| Executor.RunsAgree | internal/domain/plan/entity.go:189-216 | confluence: two runs at rest whose steps report the same results have the same statuses, computed from the graph and the results alone |
| Rounds.RoundEffect | internal/domain/plan/entity.go:189-216 | running all ready steps to success is a legal run that completes exactly those steps |
| Rounds.RoundsFollowDepth | internal/domain/plan/entity.go:189-216 | after k rounds exactly the steps of dependency depth below k are done and the rest are pending |
| Rounds.RoundsToFinish | internal/domain/plan/entity.go:189-216 | k rounds finish a plan iff k exceeds every depth |
| Planner.Service.BuildSteps | internal/application/planner/service.go:85-205 | rejects iff the cluster check says invalid; otherwise lays out namespace, then per app validate, storage if wanted, install or upgrade, ingress if wanted, readiness, with these dependencies, fresh ids, the parameters of each step (chart, repo, resolved version, release, namespace, values with replica count and persistence flag) and the warnings of the oracles |
| Planner.Service.BuildRollbackPlan | internal/application/planner/service.go:208-227 | one dependency-free rollback step per app, in order, to version 0 of its release and namespace, with fresh ids |
| Planner.BuiltIsFresh | internal/application/planner/service.go:98-204 | every built plan has distinct ids, all steps pending, and every dependency names a strictly earlier step |
| Planner.KindsOfPlan | internal/application/planner/service.go:97-202 | for any intent: one namespace step; per app one validation and one readiness check, an upgrade if the action is "upgrade" and an install otherwise, also for "rollback" and "uninstall"; storage and ingress just for the apps that want them; nothing else |
| Planner.PipelineOrder | internal/application/planner/service.go:118-199 | within an app one step comes before another, directly or indirectly, iff it is of an earlier stage: validate, storage, install or upgrade, ingress and readiness |
| Planner.InstallStepParams | internal/application/planner/service.go:107-178 | each app's validation and install step name its chart, repository and version (as given, or as resolved if open and resolvable), the install step also release and namespace, three replicas if highly available, persistence enabled if wanted, and every other value as given |
| Planner.OtherStepParams | internal/application/planner/service.go:98-199 | namespace, storage, ingress and readiness steps name the namespace and their app or release |
| Planner.WarningsTell | internal/application/planner/service.go:90-116 | the plan warns exactly of an unreachable cluster and of the open versions that did not resolve |
| Planner.NamespaceIsRoot | internal/application/planner/service.go:97-125 | the namespace step is an ancestor of every other step |
| Planner.FailuresStayInApp | internal/application/planner/service.go:105-202 | at rest a step of an app is pending iff the namespace step or an ancestor in the same app failed |
| Planner.AppCompletesDespiteOthers | internal/application/planner/service.go:105-202 | if neither the namespace step nor a step of the app failed, all of the app's steps are done, whatever failed elsewhere |
| Planner.NamespaceFailureBlocksAll | internal/application/planner/service.go:97-125 | after a failed namespace step every other step stays pending in every run |
| Planner.ParallelDepth | internal/application/planner/service.go:98-201 | r rounds finish a built plan iff r >= 5 when some app wants persistence, iff r >= 4 when none does, for any number of apps |
| Planner.PlanSize | internal/application/planner/service.go:363-370 | with n apps the plan has 1 + sum(3 + persistence + ingress) steps and the estimate lies between 2(1+3n) and 2(1+5n) |
| Planner.RollbackIsOneRound | internal/application/planner/service.go:208-227 | a rollback plan is finished after one round, however many apps |
| Deployments.ValidRequestExactly | internal/domain/deployment/entity.go:43-57 | a request is valid iff its name is a label of at most 54 characters, its namespace one of at most 63, its chart name and (for a repository chart) its repository have a visible character, and its version is empty, "latest" or semantic |
| Deployments.Deployment.New | internal/domain/deployment/entity.go:43-78 | refuses iff the request is not valid; otherwise a PENDING deployment, version 1, with only its Created event, every field as given |
| Deployments.Deployment.Reconstitute | internal/domain/deployment/entity.go:81-108 | rebuilds the given state with an empty event buffer |
| Deployments.Deployment.StartDeployment | internal/domain/deployment/entity.go:113-122 | refuses with from/to outside PENDING and PLANNING; whole new state otherwise |
| Deployments.Deployment.MarkSucceeded | internal/domain/deployment/entity.go:125-142 | refuses outside DEPLOYING and UPGRADING; otherwise one history entry, version plus one, one event |
| Deployments.Deployment.MarkFailed | internal/domain/deployment/entity.go:145-151 | unguarded; status and event only |
| Deployments.Deployment.StartUpgrade | internal/domain/deployment/entity.go:154-165 | refuses outside SUCCEEDED; replaces chart and values |
| Deployments.Deployment.StartRollback | internal/domain/deployment/entity.go:168-177 | refuses outside FAILED and SUCCEEDED; chart unchanged |
| Deployments.Deployment.MarkRolledBack | internal/domain/deployment/entity.go:180-184 | unguarded; status and event only |
| Deployments.Deployment.DrainEvents | internal/domain/deployment/entity.go:221-226 | hands out the whole buffer and empties it |
| AggregateRuns.DrainingConserves | internal/domain/deployment/entity.go:221-230 | for every command sequence, drained batches followed by the pending buffer are everything recorded, in order, nothing lost or repeated |
| AggregateRuns.EventsRebuildAggregate | internal/domain/deployment/entity.go:75-184 | from New, replaying drained and pending events rebuilds identity, status, version, chart and every history entry but its timestamp |
| AggregateRuns.LifecycleFromNew | internal/domain/deployment/entity.go:113-184 | for every command sequence from New: version = history length + 1, entries numbered 1, 2, ..., the first written while DEPLOYING and all later ones while UPGRADING, PLANNING/VALIDATING/UNINSTALLED never reached, DEPLOYING entered at most once |
| AggregateRuns.DeadIsForever | internal/domain/deployment/entity.go:125-184 | once FAILED, ROLLING_BACK or ROLLED_BACK is entered, version and history never change again |
| Store.Repository.Save | internal/adapters/storage/sqlite/repository.go:64-115 | upserts the aggregate's row iff the database answers; else fails and changes nothing |
| Store.Repository.FindByID | internal/adapters/storage/sqlite/repository.go:118-125 | fails iff the database does; else yields the stored row as an aggregate, or not found iff there is no such row |
| Store.Repository.FindByReleaseName | internal/adapters/storage/sqlite/repository.go:128-137 | fails iff the database does; else yields some row of that name and namespace, or not found iff there is none |
| Store.Repository.ListByStatus | internal/adapters/storage/sqlite/repository.go:154-165 | yields every row of the status exactly once iff the database answers the query and every row of it |
| Store.Repository.Delete | internal/adapters/storage/sqlite/repository.go:168-172 | removes the row and no other iff the database answers; else fails and changes nothing |
| Store.SaveIsIdempotent | internal/adapters/storage/sqlite/repository.go:83-112 | saving twice is saving once |
| Store.SaveOfLoadedIsNothing | internal/adapters/storage/sqlite/repository.go:83-239 | saving a row just loaded leaves the table unchanged |
| Store.LoadAfterSave | internal/adapters/storage/sqlite/repository.go:83-239 | load after save returns the aggregate with whole-second times, an empty buffer, and name, namespace, created_at and chart name/repo/source as first inserted; other rows are untouched |
| Store.TimesAreCut | internal/adapters/storage/sqlite/repository.go:111-112 | stored times are whole seconds, less than a second before the times saved |
| Store.SavePreservesExactly | internal/adapters/storage/sqlite/repository.go:88-96 | a later save is read back unchanged iff the chart's name, repo and source are those stored |
| Store.FrozenColumns | internal/adapters/storage/sqlite/repository.go:88-96 | no sequence of saves and deletes that spares a row changes its name, namespace, created_at or chart name/repo/source |
| Store.ListsPartitionTable | internal/adapters/storage/sqlite/repository.go:154-165 | the lists over all statuses are disjoint, cover the table and add up to its size |
| Interleaving.StoredRowsAreLawful | internal/application/deployment/service.go:37-277 | under every interleaving, fault and crash each row has version = history length + 1, entries numbered from 1, an empty history if PENDING or DEPLOYING, a non-empty one if UPGRADING or SUCCEEDED |
| Interleaving.VersionsNeedHelm | internal/application/deployment/service.go:83-188 | likewise, a row's version minus 1 never exceeds the successful Helm installs and upgrades made for it |
| Interleaving.PendingMeansUntouched | internal/application/deployment/service.go:70-83 | likewise, a row still PENDING never had a Helm call |
| Announcements.AnnouncedAtMostAsStored | internal/application/deployment/service.go:104-112 | likewise, at every point of every run the published successes with a given revision, and the published rollbacks, of a deployment are no more than the saves that stored that very result |
| Announcements.EventsFollowSaves | internal/application/deployment/service.go:105-112 | likewise, a published success or rollback follows a save of just that result: SUCCEEDED with the announced revision in the last history entry, or ROLLED_BACK |
| Interleaving.HelmSuccessIsAlwaysMarked | internal/application/deployment/service.go:105-107 | likewise, the guard after a successful Helm call never refuses |
| HelmLog.InstalledAtMostOnce | internal/application/deployment/service.go:52-83 | under every interleaving, fault and crash Helm is asked to install at most once for a deployment |
| HelmLog.HelmFollowsItsSave | internal/application/deployment/service.go:74-230 | likewise, Helm is asked to install, upgrade or roll back a deployment only after it was saved as DEPLOYING, UPGRADING or ROLLING_BACK respectively |
| HelmLog.HelmMatchesItsRow | internal/application/deployment/service.go:74-230 | where no clashing calls overlap, the row last saved before a Helm call is DEPLOYING iff Helm is asked to install, UPGRADING iff to upgrade, ROLLING_BACK iff to roll back, and holds the release, version and values Helm is given |
| Overlap.WriteAheadIfSerialised | internal/application/deployment/service.go:74-258 | through any interleaving, fault and crash in which no two calls on one release overlap that both upgrade or roll back, or of which just one uninstalls: a call about to reach Helm has its row stored as DEPLOYING, UPGRADING or ROLLING_BACK, mirroring its aggregate |
| Overlap.VersionsNeverFall | internal/application/deployment/service.go:139-249 | a version stored at a point up to which no upgrade overlapped another upgrade or rollback of its release is never undercut later, whatever happens later |
| Races.WriteAheadBreaksExactly | internal/application/deployment/service.go:132-274 | begun in any reachable state with nothing else in flight that offers both something to work on, two calls can lead to a Helm call without its started row iff they clash in that sense |
| Races.VersionsFallExactly | internal/application/deployment/service.go:132-249 | likewise, two calls can make a stored version fall iff both upgrade or roll back one release and one upgrades |
| Races.ClashesBreakAnywhere | internal/application/deployment/service.go:132-274 | whatever else is in flight, clashing calls have a run that breaks write-ahead, or lets a version fall |
| Sequential.SequentialIsInterleaved | internal/application/deployment/service.go:37-277 | every history of calls and crashes is one of the interleavings |
| Sequential.CallsKeepContract | internal/application/deployment/service.go:37-277 | after any history, success of install/upgrade means SUCCEEDED with one more entry carrying version, chart and returned revision; success of rollback means ROLLED_BACK with history, chart version and values kept; an error leaves the store as it was, or the one row of the command's release that its guard allowed PENDING, started or FAILED, with history, version and frozen columns as they were and the chart version and values the call carries; an uninstall deletes at most one row of that name; all other rows untouched |
| Sequential.CutCallsKeepContract | internal/application/deployment/service.go:37-277 | a call cut short by a crash left its row concluded if it only had to publish, and at every other point what an error leaves |
| Sequential.WriteAhead | internal/application/deployment/service.go:74-230 | after any history, with crashes anywhere, whenever a call is about to reach Helm its row is stored as DEPLOYING, UPGRADING or ROLLING_BACK and mirrors the aggregate |
| Sequential.VersionsGrow | internal/application/deployment/service.go:37-277 | no point of a call in a sequential history stores a lower version than the call found |
| Traces.CallsFollowTheirStory | internal/application/deployment/service.go:37-286 | the effects of a call that returned, in order and in full: its saves by status, the Helm request with the command's release, chart, version, values and flags, the final save, and the published events with the command's names, chart and target version, Helm's revision or reason; an error stops there; an uninstall deletes the row it found |
| Sequential.NamespaceFirst | internal/application/deployment/service.go:62-67 | an install that is not a bare dry run stores nothing before its namespace was ensured; all other calls ensure none |
| Sequential.CallsAreShort | internal/application/deployment/service.go:37-277 | every call returns after at most six port calls |
| Outcomes.SuccessExactly | internal/application/deployment/service.go:37-252 | some answers of the ports let a call succeed for a deployment iff it may work on it: a valid install request with a new id, a SUCCEEDED row of the release for upgrade, a SUCCEEDED or FAILED one for rollback |
| Outcomes.UpgradeStoresChartExactly | internal/application/deployment/service.go:147-189 | after a successful upgrade the history records the requested chart, and the stored row holds it iff its name, repo and source are those stored before |
| Outcomes.UpgradeCanLoseChart | internal/adapters/storage/sqlite/repository.go:88-96 | from every sound world with a matching SUCCEEDED row, an upgrade to another chart can succeed and store a different one |
| Outcomes.FailureWasSavedExactly | internal/application/deployment/service.go:96-100 | a call that published its failure had saved its row as FAILED in that call iff the store answered that save |
| Outcomes.FailureCanGoUnsaved | internal/application/deployment/service.go:96-100 | any call that may work on a deployment can publish a failure it never saved |
| Projection.AgreementExactly | internal/application/deployment/service.go:96-286 | from agreement, a call that returns or is cut short by a crash leaves every row rebuilt by its published events iff it ends at a safe point, for a returned call: iff no harmful fault occurred |
| Projection.EventsRebuildStore | internal/application/deployment/service.go:37-286 | after any history of calls that returned or crashed at safe points, replaying the events of an id rebuilds its row's status, version, history (minus timestamps) and chart version, and the row's chart name/repo/source are those of the Created event |
| Ports.FailureIsKept | internal/application/deployment/service.go:96-100 | where Helm failed, the failed deployment was then saved and its events published, whether or not either was answered, and the row is FAILED if the save was |
| Ports.UninstallIsKept | internal/application/deployment/service.go:258-274 | where Helm uninstalled, a row was searched for and the one found deleted if the store answered that; the store is otherwise unchanged |
| DeploymentService.Service.InstallChart | internal/application/deployment/service.go:37-129 | whatever store and environment answer: runs as the machine on exactly the answers its ports gave, each port asked and none skipped; keeps the contract; has exactly the effects of its story; after a failed Helm call saves the failure and publishes, and the row is FAILED if the save was answered |
| DeploymentService.Service.UpgradeChart | internal/application/deployment/service.go:132-206 | likewise |
| DeploymentService.Service.RollbackChart | internal/application/deployment/service.go:209-252 | likewise |
| DeploymentService.Service.UninstallChart | internal/application/deployment/service.go:255-277 | likewise; when Helm uninstalled the release it searches for a row of it, deletes the one found, and leaves the store otherwise as it was, whatever fails |
| DeploymentService.Service.PublishEvents | internal/application/deployment/service.go:279-286 | drains the buffer whether or not the publisher takes the batch; publishes it iff it is not empty |

## Left out

- BuildSteps: does not carry step descriptions, which are display text.
- BuildRollbackPlan: likewise.
- TripTestIsExact: assumes that rounding is monotone with relative error at most 2^-53 instead of defining it on binary64.
- CallsKeepContract: speaks of calls that do not overlap; under overlap the results of `Interleaving.dfy`, `Announcements.dfy` and `Overlap.dfy` hold.
- FailureWasSavedExactly: likewise follows one call at a time.
- EventsRebuildStore: says nothing of values, labels and annotations, which events do not carry.
- Helm and Kubernetes clients, MCP handlers, retry, the breaker's state machine, configuration, logging, metrics and bootstrap: plumbing around the modelled services.
- JSON, SQL text and RFC 3339 formatting: columns are stored as values, with created_at and updated_at cut to whole seconds; undecodable columns and years beyond 9999 do not occur.
- uuid generation: ids are drawn fresh from the natural numbers.
- Semantic-version parsing: its verdict on a chart version is an input.
- Intent parsing and the app catalogue, value merging, plan approval/start/completion and the attachment of rollback plans: simple members beside the modelled ones.
- Sharing of slices and maps between a plan and its caller, and the planner's writes into an app's values map.
- Statuses outside the declared constants, deployment values of non-string type, event ids and event times.
- A missing publisher: it behaves as one that always fails.
- Options the commands pass through to Helm unread: wait, atomic, timeout, force, reuse and reset of values, keep history.
- 64-bit overflow of version numbers.
