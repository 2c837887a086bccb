# Staging, Diego dispatch and service-broker catalog sync — a Dafny model

This project models three pieces of the Cloud Controller's control plane and proves
properties of them.

* **`Dea::AppStagerTask`** — the pooled-worker (DEA) backend stages an app in one attempt:
  * It sizes the memory and disk request and selects a stager.
  * It broadcasts `staging.stop` and reserves the sized memory in the stager pool and the DEA pool.
  * It stamps the task's token on the app and sends the staging request to the chosen stager.
  * It then handles two replies. A well-formed setup reply and every completion reply are guarded by the token and by the app's failed flag. An error or unparsable setup reply marks the app failed whatever its token. The setup reply returns the streaming-log URL or raises. The completion reply commits at most once.

  The app's staging bookkeeping is a value (`Apps.Staging`) held by the `App` object. Each reply's effect is a pure step function (`SetupStep`, `CompletionStep`). The `AppStagerTask` class applies those steps and moves through the phases `Created → AwaitingSetup → AwaitingCompletion → Finished`.

  `StagingRuns` folds arbitrary interleavings of dispatches, replies and concurrent failure marks over one app. It proves that only the most recently dispatched attempt can get its log URL or commit, and that an attempt whose app was marked failed is refused at both replies until the next dispatch.
* **`Diego::Client`** — the declarative backend's client:
  * the enablement predicates;
  * the desire request;
  * the staging request, which stamps the token before it publishes;
  * the handling of the placement tracker's reply in `lrp_instances`.

  The HTTP exchange is an input: a refused connection, or a status code and the parsed instance list.
* **`ServiceBrokers::ServiceManager`** — `sync_services_and_plans` reconciles the service and plan tables, two maps keyed by unique id, with one broker's catalog:
  * services and plans are created or updated in place, and new plans are private;
  * this broker's plans and services that the catalog dropped are deleted, or deactivated while they are still in use;
  * a warning names the deactivated plans, and warnings accumulate.

  `Database` and `ServiceManager` are classes updated in place. Their methods are proved against the pure `Sync` function. `SyncProperties` proves what one synchronisation promises.

Files:

| file | contents |
|---|---|
| `common.dfy` | `Option`, `Result`, `Max` |
| `messaging.dfy` | the message bus as a log of published messages |
| `apps.dfy` | app attributes, staging bookkeeping, the `App` object |
| `pools.dfy` | the stager pool and the DEA pool |
| `stager_task.dfy` | sizing, the reply steps, the staging request, `AppStagerTask` |
| `staging_runs.dfy` | interleavings of attempts and the token guard |
| `diego_client.dfy` | the Diego client |
| `service_manager.dfy` | the tables, `Sync`, `Database`, `ServiceManager` |
| `sync_properties.dfy` | the properties of one synchronisation |

## Model

| member | source | states |
|---|---|---|
| StagerTask.StagingMemoryMb | spec/unit/lib/cloud_controller/dea/app_stager_task_spec.rb:89-105 | the memory asked for is the larger of the app's memory and the configured minimum (1024 when unset): at least both, and equal to one of them |
| StagerTask.StagingDiskMb | spec/unit/lib/cloud_controller/dea/app_stager_task_spec.rb:107-134 | the disk asked for is the larger of the app's disk quota and the configured minimum, with 4096 when the minimum is nil |
| Pools.StagerPool.FindStager | spec/unit/lib/cloud_controller/dea/app_stager_task_spec.rb:72-80 | the result is None exactly when no registered stager runs the stack with enough memory and disk; otherwise a registered stager that fits |
| Pools.Reserve | spec/unit/lib/cloud_controller/dea/app_stager_task_spec.rb:567-598 | a reservation takes the amount from the chosen worker's available memory and changes no other worker and no key |
| StagerTask.AppStagerTask.Stage | spec/unit/lib/cloud_controller/dea/app_stager_task_spec.rb:72-87 | with no stager found: fails with no-available-stagers and changes nothing. Otherwise: stamps the task id on the app; publishes `staging.stop` with the app guid, then the staging request to `staging.<stager>.start`; reserves the sized memory on the chosen stager in both pools; awaits the setup reply |
| StagerTask.SetupStep | spec/unit/lib/cloud_controller/dea/app_stager_task_spec.rb:136-463 | an invalid or error reply raises a staging error and marks the app failed (not staged) with its reason, changing no detected field and not the token. A well-formed reply never changes the app: it raises another-staging-initiated when the app carries another token, and already-marked-failed when the app is failed. It returns the streaming-log URL exactly when the reply is well formed, the token matches and the app is not failed |
| StagerTask.AppStagerTask.HandleSetupReply | spec/unit/lib/cloud_controller/dea/app_stager_task_spec.rb:136-463 | the awaited setup reply applies `SetupStep` to the app with the task's own token. It then awaits completion exactly when it returned the log URL, and finishes otherwise. The continuation is not called. A reply that is not awaited is ignored and changes nothing |
| StagerTask.FailureReason | spec/unit/lib/cloud_controller/dea/app_stager_task_spec.rb:500-564 | the recorded reason is `error_info.type` when present, otherwise the generic `StagingError` |
| Apps.MarkFailed | spec/unit/lib/cloud_controller/dea/app_stager_task_spec.rb:231-234 | marking failed sets the failed state and the reason and leaves every other staging field as it was |
| StagerTask.GuidForKey | spec/unit/lib/cloud_controller/dea/app_stager_task_spec.rb:356-366 | None exactly when no admin buildpack has the key; otherwise the guid of one that has it |
| StagerTask.Commit | spec/unit/lib/cloud_controller/dea/app_stager_task_spec.rb:307-380 | a commit marks the app staged and saves the detected buildpack. It saves the buildpack guid exactly when the reported key names an admin buildpack. It replaces the start command only when the app has a droplet and the reply carries a command. Token, reason and droplet hash are not clobbered |
| StagerTask.CompletionStep | spec/unit/lib/cloud_controller/dea/app_stager_task_spec.rb:288-564 | a stale token abandons with another-staging-initiated, and a failed app abandons with already-marked-failed; both leave the app unchanged. It commits exactly when the token matches, the app is not failed and the reply is well formed, with one started instance when the reply has a droplet hash. It logs a failure exactly when the reply is bad or an error, recording the reason. Anything but a commit changes no detected field or droplet hash and never sets staged |
| StagerTask.AppStagerTask.HandleCompletionReply | spec/unit/lib/cloud_controller/dea/app_stager_task_spec.rb:288-391 | the awaited completion applies `CompletionStep`; on commit it marks the app started on the stager when a droplet was produced and calls the continuation once with the started count; the task finishes, and any later reply is ignored with no change |
| StagingRuns.RunTokenIsLastDispatch | spec/unit/lib/cloud_controller/dea/app_stager_task_spec.rb:159-169 | after any sequence of events the app carries the token of the last dispatch: replies and failure marks never write it |
| StagingRuns.SupersededCompletionIsInert | spec/unit/lib/cloud_controller/dea/app_stager_task_spec.rb:393-442 | under any interleaving, once a newer attempt has been dispatched, the older attempt's completion abandons with another-staging-initiated and leaves the app exactly as it is |
| StagingRuns.OnlyLatestAttemptCommits | spec/unit/lib/cloud_controller/dea/app_stager_task_spec.rb:393-442 | a completion that commits belongs to the most recently dispatched attempt |
| StagingRuns.SupersededTokenIsStale | spec/unit/lib/cloud_controller/dea/app_stager_task_spec.rb:393-398 | once a newer attempt has been dispatched and the older one is not dispatched again, the app no longer carries the older token, whatever else happened |
| StagingRuns.SupersededSetupIsInert | spec/unit/lib/cloud_controller/dea/app_stager_task_spec.rb:393-442 | under any interleaving, once a newer attempt has been dispatched, the older attempt's well-formed setup reply raises another-staging-initiated and leaves the app exactly as it is |
| StagingRuns.OnlyLatestAttemptStreams | spec/unit/lib/cloud_controller/dea/app_stager_task_spec.rb:393-412 | a setup reply that returns the log URL belongs to the most recently dispatched attempt |
| StagingRuns.MarkedFailedAttemptIsRefused | spec/unit/lib/cloud_controller/dea/app_stager_task_spec.rb:444-462 | when the app is marked failed while an attempt is still the latest, then from that point until the next dispatch, whatever else arrives, that attempt's well-formed setup reply raises already-marked-failed, its completion abandons with already-marked-failed, and neither changes the app |
| StagingRuns.FailedUntilDispatch | spec/unit/lib/cloud_controller/dea/app_stager_task_spec.rb:444-462 | once the app is failed, no reply and no failure mark clears the failed flag or changes the token until the next dispatch |
| StagerTask.StagingEgressRules | spec/unit/lib/cloud_controller/dea/app_stager_task_spec.rb:789-795 | every rule sent for staging is a rule of some `staging_default` security group |
| StagerTask.StagingEgressRulesNoRepeats | spec/unit/lib/cloud_controller/dea/app_stager_task_spec.rb:789-795 | when no rule occurs twice among the `staging_default` groups, the staging egress rules have no repeats, so each such rule is sent exactly once |
| StagerTask.StagingEgressRulesMembership | spec/unit/lib/cloud_controller/dea/app_stager_task_spec.rb:789-795 | a rule is in the staging egress rules exactly when some `staging_default` security group has it |
| StagerTask.AdminBuildpackEntries | spec/unit/lib/cloud_controller/dea/app_stager_task_spec.rb:689-768 | no more entries than admin buildpacks, and every entry carries the download URL and key of an admin buildpack that is enabled and has uploaded bits |
| StagerTask.AdminBuildpackEntriesMembership | spec/unit/lib/cloud_controller/dea/app_stager_task_spec.rb:689-768 | an entry is offered exactly when some admin buildpack is enabled, has uploaded bits at that URL and has that key |
| StagerTask.AdminBuildpackEntriesCount | spec/unit/lib/cloud_controller/dea/app_stager_task_spec.rb:706-765 | there are exactly as many entries as admin buildpacks that are enabled and have uploaded bits (the size of `OfferedIndices`, their positions) |
| StagerTask.AdminBuildpackEntriesDistinct | spec/unit/lib/cloud_controller/dea/app_stager_task_spec.rb:706-765 | admin buildpacks with distinct keys give entries with distinct keys, so no buildpack is offered twice |
| StagerTask.AdminBuildpacksIgnoreChoice | spec/unit/lib/cloud_controller/dea/app_stager_task_spec.rb:721-734 | the admin buildpack list is the same whichever buildpack the app asks for |
| StagerTask.BuildpackProperties | spec/unit/lib/cloud_controller/dea/app_stager_task_spec.rb:646-667 | an admin buildpack sets only `buildpack_key` (its key); a custom URL sets `buildpack` and `buildpack_git_url` (the URL) and no key; neither sets nothing |
| StagerTask.StagingEnvironment | spec/unit/lib/cloud_controller/dea/app_stager_task_spec.rb:797-824 | the keys are the union of the staging group's and the app's; the app's value wins on a clash, and a nil app environment counts as empty |
| StagerTask.StagingRequestFor | spec/unit/lib/cloud_controller/dea/app_stager_task_spec.rb:617-824 | the request carries the app guid and the task id; the staging environment, the buildpack properties, the admin buildpack list and the staging egress rules; and a start message with index 0 and the droplet sha and download URI blanked |
| Pools.StagerPool.ReserveAppMemory | spec/unit/lib/cloud_controller/dea/app_stager_task_spec.rb:567-598 | the stager pool's available memory becomes that of `Reserve` on the chosen stager; the registrations, stacks and disk figures do not change |
| Pools.DeaPool.ReserveAppMemory | spec/unit/lib/cloud_controller/dea/app_stager_task_spec.rb:567-598 | the DEA pool's available memory becomes that of `Reserve` on the chosen DEA; the started apps do not change |
| Pools.DeaPool.MarkAppStarted | spec/unit/lib/cloud_controller/dea/app_stager_task_spec.rb:381-384 | records the (stager, app) pair and changes no memory |
| DiegoClient.RunningEnabled | lib/cloud_controller/diego/client.rb:21-23 | true exactly when the client is enabled and the app has an environment whose `CF_DIEGO_RUN_BETA` is the string "true" |
| DiegoClient.StagingEnabled | lib/cloud_controller/diego/client.rb:21-28 | false whenever the client is disabled; implied by `running_enabled`; otherwise true exactly when either beta flag is the string "true" |
| DiegoClient.NilEnvironmentIsEmpty | lib/cloud_controller/diego/client.rb:21-28 | an app without an environment is treated like one with an empty environment, so Diego neither runs nor stages it |
| DiegoClient.StagingNeeded | lib/cloud_controller/diego/client.rb:30-32 | never without staging enabled; with it, needed when the app needs staging or has no detected start command, and only then |
| DiegoClient.EnvValue | lib/cloud_controller/diego/client.rb:22 | the lookup finds the key exactly when the app's environment (nil as empty) has it, with its value |
| DiegoClient.LrpGuid | lib/cloud_controller/diego/client.rb:117-119 | the process guid is the app guid, a dash, and the version |
| DiegoClient.DesiredInstances | lib/cloud_controller/diego/client.rb:113-115 | the declared instances when the app is started, 0 otherwise |
| DiegoClient.DesireRequest | lib/cloud_controller/diego/client.rb:48-69 | the request has exactly the eleven base keys, plus the health-check key exactly when the app has a timeout (with that value). The process guid is `guid-version`, the instance count is 0 unless started, and memory, disk, file descriptors, stack, routes, log guid and start command come from the app. The droplet URI and the rendered environment are the given ones |
| DiegoClient.Client.SendDesireRequest | lib/cloud_controller/diego/client.rb:34-37 | publishes the desire request on `diego.desire.app`, once |
| DiegoClient.Client.SendStageRequest | lib/cloud_controller/diego/client.rb:39-46 | the app's token becomes the given id (nothing else on the app changes), and the one message published on `diego.staging.start` carries that id |
| DiegoClient.Client.LrpInstances | lib/cloud_controller/diego/client.rb:71-109 | with no tracker address: Unavailable, and no request is made. Otherwise only the first address is asked, at `/lrps/<process guid>`. A refused connection or any status other than "200" is Unavailable, and success happens only with "200". On success there is one entry per reported instance, in order, with the state upper-cased and `since` in whole seconds |
| DiegoClient.Upcase | lib/cloud_controller/diego/client.rb:99 | same length, each character upper-cased |
| DiegoClient.UpcaseIsCanonical | lib/cloud_controller/diego/client.rb:99 | an upper-cased state has no lower-case letter, and upper-casing again changes nothing |
| DiegoClient.SinceTruncates | lib/cloud_controller/diego/client.rb:100 | nanoseconds become the whole seconds below them (1_000_000_000 and 1_999_999_999 both give 1) |
| ServiceBrokers.ServiceManager.constructor | spec/unit/lib/services/service_brokers/service_manager_spec.rb:57-63 | a new manager keeps its catalog and has no warnings |
| ServiceBrokers.ServiceManager.HasWarnings | spec/unit/lib/services/service_brokers/service_manager_spec.rb:350-370 | true exactly when the warnings list is non-empty |
| ServiceBrokers.ServiceFrom | spec/unit/lib/services/service_brokers/service_manager_spec.rb:65-100 | a service row belongs to the broker; it copies label, description, bindable, tags, requires and plan_updateable; `extra` is the catalog metadata (nil when absent); the row is active |
| ServiceBrokers.PlanFrom | spec/unit/lib/services/service_brokers/service_manager_spec.rb:102-142 | a plan row is active and belongs to its catalog service, copying name, description, free and metadata. It is public only when the existing plan already was, and it keeps the existing instance count (none for a new plan) |
| ServiceBrokers.Sync | spec/unit/lib/services/service_brokers/service_manager_spec.rb:65-346 | a sync fails exactly when the catalog clashes with another broker's rows; a warning it returns names at least one plan |
| ServiceBrokers.ServiceManager.SyncServicesAndPlans | spec/unit/lib/services/service_brokers/service_manager_spec.rb:65-346 | a catalog clashing with another broker's rows is refused and nothing changes; otherwise the tables become the result of `Sync`, and its warning, if any, is appended to the warnings |
| ServiceBrokers.Database.UpsertCatalog | spec/unit/lib/services/service_brokers/service_manager_spec.rb:144-228 | every catalog service, then its plans, is created or updated in place, in catalog order |
| ServiceBrokers.Database.RetireMissingPlans | spec/unit/lib/services/service_brokers/service_manager_spec.rb:231-282 | each missing plan without instances is deleted and each one with instances deactivated; the result names the deactivated plans with their service's label |
| ServiceBrokers.Database.RetireMissingServices | spec/unit/lib/services/service_brokers/service_manager_spec.rb:287-346 | each missing service still referred to by a plan is deactivated, the others deleted |
| ServiceBrokers.UpsertPlansAppend | spec/unit/lib/services/service_brokers/service_manager_spec.rb:181-228 | upserting plans service by service is upserting the whole catalog's plans at once |
| SyncProperties.SyncCatalogServices | spec/unit/lib/services/service_brokers/service_manager_spec.rb:65-100 | after a sync every catalog service is an active row of this broker copied from the catalog |
| SyncProperties.SyncCatalogPlans | spec/unit/lib/services/service_brokers/service_manager_spec.rb:102-228 | after a sync every catalog plan is an active row under its catalog service, copied from the catalog; it is public exactly when it already was a public plan |
| SyncProperties.SyncCreatesOnlyCatalogRows | spec/unit/lib/services/service_brokers/service_manager_spec.rb:144-163 | a sync creates no rows beyond the catalog's ids; an existing id is updated in place |
| SyncProperties.SyncRetiresMissingPlans | spec/unit/lib/services/service_brokers/service_manager_spec.rb:231-282 | this broker's plan missing from the catalog is deleted when it has no instances, and kept deactivated otherwise. There is a warning exactly when some plan was deactivated. It names exactly those plans, each with its own name and the label of its service in the synchronised tables |
| SyncProperties.SyncRetiresMissingServices | spec/unit/lib/services/service_brokers/service_manager_spec.rb:287-346 | this broker's service missing from the catalog is kept, deactivated, exactly when an unlisted plan of it still has instances; otherwise it is deleted |
| SyncProperties.SyncLeavesOtherBrokers | spec/unit/lib/services/service_brokers/service_manager_spec.rb:305-346 | services of other brokers, and plans not owned by this broker, are neither changed nor deleted |
| SyncProperties.SyncPreservesWellFormed | spec/unit/lib/services/service_brokers/service_manager_spec.rb:231-346 | if every plan refers to an existing service before a sync, it does after |

Choices the model makes where the tests leave a case open:

* The memory floor is 1024 MB when `minimum_staging_memory_mb` is unset (test title at `app_stager_task_spec.rb:90`, and the 1024 reservations at `app_stager_task_spec.rb:588-597`).
* The continuation receives `started_instances` 1 when the completion reply carries a droplet hash, the same condition under which the app is marked started (`app_stager_task_spec.rb:381-391`). Every well-formed reply in the tests carries `droplet_sha1` (`app_stager_task_spec.rb:47-58` and `app_stager_task_spec.rb:334-345`), so the 0 given without one, and not marking the app started then, are choices of the model.
* Each reply is checked in a fixed order, a choice of the model: no test combines two of the conditions. The setup reply is checked for an error first, then for a stale token, then for the failed flag. The completion reply is checked for a stale token, then the failed flag, then an error. The tests for the stale token and the failed flag are at `app_stager_task_spec.rb:393-463`.

## Left out

- Message-bus transport, `EM.defer`/`schedule_sync`, promises and timers: the event loop is replaced by explicit method calls in sequence, with replies as inputs.
- Net::HTTP, timeouts, `connect!`/`service_registry.run!` and JSON parsing: network I/O. The status code and the parsed instance list are parameters.
- Blobstore URL generation: the staging request's package download, droplet upload and buildpack-cache download and upload URIs (`app_stager_task_spec.rb:617-630`) are dropped from `StagingRequest`, because the blobstore URL generator is a foreign collaborator. Admin buildpack download URLs are opaque strings supplied with each buildpack.
- StagerTask.StagingEnvironment: the staging environment is modelled as a map. The request renders it as a list of `KEY=value` strings under `properties` (`app_stager_task_spec.rb:804-823`); that rendering is not modelled.
- The internals of `Environment`, `StagingRequest`, `DesireAppMessage`, `StartAppMessage` and `BuildpackEntryGenerator`: not part of this model. Only the fields the tests assert are modelled, and the rendered environment is an input to the desire request.
- The request's service-binding properties and miscellaneous app properties: they come from collaborators that are not part of this model.
- Logging, and the pass-through of the `ArgumentError` raised when the app is destroyed in the middle of staging: foreign exception plumbing.
- ORM persistence: the tables are maps keyed by unique id. The database's cross-broker unique-id error is modelled as a refused sync that changes nothing.
- The exact text of the deactivated-plans warning: the model keeps, per deactivated plan, its service's label and its name.
- Pools.StagerPool.FindStager: the stager pool's choice among several fitting stagers is modelled as the first fitting one in registration order; the tests stub it.
- DiegoClient.Upcase: upper-cases ASCII letters only, not the whole of Unicode as Ruby's `String#upcase` does.
- StagerTask.AppStagerTask.Stage: the staging timeout read from the configuration is not modelled, because reply timeouts belong to the event loop.
