# watchmen-data-processor core, modelled in Dafny

This project models five pieces of the watchmen data processor and proves
properties about them:

- **Retry template** (`retry_template.dfy`, module `RetryTemplate`):
  - the optimistic-lock retry loop `execute` built by `retry_template`;
  - the counter check `retry_or_not`;
  - the fixed one-second `backoff`;
  - the recovery check after the loop.

  The wrapped operation is a script: what its k-th call does (return, raise
  `OptimisticLockError`, raise something else). The recovery callback is a
  script too: it returns a value or raises. Sleeps, calls and the recovery
  are recorded as events. `Execute` is the imperative `while need_retry` loop,
  proved equal to the function `Executed`.
- **Pipeline worker** (`pipeline_worker.dfy`, module `PipelineWorker`):
  - `should_run`;
  - `run_pipeline`, covering:
    - the `KeyError` on missing `old`/`new` trigger data;
    - the enabled check and the topic lookup;
    - the guard;
    - the `for stage` loop that appends to the run status;
    - FINISHED or ERROR;
    - the cascade gated by the topic kind;
    - the monitoring call in `finally`, whose own exception escapes from it;
    - the `AttributeError` raised when the lookup yields no topic.

  The run status and the context are classes updated in place. `RunPipeline`
  and its parts are methods proved equal to the function `PipelineRun`. The
  collaborators are parameters: topic lookup, guard evaluator, `run_stage`,
  cascade and monitoring sink (`sync_pipeline_monitor_data`). Each may raise,
  and every call to one is logged. The topic lookup's `Missing` outcome is
  wider than the storage function: `get_topic_by_id` builds the topic with
  `Topic.parse_obj`, which raises on a missing document. `Missing` covers a
  lookup that yields no topic at all, which the worker's own code would turn
  into an `AttributeError`.
- **Table lookups** (`mysql_table_definition.dfy`, module `TableDefinition`):
  `get_table_by_name` and `get_primary_key`. Each `if`/`elif` chain is a list
  of branches in source order; the first branch whose name matches is taken.
- **Page assembly** (`admin.dfy`, module `AdminRouter`):
  - `__build_data_pages`;
  - beside it, the skip/limit slice that `query_with_pagination` and
    `query_topic_list_with_pagination` read from storage. Both wrap that slice
    with `build_data_pages` and return the resulting `DataPage`, and
    `query_topic_list_by_name` hands that `DataPage`, not a list, on to
    `__build_data_pages`.
- **User service** (`user_service.dfy`, module `UserService`):
  - `authenticate`, over abstract user loading and password checking;
  - `sync_user_to_user_groups`: `UserGroup` objects whose `userIds` lists are
    appended to in place, with every storage call logged.

`common.dfy` (module `Common`) holds `Option`, a JSON-like `Value` and a
helper lemma on regrouping concatenations.

Points of the retry loop that are easy to misread:

- `execute` returns `None` when the operation succeeds, unless the counter
  ended at 3 (see Findings); the operation's own result is always dropped.
- `max_attempts` counts the retries after the first call, so for a
  non-negative `max_attempts` an operation that always conflicts is called
  `max_attempts + 1` times; a negative bound allows one call only.
- The recovery callback runs when the final counter equals the literal 3.
  That is the as-written behaviour; the recovery keyed to the policy's
  exhaustion is modelled beside it (see Findings).

## Model

| member | source | states |
|---|---|---|
| RetryTemplate.RetryOrNot | watchmen/pipeline/core/retry/retry_template.py:24-28 | another try is allowed exactly when the counter is below the policy's bound |
| RetryTemplate.Backoff | watchmen/pipeline/core/retry/retry_template.py:15-21 | a backoff is one sleep of the policy's length |
| RetryTemplate.RetryTemplate | watchmen/pipeline/core/retry/retry_template.py:31-53 | building the closure keeps the operation, recovery and policy; it calls nothing |
| RetryTemplate.Execute | watchmen/pipeline/core/retry/retry_template.py:32-51 | the imperative loop returns exactly the result and the events of the function `Executed` |
| RetryTemplate.LoopShape | watchmen/pipeline/core/retry/retry_template.py:35-47 | the loop ends in one of three ways: a success, an escaped exception, or a conflict with the policy exhausted. Before that last call it makes n calls that all conflicted, each followed by one backoff, and the counter grew by n, never beyond the bound |
| RetryTemplate.RetriesContents | watchmen/pipeline/core/retry/retry_template.py:41-45 | n handled conflicts hold exactly n calls and n sleeps of one second, and nothing else |
| RetryTemplate.CounterBounded | watchmen/pipeline/core/retry/retry_template.py:41-45 | with a non-negative bound the final counter never exceeds `max_attempts` |
| RetryTemplate.ExecutedShape | watchmen/pipeline/core/retry/retry_template.py:35-51 | the events are the retries, the last call, then the recovery exactly when the loop stopped with counter 3; the caller then gets what the recovery callback returned or raised, else the operation's escaped exception, else `None` |
| RetryTemplate.ExecuteEffects | watchmen/pipeline/core/retry/retry_template.py:35-51 | one call more than handled conflicts, one one-second sleep per handled conflict, recovery at most once, and no other event |
| RetryTemplate.RecoveryIffCounterIsThree | watchmen/pipeline/core/retry/retry_template.py:50-51 | recovery runs if and only if the final counter equals 3; exactly then the caller gets what the recovery callback returned, or its exception; otherwise the escaped exception or `None` |
| RetryTemplate.FirstCallSucceeds | watchmen/pipeline/core/retry/retry_template.py:36-38 | success on the first call: one call, no sleep, no recovery, and `None` is returned (the operation's value is dropped) |
| RetryTemplate.OtherErrorEscapes | watchmen/pipeline/core/retry/retry_template.py:37-39 | a non-conflict exception on the first call, or after k conflicts that the policy allowed, escapes at once, with no further retry or backoff and no recovery |
| RetryTemplate.AlwaysConflicting | watchmen/pipeline/core/retry/retry_template.py:35-47 | for a non-negative bound, an always-conflicting operation is called `max_attempts + 1` times and the counter ends at `max_attempts` |
| RetryTemplate.DefaultPolicyRecovers | watchmen/pipeline/core/retry/retry_template.py:11-12 | under the default policy an always-conflicting operation is called four times, then recovered once, and the caller gets the recovery's value or exception |
| RetryTemplate.NoRecoveryBelowThree | watchmen/pipeline/core/retry/retry_template.py:50-51 | with a bound below 3 the recovery never runs |
| RetryTemplate.AlwaysConflictingRecoversOnlyAtThree | watchmen/pipeline/core/retry/retry_template.py:50-51 | an always-conflicting operation is recovered if and only if the bound is exactly 3, for every bound, negative ones included |
| RetryTemplate.CustomBoundDropsConflict | watchmen/pipeline/core/retry/retry_template.py:50-51 | as written: under a bound of 5 an always-conflicting operation returns `None` after six calls, and the recovery never runs |
| RetryTemplate.RecoveryAfterSuccess | watchmen/pipeline/core/retry/retry_template.py:50-51 | as written: three conflicts then a success still run the recovery, and the caller gets its outcome instead of `None` |
| RetryTemplate.IntendedEvents | watchmen/pipeline/core/retry/retry_template.py:46-51 | corrected: the events are the loop's, then the recovery exactly when the last call conflicted and the policy refused a retry |
| RetryTemplate.IntendedShape | watchmen/pipeline/core/retry/retry_template.py:46-51 | corrected: the caller gets the recovery callback's value or exception exactly when the last call conflicted and the policy refused a retry; else the escaped exception or `None` |
| RetryTemplate.IntendedRecoveryOnExhaustion | watchmen/pipeline/core/retry/retry_template.py:46-51 | corrected: recovery if and only if the last call conflicted with the policy exhausted; never after a success or an escaped exception |
| RetryTemplate.IntendedRecoversAtMostOnce | watchmen/pipeline/core/retry/retry_template.py:46-51 | corrected: the recovery runs at most once |
| RetryTemplate.IntendedAlwaysConflictingRecovers | watchmen/pipeline/core/retry/retry_template.py:46-51 | corrected: an always-conflicting operation is recovered after `max_attempts + 1` calls, for every non-negative bound |
| PipelineWorker.ShouldRun | watchmen/pipeline/core/worker/pipeline_worker.py:22-28 | no guard means run, whatever the data and variables; otherwise the evaluator's verdict on the current data and variables |
| PipelineWorker.RunPipeline | watchmen/pipeline/core/worker/pipeline_worker.py:31-76 | the escaped exception (including one raised by the monitoring sink in `finally`), the final run status (a fresh object) and the calls made are exactly those of the function `PipelineRun` |
| PipelineWorker.RunEnabled | watchmen/pipeline/core/worker/pipeline_worker.py:41-76 | for an enabled pipeline: the lookup and the rest of the run, as `EnabledRun` gives them, down to an exception from the monitoring sink |
| PipelineWorker.RunResolved | watchmen/pipeline/core/worker/pipeline_worker.py:44-76 | the context with the run's uid, the guard, then the guarded run, as `ResolvedRun` gives them, down to an exception from the monitoring sink |
| PipelineWorker.RunStageLoop | watchmen/pipeline/core/worker/pipeline_worker.py:51-55 | the loop appends to the status exactly the statuses, and logs exactly the stage calls, that `RunStages` gives, and reports the exception that ended it |
| PipelineWorker.RunGuarded | watchmen/pipeline/core/worker/pipeline_worker.py:50-76 | the `try`/`except`/`finally` blocks leave the status and the log as `GuardedRun` gives them; what the monitoring sink raises in `finally` is what escapes |
| PipelineWorker.PipelineRunStatus.constructor | watchmen/pipeline/core/worker/pipeline_worker.py:36-37 | a new status carries the pipeline id, the uid and the topic id, with nothing else set |
| PipelineWorker.PipelineContext.constructor | watchmen/pipeline/core/worker/pipeline_worker.py:44 | a new context holds the pipeline and its data, with no topic and no status yet |
| PipelineWorker.StagesRunInOrder | watchmen/pipeline/core/worker/pipeline_worker.py:51-55 | stages run in declaration order, and a status is appended only after its stage returned. The number of statuses equals the number of completed stages; the first stage that raises is the last one called; without one every stage completes |
| PipelineWorker.FirstRaiseEndsLoop | watchmen/pipeline/core/worker/pipeline_worker.py:51-55 | when stage k is the first to raise, k statuses are appended and its exception ends the loop |
| PipelineWorker.CascadeIffMonitored | watchmen/pipeline/core/worker/pipeline_worker.py:63-71 | the cascade condition and the monitoring condition coincide: both exclude exactly the system kind |
| PipelineWorker.GuardedCalls | watchmen/pipeline/core/worker/pipeline_worker.py:50-75 | a guarded run calls:<br>- `run_stage` once per stage reached;<br>- the cascade once exactly when every stage returned and the topic is not of the system kind;<br>- monitoring once exactly when the topic exists and is not of the system kind;<br>- no lookup and no guard |
| PipelineWorker.AllStagesFinish | watchmen/pipeline/core/worker/pipeline_worker.py:51-64 | all stages return: every status is appended in order, the run is FINISHED (ERROR only if the cascade raised), the cascade runs once exactly when the topic is not of the system kind, and what escapes is the monitoring sink's exception, if any, and nothing for a system topic |
| PipelineWorker.StageFailureSwallowed | watchmen/pipeline/core/worker/pipeline_worker.py:50-69 | the first stage that raises:<br>- keeps the earlier statuses;<br>- sets ERROR with that exception's text;<br>- stops later stages and the cascade;<br>- is not re-raised: what escapes is only the `AttributeError` of a missing topic or the monitoring sink's own exception |
| PipelineWorker.MonitorSeesFinalStatus | watchmen/pipeline/core/worker/pipeline_worker.py:70-75 | monitoring receives the final status, once, as the last call, on both the success and the error path, unless the topic is of the system kind; nothing escapes exactly when the topic exists and either it is of the system kind or the sink returned; a missing topic raises from `finally` |
| PipelineWorker.GuardPassedRun | watchmen/pipeline/core/worker/pipeline_worker.py:41-49 | a run whose guard passed is one lookup, at most one guard call, then the guarded run on the status holding the trigger data |
| PipelineWorker.MissingTriggerDataRaises | watchmen/pipeline/core/worker/pipeline_worker.py:38-39 | missing `old` or `new` raises `KeyError` before any call, with the run status and its stages unset; only an `old` value read before a missing `new` is recorded |
| PipelineWorker.DisabledPipelineIsInert | watchmen/pipeline/core/worker/pipeline_worker.py:41 | a disabled pipeline makes no call and raises nothing; its status holds only the trigger data |
| PipelineWorker.RecordIdentity | watchmen/pipeline/core/worker/pipeline_worker.py:36-39 | every run status carries:<br>- the pipeline id;<br>- the uid;<br>- the pipeline id again as topic id;<br>- the old and new values, as far as they were read |
| PipelineWorker.GuardSeesRunUid | watchmen/pipeline/core/worker/pipeline_worker.py:44-49 | the guard is called exactly once, right after the lookup, with variables that map the uid key to the run's uid |
| PipelineWorker.GuardFalseRunsNothing | watchmen/pipeline/core/worker/pipeline_worker.py:49-75 | a guard that says no, or raises, runs no stage and no monitoring and leaves the status as it was; its exception escapes |
| PipelineWorker.LookupFailureEscapes | watchmen/pipeline/core/worker/pipeline_worker.py:42 | a lookup that raises ends the run with that exception after the one lookup call |
| TableDefinition.GetTableByName | watchmen/common/mysql/mysql_table_definition.py:156-182 | a table exactly for the thirteen names the chain tests, `None` for any other |
| TableDefinition.TableNamedAsAsked | watchmen/common/mysql/mysql_table_definition.py:156-182 | the table returned is the one declared under the name asked for |
| TableDefinition.GetPrimaryKey | watchmen/common/mysql/mysql_table_definition.py:185-211 | a key field exactly for the twelve names the chain tests, `None` for any other |
| TableDefinition.BranchTakenIsFirst | watchmen/common/mysql/mysql_table_definition.py:185-211 | the branch that runs is the first that tests the name; none runs exactly when no branch tests it |
| TableDefinition.KnownPrimaryKeys | watchmen/common/mysql/mysql_table_definition.py:185-201 | `topics`, `pipelines`, `console_spaces` and `console_space_subjects` map to `topicId`, `pipelineId`, `connectId` and `subjectId` |
| TableDefinition.DuplicateBranchUnreachable | watchmen/common/mysql/mysql_table_definition.py:188-207 | the second `console_space_subjects` branch agrees with the first and never runs |
| TableDefinition.UserIdKeyShared | watchmen/common/mysql/mysql_table_definition.py:192-203 | exactly `users`, `pipeline_graph` and `console_space_favorites` map to `userId` |
| TableDefinition.LookupDomainsDisagree | watchmen/common/mysql/mysql_table_definition.py:156-211 | a table but no key exactly for `console_space_last_snapshot` and `console_space_graph`; a key but no table exactly for `console_reports` |
| TableDefinition.KeyMismatches | watchmen/common/mysql/mysql_table_definition.py:198-201 | `console_spaces` is keyed by `connectId`, but its table's primary key is `spaceid`; `pipeline_graph` has a key but its table declares no primary key |
| TableDefinition.KeyMatchesColumnExceptTwo | watchmen/common/mysql/mysql_table_definition.py:185-211 | where both lookups answer, the lower-cased key is the table's primary-key column exactly for the names other than `console_spaces` and `pipeline_graph` |
| AdminRouter.BuildDataPages | watchmen/routers/admin.py:110-119 | an empty result gives the page as created. A non-empty one sets all four fields together: the result itself, its length as a positive item count, and the request's size and number verbatim |
| AdminRouter.PageOf | watchmen/common/mongo/mongo_template.py:59-63 | the page is the contiguous run of matches after the skipped ones, at most a page long, full unless it is the last page, and empty past the end |
| AdminRouter.SkipsAdvanceByPage | watchmen/common/mongo/mongo_template.py:76 | page 1 skips nothing, and each next page skips one page size more |
| AdminRouter.ItemCountIsPageLength | watchmen/routers/admin.py:114 | for a result that is one skip/limit page of the matches, `itemCount` counts the page, not all matches: at most the page size, below the number of matches when they span several pages, and unset past the end |
| UserService.Authenticate | watchmen/auth/service/user.py:13-22 | the user is returned if and only if it exists and the password verifies; otherwise 401 |
| UserService.SyncUserToUserGroups | watchmen/auth/service/user.py:37-48 | the pull and the fetch are logged, then every fetched group has the user joined. The writes logged are exactly one per group that lacked the user, in list order |
| UserService.JoinAll | watchmen/auth/service/user.py:45-48 | each group's new state is its old one with the user joined, and the log grows by exactly the writes `Writes` gives |
| UserService.JoinGroup | watchmen/auth/service/user.py:46-48 | one group gains the user if missing and is written back only then |
| UserService.WithMemberAppendsOnce | watchmen/auth/service/user.py:46-47 | the user ends up a member. A list that had the user is unchanged; otherwise the old members keep their order and the user follows once |
| UserService.JoinedGroupsContainUser | watchmen/auth/service/user.py:44-47 | after the sync every group contains the user, a group that already did is unchanged, and only member lists change |
| UserService.WritesOnlyForLacking | watchmen/auth/service/user.py:45-48 | never more writes than groups, and no write at all exactly when every group already had the user |
| UserService.WritesCarryJoinedGroups | watchmen/auth/service/user.py:46-48 | every written group's member list ends with the user, who occurs in it exactly once |
| UserService.SyncIsIdempotent | watchmen/auth/service/user.py:45-48 | syncing twice is syncing once: the second pass changes no group and writes nothing |

## Left out

- Time: the real `time.sleep` is an event recording the seconds. `startTime`,
  `completeTime` and elapsed time are not modelled.
- Logging is not modelled, and neither is `traceback.format_exc`: the error
  text stored in the run status is the exception's own text.
- The retry template's `raise RuntimeError("update retry failed")` is not
  modelled. It fires only if `retry_or_not`, logging or `backoff` raises, and
  none of them does here.
- The values of `OLD`, `NEW`, `PIPELINE_UID`, `SYSTEM`, `FINISHED` and
  `ERROR` live in modules that are not part of this model. The model uses
  stand-in names; only their distinctness matters.
- `run_stage`, `parse_parameter_joint`, `get_topic_by_id`,
  `__trigger_all_pipeline` and `sync_pipeline_monitor_data` are parameters.
  Each may raise, and what it raises is what the model propagates. Their
  behaviour is otherwise left abstract:
  - what `run_stage` does to the stage status and the variables;
  - the contents of the cascade merge list;
  - where the monitoring data goes.
- The `PipelineContext` constructor is not part of this model. The current
  trigger data and the initial variables it derives are parameters.
- The storage calls of the user service (`load_user_by_name`, `pull_update`,
  `get_user_group_list_by_ids`, `update_user_group_storage`) and
  `verify_password` are not part of this model:
  - the lookups are parameters;
  - the calls are logged;
  - the effect of `pull_update` on stored groups is not modelled;
  - the groups fetched afterwards are the method's input.
- UserService.SyncUserToUserGroups: requires the fetched groups to be distinct
  objects, as a fetch of distinct documents returns them; aliasing between
  fetched groups is not modelled.
- The `DataPage` and `Pagination` classes are not part of this model. Fields
  never assigned are `None`.
- AdminRouter.PageOf: requires a positive page size and a page number of at
  least 1. The database driver's behaviour for other requests is not modelled.
- `Lower` handles ASCII letters only, which covers every name and key in the
  chains.
- Table columns other than the primary key, and the connection and reflection
  setup, are not modelled; this includes `get_topic_table_by_name`, which
  reflects live schemas.
- HTTP routing, the other admin handlers and the storage adapters are not
  modelled.
- AdminRouter.ItemCountIsPageLength: states `itemCount` for a result that is
  one skip/limit list of matches. The one caller whose storage function is in
  view does not pass such a list: `query_topic_list_by_name`
  (watchmen/routers/admin.py:105-107) passes the return value of
  `query_topic_list_with_pagination`, the `DataPage` built by
  `build_data_pages`, and `len(result)` is then taken of that value. The
  storage functions behind the other admin callers are not part of this
  model. The lemma says what `itemCount` would hold for the list the storage
  layer reads; no call chain modelled here reaches it.

## Findings

| source | as written | input that shows it | evidently intended | confidence | as-written member | corrected member |
|---|---|---|---|---|---|---|
| watchmen/pipeline/core/retry/retry_template.py:50 | recovery runs when the counter equals the literal 3 | `max_attempts = 5` and an operation that always conflicts: six calls, then `None`; the conflict is dropped and recovery never runs | recovery runs whenever the policy is exhausted, for any `max_attempts` | not executed | RetryTemplate.CustomBoundDropsConflict | RetryTemplate.IntendedAlwaysConflictingRecovers |
| watchmen/pipeline/core/retry/retry_template.py:50 | the check reads only the counter, not how the loop ended | `max_attempts >= 3` and conflict, conflict, conflict, then success: the recovery still runs after the success | recovery only after the last call conflicted and could not be retried | not executed | RetryTemplate.RecoveryAfterSuccess | RetryTemplate.IntendedRecoveryOnExhaustion |
