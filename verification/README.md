# kube2e: what a run leaves behind and what it reports

kube2e runs declarative Kubernetes tests: a work directory holds suites, a suite
holds case files, a case holds steps with hooks around them, and a step performs up
to seven actions against a cluster. This project models that engine in Dafny and
proves what every run leaves in the cluster and what every run reports, for every
input and every pattern of failures.

The API server is a map from object identity to object. Every source of chance (the
answer to an API call, a kind lookup, a context error, the events of a wait, the log
samples of a polling window, the order in which Go walks a map) is a stream indexed
by a clock, so a lemma over all environments is a lemma over all outcomes. An error
is the set of kinds that `errors.Is` would find in its chain; nil is the empty set,
`%w` keeps the set and `errors.Join` unites it.

Code that updates things step by step is written as classes, methods and loops, each
proved equal to a function of the old state; the laws are lemmas about those
functions.

| module | what it holds |
|---|---|
| `Errors`, `Objects`, `Paths`, `FilterLaws` | error kinds, object identity and cache keys, file names and what they select |
| `SafeStore`, `Lifecycle`, `KubeService`, `RetryLaws`, `AttemptsSpent`, `Effects`, `PollingLaws` | the applied cache, one attempt of each operation, nested retries, the service as a class, how often operations are tried, and what they do and answer |
| `Waiting`, `LogPolicies`, `OptimisticPatch` | the wait loop, the log policies, and Patch against other writers |
| `CacheAgreement`, `Sweeping`, `Filing`, `Attempts` | what every operation keeps, what cleanup does, and why the assumptions are needed |
| `Reports`, `ReportCounts`, `CaseTrace`, `TraceLaws`, `StepLaws`, `Actions`, `ActionEffects`, `CaseRunner` | reports and sums, the case trace, its laws, the actions, and the loops that produce it |
| `SuiteRun`, `SuiteLaws`, `ReportLaws`, `ObjectTracing`, `TracePreservation`, `Standing`, `Conservation`, `RunConservation`, `NamespaceSafety`, `DryRun` | suites, their reports, conservation of cluster objects over cases, suites and whole runs, dry runs |
| `WorkerPool`, `ParallelRun`, `Engine`, `SequentialRun` | the bounded pool, suites run by it, the run report |
| `FileTree`, `TestImage`, `SuiteViews`, `ImageRun` | publishing suites as an image and running them from it |
| `Pointers`, `Validation` | JSON pointers and schema problems |

## Assumptions

They are predicates in the lemmas that use them.

- `FailuresHaveNoEffect`: a rejected API call leaves the cluster unchanged. Exact
  conservation asks for it. The general results do without: where rejected calls can take
  effect, an object may also be missing after a failed delete (`Standing.Released`) or be
  left behind by a rejected apply that took effect (`CacheAgreement.Disturbed`). An Ensure
  can then succeed and leak its object (`Attempts.LandedFailureLeaks`), and
  `Attempts.EnsureLeaksIff` says exactly when it does.
- `FairOrder`: walking a map visits every key once, in any order. `LiveRun` adds that it is
  no dry run. They are needed for nothing to be left behind, not for nothing to be lost.
- `Unambiguous`: the namespaces, kinds and names a case itself ensures or deletes have no
  `/`, and no two of those objects share namespace, kind and name across API groups.
  Without the second half an object stays behind although every call succeeds, the sweep
  included (`Attempts.GroupCollisionLeaks`); but nothing that stood before is ever lost or
  cached for it (`Standing.StandingObjectsNeverCached`). It is asked of each case on its
  own, since each case has its own cache, and where the templates a case uses name their
  objects after the declared names it follows from slash-free names and kinds
  (`Conservation.NamedTemplatesUnambiguous`).
- Rendering, patching and condition evaluation are deterministic functions that may
  fail, and NotFound is only ever answered truthfully.

## Where code and comments differ

The model follows the code.

- The wait for a deletion does not always block until the object is gone: with no
  conditions, a manifest of the object that is still there ends it
  (`Waiting.DeletionWaitCanEndEarly`); `Waiting.DeletionWaitEndsGoneIff` says exactly when
  it ends on the disappearance.
- The comment at pkg/engine/engine.go:193 says the pool error carries context
  cancellation. Workers return nil whatever happens, so the pool error is always nil
  (`ParallelRun.SuitesNeverAbortEachOther`); a cancellation reaches the run error only
  through the suites' own errors.
- A cancelled caller is not reported by the any and all log policies, which report the
  missing string (`LogPolicies.PresenceMasksCancellation`).
- Publishing takes a suite whose `cases` is a regular file, and drops that file; it also
  drops a directory named like a template, which makes a local run fail to load. These are
  the only ways in which a published suite is seen differently (`ImageRun.SameViewIff`,
  `ImageRun.CasesFileChangesSuite`). A directory without `cases` is not published at all,
  so its templates failing to load is an error of the local run only
  (`ImageRun.BrokenEmptySuiteFailsLocally`), and the only such difference
  (`ImageRun.ImageRunsLikeLocal`).
- Two references to a cluster-wide object that carry different namespaces get different
  cache keys (`Objects.KeyAgreement`).
- A patch list that clears or raises `metadata.resourceVersion` can overwrite another
  writer's update (`OptimisticPatch.NoLostUpdatesIff`).

## Model

| member | source | states |
|---|---|---|
| Errors.Join | internal/engine/suite/run.go:208-224 | joining errors is nil exactly when every part is nil, and a kind is in the result exactly when it is in a part |
| Errors.JoinAppend | internal/engine/test/run.go:83 | joining in stages loses and adds no kind |
| Objects.KeyInjective | internal/kube/service.go:377-380 | slash-free references share a cache key exactly when namespace, kind and name agree |
| Objects.KeyAgreement | internal/kube/service.go:457-461 | two references to one server object, explicit or defaulted namespace, share their key exactly when the kind is namespaced or they carry the same namespace |
| Objects.PreparationIdempotent | internal/kube/service.go:503-519 | defaulting and annotating a retried object again changes neither it nor its key nor its identity |
| Objects.GroupsShareAKey | internal/kube/service.go:377-380 | objects differing only in API group collide in the cache although the server tells them apart |
| SafeStore.Store.Put | internal/tools/safe/store.go:25-30 | the store afterwards is the old one with that entry |
| SafeStore.Store.Delete | internal/tools/safe/store.go:43-48 | the entry is gone, all others stay, no-op when absent |
| SafeStore.Store.Snapshot | internal/tools/safe/store.go:52-60 | iteration ranges over the contents at the time of the call |
| Lifecycle.Attempts | internal/kube/service.go:162-171 | never fewer than one attempt, otherwise as configured |
| Lifecycle.RetryContract | internal/kube/service.go:162-171 | at any nesting: at least one call, at most the product of the step counts, every call before the last failed, and the last call's result is the result |
| Lifecycle.WriteCallsBounded | internal/kube/service.go:238-290 | an Ensure or Delete body runs between once and attempts x 4 x 4 times and the last call decides |
| Lifecycle.RetryTriple | internal/kube/service.go:454-486 | what failing attempts keep and succeeding attempts reach, the retried operation keeps and reaches |
| RetryLaws.FailedWriteTries | internal/kube/service.go:238-290 | a failing Ensure or Delete has used up its attempts; four calls an attempt if every call answers with one transient kind, one if none does, and a single call if the only attempt's first call fails otherwise |
| RetryLaws.FailedPatchTries | internal/kube/service.go:347-370 | the same for Patch with conflicts |
| RetryLaws.FailedReadTries | internal/kube/service.go:696-727 | a failing assert or exec has made exactly its attempts, each failing |
| AttemptsSpent.FailureSpendsAttempts | internal/kube/service.go:160-171 | an operation that fails made at least as many calls to the server as its attempts |
| AttemptsSpent.RefusedOperations | internal/kube/service.go:238-290 | against a server that refuses everything: the error of each operation and exactly how many calls it makes for its attempts |
| Lifecycle.CheckConditions | internal/kube/service.go:715-726 | an assert passes exactly when every condition does |
| Actions.UserAttempts | internal/engine/action/action.go:115-121 | one attempt unless at least two are configured |
| KubeService.ApiServer.Apply | internal/kube/service.go:266-282 | an accepted apply stores the object, a rejected one only if it landed, and both are logged |
| KubeService.Service.Resolve | internal/kube/service.go:503-519 | the missing-kind, lookup and mapping errors, or the object with its namespace defaulted when namespaced and empty |
| KubeService.Service.EnsureOnce | internal/kube/service.go:244-287 | probe, apply and file in the cache only what was absent, caching on and applied; each failure stops there |
| KubeService.Service.DeleteOnce | internal/kube/service.go:457-480 | evicts before deleting and treats NotFound as success |
| KubeService.Service.Retry | internal/kube/service.go:238-290 | the nested retry loops equal the recursive retry, shared mutable object included |
| KubeService.Service.Ensure | internal/kube/service.go:223-291 | a whole Ensure, dry run included |
| KubeService.Service.Delete | internal/kube/service.go:439-500 | a whole Delete with its optional wait |
| KubeService.Service.WaitFor | internal/kube/service.go:572-661 | resolution, then the event loop |
| KubeService.Service.Patch | internal/kube/service.go:325-370 | resolution once, then re-read and update under two retries |
| KubeService.Service.Check | internal/kube/service.go:681-728 | resolution, read and conditions under the user retry |
| KubeService.Service.LogsCheck | internal/kube/service.go:986-1010 | the policy decides between presence and absence polling; nothing on dry run |
| KubeService.Service.Cleanup | internal/kube/service.go:1311-1330 | sweeps a snapshot while the deletes change the store, and joins the failures |
| Effects.ResolveMeans | internal/kube/service.go:503-519 | the three errors of kind resolution in order, and otherwise an object that differs at most in a defaulted namespace |
| Effects.EnsureMeans | internal/kube/service.go:223-291 | a nil Ensure leaves exactly the object with its namespace defaulted and annotations merged, and every other object as it was; when it is cached |
| Effects.EnsureSucceeds | internal/kube/service.go:238-290 | it is nil when every call is accepted |
| Effects.DeleteMeans | internal/kube/service.go:454-486 | a nil Delete removes its object and cache entry and nothing else; a failed one at most these |
| Effects.DeleteSucceeds | internal/kube/service.go:463-480 | it is nil when every call is accepted, also for an object that is not there |
| Effects.PatchMeans | internal/kube/service.go:347-370 | a nil Patch ended in an update of what the list makes of the object that was read, and changed no other object; a failed one changes nothing |
| Effects.PatchNilIff | internal/kube/service.go:347-370 | with every call accepted it is nil exactly when the object is there, the list succeeds and the result is there to update |
| Effects.CheckMeans | internal/kube/service.go:696-727 | a nil assert means the object is there and meets every condition; it changes nothing |
| Effects.CheckAnswers | internal/kube/service.go:706-726 | with every call accepted: NotFound, nil, or the error of the first condition that does not pass |
| Effects.ExecMeans | internal/kube/service.go:1226-1263 | the command is run until it succeeds or the attempts are used up, and the last run decides |
| PollingLaws.WaitAnswers | internal/kube/service.go:611-660 | the answer of a wait for every feed: the first event that has a say decides, with its own error, and otherwise the closing of the channel |
| PollingLaws.WaitForMeans | internal/kube/service.go:572-661 | a wait answers for its own object, conditions and mode, and changes nothing |
| PollingLaws.DeleteWaits | internal/kube/service.go:488-500 | Delete waits for the disappearance exactly when asked to and only after success, and returns that answer |
| PollingLaws.LogsAnswer | internal/kube/service.go:1014-1075 | the error of each log policy in terms of which pods show the text in which samples |
| PollingLaws.LogsCheckMeans | internal/kube/service.go:986-1010 | a live log check asks one window with its own policy and text |
| CacheAgreement.EnsureOnceKeepsAgreement | internal/kube/service.go:266-287 | one attempt, whatever is answered, keeps: cached keys were seen absent and then applied; what is present and not to be kept is cached, or had a failed delete, or an apply that was rejected but took effect |
| CacheAgreement.EnsureEvolves | internal/kube/service.go:223-291 | a whole Ensure keeps cache agreement for every failure pattern |
| CacheAgreement.DeleteCallAgreement | internal/kube/service.go:454-486 | a successful Delete removes object and cache entry and nothing else that was to be kept; a failed one loses nothing |
| CacheAgreement.DeleteEvolves | internal/kube/service.go:439-500 | a delete action, waiting or not, keeps cache agreement up to the object it removed |
| CacheAgreement.CalmOperations | internal/kube/service.go:325-728 | patch, wait, assert and exec change neither the cache nor which objects exist |
| Sweeping.ResolvableDeleteEvicts | internal/kube/service.go:457-461 | once the kind resolves, the key is evicted even if every delete call fails |
| Sweeping.DeleteCallLogsOnce | internal/kube/service.go:1323-1327 | one Delete, however often retried, is one attempt of its object |
| Sweeping.SweepIsChain | internal/kube/service.go:1319-1329 | the sweep is one Delete after the other and returns every error kind they return, and no other |
| Sweeping.CleanupAttemptsEach | internal/kube/service.go:1319-1329 | every cached object is attempted exactly once in any map order and whatever the server does, and the result is nil exactly when all succeeded |
| Sweeping.CleanupEmptiesCache | internal/kube/service.go:1309-1330 | a well-filed cache ends empty when all deletes succeed or kind resolution does not fail, whatever the server does |
| Filing.CaseStaysFiled | internal/kube/service.go:266-287 | after every action of a case every cached object is settled and filed under its own key, whatever the server does |
| Filing.CaseEndsWithEmptyCache | internal/engine/suite/run.go:164-193 | a case ends with an empty cache when it has no error or kind resolution does not fail, even if deletes fail or fail after landing |
| Sweeping.CleanupLeaves | internal/kube/service.go:1311-1330 | anything still there after the sweep is to be kept, or had a failed delete, or an apply that was rejected but took effect |
| Attempts.EnsureSendsOneObject | internal/kube/service.go:238-290 | every attempt of an Ensure sends the same settled and annotated object to the same identity |
| Attempts.EnsureLeaksIff | internal/kube/service.go:238-290 | a whole Ensure of an absent object, retries and annotations included, leaves it present and unfiled exactly when the first apply that took effect was rejected |
| Attempts.LandedFailureLeaks | internal/kube/service.go:238-287 | an Ensure that succeeds on retry can leave its object uncached |
| Attempts.GroupCollisionLeaks | internal/kube/service.go:377-380 | after two successful Ensures in different API groups and a successful cleanup the first object is still in the cluster |
| Waiting.WaitNilIff | internal/kube/service.go:611-660 | nil exactly when the first deciding event satisfies the query, or nothing decides and the channel closes on a live context |
| Waiting.IrrelevantEventsIgnored | internal/kube/service.go:611-632 | events of other objects and sync events never change the result |
| Waiting.WaitTimeoutInterrupts | internal/kube/service.go:606 | a wait that times out returns an error of the class that stops the suite |
| Waiting.DeletionWaitEndsGoneIff | internal/kube/service.go:622-635 | for every feed, a deletion wait ends on the disappearance exactly when the object disappears with no error event and no manifest before |
| Waiting.DeletionWaitCanEndEarly | internal/kube/service.go:633-635 | a manifest of a still-present object, or a channel closed on a live context, ends a deletion wait successfully |
| Waiting.Evaluate | internal/kube/service.go:637-655 | the first condition that does not pass decides |
| Waiting.PollEvents | internal/kube/service.go:611-660 | the event loop equals the recursive wait |
| LogPolicies.NoneFailsWhereAnyHolds | internal/kube/service.go:1046-1075 | none is violated at the tick where any is satisfied, and their verdicts are opposite under a live caller |
| LogPolicies.AllImpliesAnyNoLater | internal/kube/service.go:1014-1043 | all never succeeds before any |
| LogPolicies.UnreadablePodBlocksAll | internal/kube/service.go:1077-1098 | no tick with an unreadable resolved pod satisfies all |
| LogPolicies.NonePassesIff | internal/kube/service.go:1046-1075 | absence is reported exactly when no sample matched, the caller lived and the window ran out |
| LogPolicies.PresenceMasksCancellation | internal/kube/service.go:1014-1043 | any and all never return an interruption |
| LogPolicies.CountLogMatches | internal/kube/service.go:1077-1098 | matched and resolved counts of one sample |
| LogPolicies.PollLogs | internal/kube/service.go:1014-1075 | polling stops at the first tick where the policy's condition holds |
| OptimisticPatch.LiveObject.PatchOnce | internal/kube/service.go:351-368 | one get, patch, update with other writers between the calls |
| OptimisticPatch.LiveObject.PatchLive | internal/kube/service.go:347-370 | the conflict retry inside the user retry |
| OptimisticPatch.SameVersionSameState | internal/kube/service.go:347-370 | an unchanged version means an unchanged object, whatever the others wrote |
| OptimisticPatch.NoLostUpdatesIff | internal/kube/service.go:347-370 | in every interleaving each write replaces exactly the state it was computed from, if and only if the patch list neither clears nor raises the resource version |
| OptimisticPatch.ForgedVersionLosesUpdate | internal/kube/service.go:360-367 | a patch list that does so overwrites a rival's write |
| OptimisticPatch.PatchWritesOnceIffNil | internal/kube/service.go:347-370 | nil means exactly one acknowledged write and an error means none; no other write if refused calls have no effect |
| OptimisticPatch.FailingPatchWritesNothing | internal/kube/service.go:360-363 | whatever fails, every write is what the patch list made of the state that attempt read, so a state on which it fails leads to no write |
| OptimisticPatch.FailingAttemptEnds | internal/kube/service.go:360-363 | an attempt whose list fails on what it read ends there without an update |
| Reports.CountsAddUp | internal/engine/step/report.go:37-55 | passed plus failed counts every report whose state is one of them |
| Reports.CountActions | internal/engine/step/report.go:37-55 | passed and failed are the numbers of reports in these states |
| Reports.CountOutcomes | internal/engine/suite/report.go:79-95 | passed is the number of passed and skipped reports, failed of failed ones |
| Reports.ObjectStats | internal/engine/step/report.go:58-79 | ensured, patched and deleted are the numbers of passed reports of an ensure, a patch and a delete |
| Reports.TallyCounts | internal/engine/step/report.go:58-79 | the tally of any list of reports counts these three kinds by position |
| ReportCounts.StatsCountTree | internal/engine/suite/report.go:98-117 | summed stats are the numbers of passed ensure, patch and delete positions in the tree of cases, main steps, before-hooks and after-hooks |
| Reports.StepStats | internal/engine/suite/report.go:98-106 | the sum over step reports |
| Reports.SumStats | internal/engine/test/run.go:119-127 | the sum over case reports |
| Reports.CaseConservesStats | internal/engine/suite/report.go:109-117 | a case's stats are the tally of all actions of its steps and hooks |
| Reports.SuiteConservesStats | internal/engine/stats.go:12-18 | a suite's stats are the tally of the whole flattened tree, failed optional steps included |
| CaseTrace.RunOneMore | internal/engine/step/run.go:105-140 | appending one action runs it exactly when all before it passed |
| TraceLaws.PrefixDetermined | internal/engine/suite/run.go:230-245 | steps run as a prefix up to the first error, each from where the last one ended, and this determines the run |
| TraceLaws.ChainDetermined | internal/engine/suite/run.go:177-192 | before-hooks, main step iff they passed, after-hooks always; rounds stop at the first joined error; this determines the rounds |
| TraceLaws.CaseRunIff | internal/engine/suite/run.go:152-193 | the declarative trace, with one cleanup whenever the case has steps, holds of the case run and of nothing else |
| TraceLaws.StepReportSound | internal/engine/step/run.go:47-93 | a step's counts add up, its stats tally, it is failed exactly when it returns an error |
| TraceLaws.CaseReportSound | internal/engine/suite/report.go:138-155 | a case is failed exactly when it has an error, its counts add up to its listed steps and all steps are listed unless a round failed |
| TraceLaws.CaseFailsIffReported | internal/engine/suite/run.go:196-227 | the rounds have an error exactly when some step or hook report is failed |
| StepLaws.ActionsInOrder | internal/engine/step/run.go:46-141 | the actions run in the order ensure, patch, wait, assert, logs, exec, delete: only configured ones, none left out before another, the last the only one that can fail, all of them if none does |
| StepLaws.StepsFollowRule | internal/engine/step/run.go:53-93 | the step's counts, stats, state, reason and error from its action reports, with the optional rule |
| ReportLaws.CaseReportReads | internal/engine/suite/run.go:177-192 | a case report's columns, reason and hook reports, and one entry per round, skipped with the hooks' error where a before-hook failed |
| ReportLaws.HookReportsAppend | internal/engine/suite/report.go:61-76 | the hook reports of a case are those of its rounds in order |
| ReportLaws.FilesNotRun | internal/engine/suite/run.go:71-87 | a file that does not parse fails and one whose tags are not asked for is skipped, and nothing else is; neither touches the cluster |
| ReportLaws.FilesConnectFirst | internal/engine/suite/run.go:104-106 | a live case that cannot connect ends with that error |
| ReportLaws.SuiteErrKinds | internal/engine/test/run.go:76-96 | a suite's error is that of the case that cut it short, alone, or everything its cases failed with |
| ReportLaws.SuiteReportReads | internal/engine/test/report.go:36-54 | a suite report's columns, its stats as positions in its tree, its reason, and the error of a suite that does not load |
| Actions.Prepare | internal/engine/step/run.go:154-278 | only logs and exec may go without an object; an undeclared or unrenderable object is an error |
| Actions.ExecuteAction | internal/engine/action/run.go:34-197 | which operation each action performs, with which arguments |
| Actions.RunAction | internal/engine/step/run.go:170-278 | render, delay, target check, execution, and a report that is failed exactly on error |
| ActionEffects.EnsureAction | internal/engine/action/run.go:34-55 | from the case file to the cluster: the declared template, name and values, the delay, the annotations, caching and attempts of an ensure action |
| ActionEffects.DeleteAction | internal/engine/action/run.go:57-78 | the same for delete, with its wait |
| ActionEffects.PatchAction | internal/engine/action/run.go:103-128 | the same for patch, with nothing to do for an empty list |
| ActionEffects.WaitAction | internal/engine/action/run.go:80-101 | the same for wait, with its conditions |
| ActionEffects.AssertAction | internal/engine/action/run.go:130-150 | the same for assert |
| ActionEffects.LogsAction | internal/engine/action/run.go:152-174 | the same for logs, with its policy and text and the rule for a target without an object |
| ActionEffects.ExecAction | internal/engine/action/run.go:176-197 | the same for exec, with its attempts |
| ObjectTracing.CaseAppliesMarked | internal/engine/step/run.go:64-69 | at every point of a case each object applied carries the name of the case, of one of its steps, and the suite's annotations |
| CaseRunner.CountConfigured | internal/engine/step/step.go:32-64 | the number of configured actions |
| CaseRunner.RunStepActions | internal/engine/step/run.go:96-141 | the seven guarded blocks run the configured actions in the fixed order up to the first failure |
| CaseRunner.RunOneStep | internal/engine/step/run.go:47-93 | the optional rule and the step report |
| CaseRunner.RunHooks | internal/engine/suite/run.go:230-245 | the hook loop equals the prefix run |
| CaseRunner.RunStepWithHooks | internal/engine/suite/run.go:196-227 | one round, with the skipped report when a before-hook failed |
| CaseRunner.AppendHooks | internal/engine/suite/report.go:61-76 | hook reports accumulate in order and stay absent while there are none |
| CaseRunner.RunCaseSteps | internal/engine/suite/run.go:152-193 | the case loop with its deferred cleanup equals the case trace |
| CaseRunner.FinishCaseReport | internal/engine/suite/report.go:138-155 | stats, state and reason of the finished case |
| SuiteRun.AnyTagMatches | internal/engine/suite/run.go:248-256 | true exactly when some tag is requested |
| SuiteRun.EnterCase | internal/engine/suite/run.go:89-138 | a fresh service with an empty cache, then the run namespace with caching off |
| SuiteRun.RunCaseFile | internal/engine/suite/run.go:63-147 | parse failure, tag skip, entry failure or the case run, each with its report |
| SuiteRun.ListCaseFiles | internal/engine/test/test.go:56-67 | the regular .yaml entries in listing order |
| SuiteRun.RunCaseFiles | internal/engine/test/run.go:54-96 | the case loop equals the run of files up to the first interruption |
| SuiteRun.FinishSuiteReport | internal/engine/test/report.go:36-54 | totals, stats, state and reason of the finished suite |
| SuiteRun.RunTest | internal/engine/test/run.go:42-97 | a whole suite, loading errors included |
| SuiteLaws.FileReportSound | internal/engine/suite/run.go:63-147 | a case file is reported failed exactly when running it returns an error |
| SuiteLaws.FilesRunAsPrefix | internal/engine/test/run.go:56-96 | the cases run are a prefix of the files, cut short only after a cancellation or deadline |
| SuiteLaws.SuiteReportSound | internal/engine/test/report.go:36-54 | a suite is failed exactly when it could not be loaded or a case in it is failed; counts add up; its stats tally the flattened tree |
| SuiteLaws.StepErrorReachesCase | internal/engine/suite/run.go:187-227 | every error kind of a main step, a before-hook or an after-hook reaches the case error and ends the case |
| SuiteLaws.RoundErrIs | internal/engine/suite/run.go:204-226 | the error of a round holds exactly the kinds its hooks and its main step ended with |
| SuiteLaws.InterruptionEndsSuite | internal/engine/test/run.go:76-79 | an interrupted case is the last one and its error is the suite's error |
| TracePreservation.CaseKeeps | internal/engine/suite/run.go:177-227 | what every action keeps holds after every action of every hook and step of a case, and where the cleanup starts |
| Standing.StandingObjectsNeverCached | internal/kube/service.go:270-285 | after every action of a case and after its cleanup, an object that stood before it is there and not cached unless a delete released it, whatever the case ensures and under whatever keys |
| Standing.CaseStandsSafe | internal/engine/suite/run.go:152-193 | the same of all standing objects at once |
| NamespaceSafety.RunNamespaceNeverCached | internal/engine/suite/run.go:121-193 | on every run of a case file the run namespace is never in the applied cache and always in the cluster unless a delete action released it, even if steps ensure that Namespace or an object with its cache key |
| Conservation.CaseCacheAgrees | internal/kube/service.go:266-287 | cache agreement after every action of a case: each cached object was seen absent and then applied by this case, and each object present stood before, or is cached, or is excused |
| Conservation.NamespaceEnsured | internal/engine/suite/run.go:133-137 | ensuring the run namespace adds nothing else, adds it when it succeeds, and never caches it |
| Conservation.NamespaceIdIs | internal/engine/suite/run.go:123-131 | the run namespace is the cluster-wide Namespace object with the configured name |
| Conservation.NamedTemplatesUnambiguous | internal/engine/step/run.go:154-167 | a case whose own renderings are named after the declared names is unambiguous when names, kinds and the run namespace have no slash |
| Conservation.CaseConserves | internal/engine/suite/run.go:149-193 | a case with its cleanup leaves what it found minus what delete actions removed, plus only objects with a failed delete or a rejected apply that took effect |
| Conservation.SuiteLosesNothing | internal/engine/test/run.go:56-96 | with nothing assumed, everything that stood before a suite, and the run namespace, is there afterwards unless a delete released it |
| Conservation.SuiteConserves | internal/engine/test/run.go:56-96 | conservation over a whole suite, plus the run namespace, for every failure pattern |
| Conservation.SuiteConservesExactly | internal/engine/test/run.go:42-97 | with no failed delete, and rejected calls without effect, the cluster is exactly the initial one plus the run namespace minus the deleted objects |
| RunConservation.RunLosesNothing | pkg/engine/engine.go:105-198 | with nothing assumed, a run of any list of suites loses nothing that no delete released |
| RunConservation.RunConserves | pkg/engine/engine.go:105-198 | a run of any list of suites, one after the other, conserves the cluster as each suite does |
| RunConservation.RunConservesExactly | pkg/engine/engine.go:105-198 | with no failed delete, and rejected calls without effect, the cluster after the whole run is exactly the initial one plus the run namespace minus the deleted objects |
| DryRun.DryRunFailsIffFlawed | internal/engine/step/run.go:78-141 | a dry run fails exactly on flaws visible in the files: loading, parsing, missing or unrenderable objects, unusable targets, in non-optional steps |
| DryRun.FlawedActionIs | internal/engine/step/run.go:154-278 | an action is flawed exactly when preparing it fails or its target is unusable |
| DryRun.FlawedSuiteFails | internal/engine/suite/run.go:177-227 | such a flaw makes every run fail, whatever the cluster does |
| DryRun.DryFailureIsReal | internal/kube/service.go:228-231 | if the dry run fails, so does every real run |
| DryRun.DryRunTouchesNothing | internal/kube/service.go:1314-1317 | a dry run makes no API call and changes no object |
| WorkerPool.PoolInvariant | internal/tools/workerpool/pool.go:16-31 | never more workers than the limit, and every started object is running or returned, once |
| WorkerPool.EachOnce | internal/tools/workerpool/pool.go:24-30 | when Wait returns every object was processed exactly once |
| WorkerPool.NeverStuck | internal/tools/workerpool/pool.go:21-30 | with a positive limit the pool can always move until it is complete |
| WorkerPool.TwoStepsEach | internal/tools/workerpool/pool.go:24-30 | every interleaving is complete after exactly two steps per object |
| WorkerPool.WaitReturnsFirst | internal/tools/workerpool/pool.go:30 | Wait returns the first error in order of returning, and the context is cancelled exactly when some worker failed |
| WorkerPool.OneAtATime | pkg/engine/engine.go:39-41 | with a limit of one the suites run one after the other in order |
| ParallelRun.RefinesPool | pkg/engine/engine.go:140-176 | the workers' moves project to a pool schedule in which every worker returns nil |
| ParallelRun.SuitesNeverAbortEachOther | pkg/engine/engine.go:137-176 | the pool error is nil and the shared context live in every interleaving |
| ParallelRun.RecordsKept | pkg/engine/engine.go:132-167 | mutual exclusion, and both maps hold exactly what each directory's own worker stored |
| ParallelRun.NeverDeadlocks | pkg/engine/engine.go:140-176 | from every reachable state pool and mutex allow another move until all suites have ended |
| ParallelRun.SixMovesEach | pkg/engine/engine.go:140-176 | every interleaving is complete after exactly six moves per suite and none is longer |
| ParallelRun.AnyScheduleLikeSequential | pkg/engine/engine.go:130-176 | every complete interleaving under any limit leaves the maps and pool error of the sequential run |
| Engine.Discover | pkg/engine/engine.go:114-128 | the directories to run, in listing order |
| Engine.DiscoveredExactly | pkg/engine/engine.go:116-128 | a directory is run exactly when it is a visible directory, under distinct keys |
| Engine.Collect | pkg/engine/engine.go:178-197 | reports and errors in discovery order, counted and joined |
| Engine.RunDependsOnResults | pkg/engine/engine.go:178-195 | report and error of a complete run are those of the suites' own results in discovery order |
| Engine.SchedulesAgree | pkg/engine/engine.go:130-195 | two complete interleavings with the same results give the same report and error |
| Engine.SuiteResultSound | internal/engine/test/report.go:36-54 | every suite result is failed exactly when it carries an error |
| Engine.RunReportSound | pkg/engine/report.go:33-49 | one report per directory, passed plus failed is their number, and the run error is nil exactly when no suite is failed |
| Engine.SuitesRunSound | pkg/engine/engine.go:157-195 | so it is for every complete run, under any limit, whose results are what suites return |
| SequentialRun.WorkDirRunReported | pkg/engine/engine.go:105-198 | from the directory listing to report and error: a sequential run is a complete schedule with a limit of one, its report lists the suites' reports in discovery order and its error is nil exactly when no suite is failed |
| Paths.ExtFromLastDot | internal/image/build.go:242-249 | the extension runs from the last dot and is empty when a separator follows it |
| FilterLaws.CaseFileIff | internal/engine/test/test.go:61-64 | a case file is one whose name ends in .yaml, lower case |
| FilterLaws.CaseFilesAppend | internal/engine/test/test.go:59-67 | filtering a listing goes entry by entry and keeps the order |
| FilterLaws.CaseFileAlone | internal/engine/test/test.go:62 | an entry counts if it is no directory and its name ends in .yaml |
| FilterLaws.DiscoveredAlone | pkg/engine/engine.go:117-127 | a suite directory is a directory whose name does not begin with a dot |
| FilterLaws.TestDirAlone | internal/image/build.go:81-96 | a published one also holds something named cases |
| FilterLaws.EntryAlone | internal/template/manager.go:47-52 | templates are the entries whose name ends in .yaml, whatever they are |
| FileTree.Extract | internal/image/traverse.go:83-141 | the extraction loop, failing where a file stands for a directory or the reverse |
| FileTree.PutStands | internal/image/traverse.go:116-141 | an entry fails exactly where a file stands on its way or it and what stands there are not both files or both directories, and otherwise stands there with its content |
| FileTree.ExtractEmitted | internal/image/traverse.go:89-141 | extracting what a tree of any depth emits rebuilds the tree |
| TestImage.FirstPathPartOfParts | internal/image/build.go:233-239 | the first segment of a path of separator-free names is its first name |
| TestImage.IncludeAsWritten | internal/image/build.go:206-230 | the inclusion rule on the path as text, with its first segment, directory part and extension, is the rule on the names it is made of |
| TestImage.FindTestDirs | internal/image/build.go:79-97 | the visible directories with something named cases |
| TestImage.Publish | internal/image/build.go:37-48 | the layer is the walks of the test directories; publishing fails when there is none |
| TestImage.WalkEmitsPruned | internal/image/build.go:146-230 | the filtered walk spells out exactly the pruned tree |
| TestImage.ExtractPublished | internal/image/traverse.go:83-141 | the extracted image is the test directories pruned to their cases and templates |
| ImageRun.CasesSurvive | internal/image/build.go:206-230 | no case file is lost or added and the order stays |
| ImageRun.SameViewIff | internal/image/build.go:206-230 | a run sees a published suite as it was exactly when cases is a directory and no template is one |
| ImageRun.CasesFileChangesSuite | internal/image/build.go:221-223 | a suite whose cases is a file fails locally and has no cases in the image |
| ImageRun.BrokenEmptySuiteFailsLocally | internal/image/build.go:87-94 | a directory without cases whose template does not load fails the local run and not the image's |
| ImageRun.PublishRoundTrip | internal/image/build.go:73-104 | there is an image exactly when there is a test directory, and discovery in it gives exactly the suites with cases, files and order included, if and only if all are portable |
| ImageRun.ImageRunsLikeLocal | pkg/engine/engine.go:69-103 | running the image ends in the same cluster with the local reports of the suites that have cases; the local error is the image's plus the loading error of directories without cases |
| Pointers.Print | internal/validate/validate.go:260-273 | the printed pointer, "/" for the whole document |
| Pointers.PointerRoundTrip | internal/validate/validate.go:260-273 | reading the pointer by sections 3 and 4 of RFC 6901 gives every non-empty location back |
| Pointers.PointerInjective | internal/validate/report.go:3-5 | only the member with the empty name prints like the whole document |
| Pointers.OrderOfUnescapingMatters | internal/validate/validate.go:36 | undoing the escapes in the other order reads another location |
| Validation.FindReRoot | internal/validate/validate.go:241-249 | whether some cause has a shorter location |
| Validation.Collect | internal/validate/validate.go:218-234 | the accumulator followed by the pruned leaves, which are never none |
| Validation.ReportedIff | internal/validate/validate.go:218-234 | a problem is reported exactly for the nodes that end their branch, at their own location or, re-rooted, at their parent's |
| Validation.CheckFile | internal/validate/validate.go:92-112 | an error exactly for an unreadable file; a readable case is clean exactly when it decodes and the schema accepts it |
| Validation.CheckSuite | internal/validate/validate.go:116-139 | one report per case file in order, unless one cannot be read |
| Validation.CheckDir | internal/validate/validate.go:70-88 | reports exactly when there is a suite and every case file can be read |
| Validation.ChecksWhatRuns | internal/validate/validate.go:159-195 | the case files checked, in order and with their suites, are those a run executes, whether the directory holds suites or is one |
| Validation.Totals | internal/validate/report.go:51-65 | how many case files there are and how many are not clean |
| Validation.Valid | internal/validate/report.go:44-48 | true exactly when every case report is clean |
| Validation.ValidIffAccepted | internal/validate/validate.go:70-139 | every report is clean exactly when the schema accepts every case file |

## Left out

- Parallel suites at the level of single API calls: the pool results hold for arbitrary suite results, and whole-run conservation is about suites run one after the other.
- Client-go's treatment of context errors inside its retry helper; retries follow the contract written at internal/kube/service.go:162-171.
- Server-side-apply field merging and forced conflicts: an apply replaces the stored object.
- The conversion of typed objects to unstructured ones and its error, and nil objects and nil test cases, which parsed files do not produce.
- Aliasing of the rendered object between the engine and the service: the object is a value threaded through the retries.
- The REST mapper resolves by group and kind only; object versions do not matter to it here.
- Pod resolution for logs and exec, and the exec protocol: one oracle answer per attempt.
- Timestamps, durations, intervals and timeouts as numbers; report reasons are error kinds instead of text.
- The store of step values, which nothing writes, and the store's Get, which nothing calls.
- Controllers, finalizers and namespace cascade: the environment changes objects only in OptimisticPatch.
- OptimisticPatch.NoLostUpdatesIff: does not model a patch that changes the object's name or namespace, nor kinds for which the server refuses an update without a version.
- The copying of the local counts and tests into the remote report (pkg/engine/engine.go:95-100) and the report's namespace, dry-run and image fields.
- ImageRun.ImageRunsLikeLocal: does not model a remote run of a subdirectory of the image; the work directory is the image root.
- Symbolic links, names with the whiteout prefix, the tar byte format and the registry.
- TestImage.Publish: does not model I/O errors while reading directories, only the absence of test directories.
- Struct-tag validation of cases, YAML decoding, JSON Schema evaluation, templates, JQ and RFC 6902 operations: deterministic functions that may fail.
- Commands, flags, logging, console output, scaffolding and version reporting.
