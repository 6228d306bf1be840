# Lighthouse Jenkins X job controller, modelled in Dafny

This project models the per-job reconciliation loop of the Jenkins X engine of
Lighthouse (`pkg/engines/jx/controller.go`). The controller watches
LighthouseJobs and PipelineActivities. It correlates each job with at most one
activity through a shared index field. It starts a pipeline run for a
`Triggered` job that has no activity yet. For a job that has exactly one
activity, it mirrors the activity into the job: a build-number label, an
activity snapshot in the status, and a report URL.

Modules:

- `Resources`: the job and activity records, the fields the controller touches.
- `Correlation`: the two index functions registered in `SetupWithManager`, and what
  an indexed lookup returns.
- `Decimal`: `strconv.Itoa` on pull-request numbers, and a reader that recovers the number.
- `Trigger`: `getPullRefs`, the launch defaults (branch, pull-ref descriptor,
  service account, run kind), and the pipeline engine boundary (`create`, `apply`).
- `Report`: `createReportTargetURL` over a template given as a sequence of literal
  text and field references, rendered strictly against the parameter map;
  `strings.TrimRight(base, "/")`, the team choice and the http(s) acceptance rule.
- `Reconciler`: the specification of one pass, and the class
  `LighthouseJobReconciler`.
  - `ReconcileStep` says what a pass returns: the job store afterwards, the calls
    made on the store and the engine in order, and the error. `LookupStep`,
    `DispatchStep`, `TriggerStep` and `MirrorStep` are its phases.
  - The class holds the job store, the activities and the call trace as fields.
    Its `Reconcile` method performs the pass step by step and is proved equal to
    `ReconcileStep`.
  - `ActivityRequests` models the watch mapper that turns an activity event into
    job requests.
- `ReconcilerProperties`: what a pass promises, branch by branch, as lemmas about `ReconcileStep`.

Things the controller reads from outside become explicit inputs:

- Environment variables become a `Config` value.
- The clock becomes a `now` parameter.
- Helpers whose code is not part of this model are total functions in a `Ports` value:
  `util.ToValidName`, `GetBranch`, `GetEnvVars`, `PullRef.String` and
  `ConvertPipelineActivity`. The last one returns `None` for its error.
- The metapipeline client becomes an `Engine` value with a `create` function and an `apply` function.
- Whether each fallible store call fails, and whether the template library fails,
  is a `Faults` value given to each pass.

Points where the code's behaviour is easy to misread, and which the model follows:

- The base URL loses every trailing slash (`strings.TrimRight`), not just one.
- The `"jenkins-x"` default for an empty pipeline context is applied only to the
  template parameters. The activity snapshot stored in the status keeps the
  context exactly as converted. The default template never shows the context anyway.
- The pull-ref descriptor (`branch:` or the engine's rendering of the pull
  reference) is only logged before the run is created. It is not part of what the
  engine receives. The model records it in the `AnnounceStart` call.
- The report team defaults to the controller's own namespace, not the job's.

## Model

| member | source | states |
|---|---|---|
| Decimal.Digits | pkg/engines/jx/controller.go:278 | the decimal digits of a natural number are non-empty, all digits, without a leading zero, and a single digit exactly below 10 |
| Decimal.Itoa | pkg/engines/jx/controller.go:278 | the rendering of a pull-request number is non-empty and starts with '-' exactly for negative numbers |
| Decimal.DigitsRoundTrip | pkg/engines/jx/controller.go:278 | reading back the digits of n gives n |
| Decimal.ItoaRoundTrip | pkg/engines/jx/controller.go:278 | reading back the ID given to a pull request gives its number, negative numbers included |
| Decimal.ItoaInjective | pkg/engines/jx/controller.go:278 | distinct pull-request numbers never get the same ID |
| Correlation.ActivityIndexKeys | pkg/engines/jx/controller.go:67-70 | an activity is indexed under exactly one value, its normalised name |
| Correlation.JobIndexKeys | pkg/engines/jx/controller.go:73-79 | a job is indexed under its activity name, and under nothing exactly when that name is empty |
| Correlation.MatchingActivities | pkg/engines/jx/controller.go:143-147 | the lookup returns exactly the stored activities of the request's namespace whose index value is the job's activity name, and no more of them than are stored |
| Correlation.MatchingKeepsMultiplicity | pkg/engines/jx/controller.go:143-147 | the lookup returns each matching activity exactly as many times as the store holds it, and every other activity zero times |
| Correlation.DistinctActivitiesOccurOnce | pkg/engines/jx/controller.go:143-147 | a store in which no two activities share a namespace and name holds each activity at most once |
| Correlation.MatchesAreDistinct | pkg/engines/jx/controller.go:143-150 | in such a store the lookup returns each activity at most once, so the count the dispatch branches on is the number of distinct matching activities |
| Correlation.MatchingJobs | pkg/engines/jx/controller.go:98-99 | the lookup returns exactly the stored jobs of the activity's namespace indexed under the asked key |
| Correlation.CorrelationIsSymmetric | pkg/engines/jx/controller.go:67-79 | for a job with an activity name, the job's lookup finds an activity exactly when that activity's lookup finds the job |
| Correlation.UnassignedJobIsNotIndexed | pkg/engines/jx/controller.go:75-77 | a job without an activity name is never found from an activity event |
| Trigger.ToPullRequestRef | pkg/engines/jx/controller.go:278 | the engine entry for a pull carries an ID that reads back as the pull's number and the pull's revision as its merge revision |
| Trigger.PullRequestRefs | pkg/engines/jx/controller.go:276-279 | one engine pull-request entry per pull, in order, each the decimal number and the merge revision |
| Trigger.PullRefFor | pkg/engines/jx/controller.go:273-287 | the pull reference keeps the clone URL, base branch and base revision and lists one entry per pull, in order, whose ID reads back as the pull's number and whose merge revision is the pull's |
| Trigger.GetPullRefs | pkg/engines/jx/controller.go:273-287 | the loop builds a pull reference with the clone URL, base branch and base revision unchanged and exactly the job's pulls, in order |
| Trigger.PullRequestIdsRoundTrip | pkg/engines/jx/controller.go:276-281 | every ID handed to the engine reads back as its pull's number, and carries its pull's revision |
| Trigger.RunKind | pkg/engines/jx/controller.go:159-175 | the run is a pull-request run exactly when the job lists pulls, and a release run exactly when it lists none |
| Trigger.BranchOrDefault | pkg/engines/jx/controller.go:156-163 | the branch is never empty: the job's branch when it has one, and exactly "master" when the job's branch is empty |
| Trigger.PullRefsDescriptor | pkg/engines/jx/controller.go:157-169 | the descriptor is never empty: the rendered pull reference when there are pulls and it is non-empty, `<branch>:` without pulls, and `<branch>:` when there are pulls but the rendering is empty |
| Trigger.ServiceAccountOrDefault | pkg/engines/jx/controller.go:158-172 | the service account is never empty: the configured one when set, and exactly "tekton-bot" when it is not |
| Report.Render | pkg/engines/jx/controller.go:312-324 | strict execution succeeds exactly when every field the template references is in the data, as `missingkey=error` demands |
| Report.CreateReportTargetURL | pkg/engines/jx/controller.go:305-325 | any template yields "" when conversion or execution fails and "" when it references a field missing from the parameter map; otherwise it yields the template's strict rendering over that map |
| Report.ParamDataFields | pkg/engines/jx/controller.go:300-306 | the template data holds every report parameter under its Go field name (`toObjectMap` goes through JSON field names, and the struct has no tags) |
| Report.DefaultTemplateRenders | pkg/engines/jx/controller.go:32 | the default template, rendered from the parameters, is base + "/teams/" + team/projects/owner/repository/branch/build |
| Report.UnknownFieldRendersNothing | pkg/engines/jx/controller.go:312-323 | a template that references a field the parameters do not have yields "" whatever the parameters |
| Report.TrimRightSlashes | pkg/engines/jx/controller.go:253 | the trimmed base is a prefix of the base, does not end in '/', and only slashes were removed |
| Report.HasHTTPScheme | pkg/engines/jx/controller.go:257 | the check holds exactly when the URL starts with "http://" or with "https://" |
| Report.ReportTeam | pkg/engines/jx/controller.go:234-239 | the team is the override when set, otherwise the controller's namespace |
| Report.ReportParamsFor | pkg/engines/jx/controller.go:241-255 | the base is the configured base with trailing slashes trimmed, the team is the chosen team, owner, repository, branch and build are the activity's, and the context is the activity's own when it has one and exactly "jenkins-x" when it is empty |
| Report.NextReportURL | pkg/engines/jx/controller.go:232-259 | the job's report URL after mirroring is either the previous one or an http(s) URL, and stays the previous one when no base is configured |
| Report.SchemeThroughSeparator | pkg/engines/jx/controller.go:253-257 | the scheme check on the rendered URL holds exactly when it holds on the trimmed base |
| Report.ReportURLAccepted | pkg/engines/jx/controller.go:232-259 | the URL is replaced exactly when a base is set, rendering succeeds and the trimmed base starts with http:// or https://, and is then the documented path under that base |
| Report.ContextDoesNotReachURL | pkg/engines/jx/controller.go:241-251 | the pipeline context has no effect on the rendered default URL |
| Report.FailedRenderKeepsPrevious | pkg/engines/jx/controller.go:305-325 | a failed render never replaces the previous report URL |
| Report.ExampleReportURL | pkg/engines/jx/controller.go:232-259 | base https://example.com or https://example.com/, team some-team, build 3 of acme/widgets on main renders https://example.com/teams/some-team/projects/acme/widgets/main/3 |
| Report.ExampleBaseTrimmed | pkg/engines/jx/controller.go:253-257 | https://example.com/ and https://example.com both trim to https://example.com, which passes the scheme check |
| Reconciler.ServedAgent | pkg/engines/jx/controller.go:137-140 | a job is served exactly when its agent is the Jenkins X agent or the legacy default agent |
| Reconciler.PlanLaunch | pkg/engines/jx/controller.go:152-199 | the logged owner, name, clone URL and job are the job's, branch, descriptor and service account are never empty, the run is a pull-request run exactly when there are pulls, one engine entry per pull, and the context and environment are the job's |
| Reconciler.ReconcileStep | pkg/engines/jx/controller.go:122-271 | a pass starts by loading the job, never adds or removes a job, returns the load error exactly when the load fails, and returns the list error exactly when a served job's lookup fails |
| Reconciler.LookupStep | pkg/engines/jx/controller.go:142-268 | the lookup is the first call, keyed by the request's namespace and the job's activity name; the list error is returned exactly when the list fails |
| Reconciler.DispatchStep | pkg/engines/jx/controller.go:149-268 | the dispatch makes no call exactly when there are several activities, or none and the job is not Triggered; it keeps the set of jobs |
| Reconciler.TriggerStep | pkg/engines/jx/controller.go:151-217 | starting a run announces it, then asks the engine to create the planned run; it returns only a create, status-write or apply error, and on success the job is Pending and the last call is the apply |
| Reconciler.MirrorStep | pkg/engines/jx/controller.go:219-265 | mirroring first writes the job with its build-number label set to the activity's build; it keeps the job's state and activity name, returns only an update, conversion or status-write error, and on success stores the converted activity |
| Reconciler.PendingStatus | pkg/engines/jx/controller.go:205-209 | the status written after a create is Pending, carries the normalised activity name and the current time, and drops the report URL and the activity snapshot |
| Reconciler.AssignBuildLabelAsWritten | pkg/engines/jx/controller.go:223 | the label assignment as written panics exactly when the job has no label map, and otherwise sets the build number |
| Reconciler.SetBuildLabel | pkg/engines/jx/controller.go:223 | the corrected assignment sets the build-number label and keeps every other label, creating the map when there is none |
| Reconciler.SetBuildLabelAgreesWhenLabelled | pkg/engines/jx/controller.go:223 | for a job that has a label map the corrected assignment is exactly the one as written |
| Reconciler.LighthouseJobReconciler.constructor | pkg/engines/jx/controller.go:48-63 | a new reconciler holds the given environment and store and has made no calls |
| Reconciler.LighthouseJobReconciler.Reconcile | pkg/engines/jx/controller.go:122-271 | one pass leaves exactly the store, appends exactly the calls and returns exactly the error of `ReconcileStep`, and keeps the store keyed by job identity |
| Reconciler.LighthouseJobReconciler.LookUp | pkg/engines/jx/controller.go:142-268 | the lookup and dispatch of a loaded job agree with `LookupStep` |
| Reconciler.LighthouseJobReconciler.Dispatch | pkg/engines/jx/controller.go:149-268 | the three-way choice on the number of activities agrees with `DispatchStep` |
| Reconciler.LighthouseJobReconciler.PrepareLaunch | pkg/engines/jx/controller.go:152-199 | the logged fields and the creation parameters are those of `PlanLaunch` |
| Reconciler.LighthouseJobReconciler.StartPipeline | pkg/engines/jx/controller.go:151-218 | starting a run agrees with `TriggerStep` |
| Reconciler.LighthouseJobReconciler.ReportURL | pkg/engines/jx/controller.go:232-259 | the report URL computed step by step is `NextReportURL` |
| Reconciler.LighthouseJobReconciler.MirrorActivity | pkg/engines/jx/controller.go:219-265 | mirroring one activity agrees with `MirrorStep` |
| Reconciler.LighthouseJobReconciler.ActivityRequests | pkg/engines/jx/controller.go:97-111 | an activity event yields one request per job indexed under the activity's normalised name in its namespace, each once, and none when the lookup fails |
| ReconcilerProperties.LoadFailureIsReturned | pkg/engines/jx/controller.go:127-135 | a load failure other than not-found is returned after the load alone, with nothing written |
| ReconcilerProperties.MissingJobIsIgnored | pkg/engines/jx/controller.go:129-135 | a job that no longer exists ends the pass without error after the load alone |
| ReconcilerProperties.UnservedAgentIsIgnored | pkg/engines/jx/controller.go:137-140 | a job for another agent gets no lookup, no write, no engine call and no error |
| ReconcilerProperties.LookupFailureIsReturned | pkg/engines/jx/controller.go:142-147 | a failed activity lookup is returned with nothing written and no engine call |
| ReconcilerProperties.UntriggeredJobIsLeftAlone | pkg/engines/jx/controller.go:149-151 | no activity and a state other than Triggered: only load and lookup, no error |
| ReconcilerProperties.AmbiguousActivitiesAreLeftAlone | pkg/engines/jx/controller.go:266-270 | more than one activity: only load and lookup, nothing written, no error |
| ReconcilerProperties.LaunchDefaults | pkg/engines/jx/controller.go:152-199 | the launch carries the default branch, the descriptor (`<branch>:` without pulls or with an empty rendering), the default service account, the run kind both ways, the job's pulls in order, its base branch, revision, context, and the configured image |
| ReconcilerProperties.CreateFailureWritesNothing | pkg/engines/jx/controller.go:201-204 | a failed create is returned after the announcement and the create, with no status write and no apply |
| ReconcilerProperties.StatusWriteFailurePreventsApply | pkg/engines/jx/controller.go:205-213 | after a create, the whole status is replaced by Pending with the normalised activity name and is written; a failed write is returned and nothing is applied |
| ReconcilerProperties.CreatedRunIsRecordedThenApplied | pkg/engines/jx/controller.go:201-217 | a created run is recorded as Pending before it is applied, and an apply failure is returned without undoing that record |
| ReconcilerProperties.CreateCalledOnlyAtTriggerPoint | pkg/engines/jx/controller.go:149-218 | a pass asks the engine to create a run exactly once when the served job is Triggered and has no activity, and never otherwise |
| ReconcilerProperties.DispatchCreateCount | pkg/engines/jx/controller.go:149-268 | the dispatch creates a run exactly when there is no activity and the job is Triggered |
| ReconcilerProperties.NoSecondRun | pkg/engines/jx/controller.go:149-213 | when the create succeeds and the Pending status is written, the job is Pending and no later sequence of passes creates another run for it |
| ReconcilerProperties.PassKeepsUntriggered | pkg/engines/jx/controller.go:122-271 | a pass for any job never moves a job that is not Triggered into Triggered |
| ReconcilerProperties.NoSecondRunEver | pkg/engines/jx/controller.go:149-218 | a job that is not Triggered gets no run created by any sequence of passes, for any jobs and with any activities, failures and clock readings |
| ReconcilerProperties.LabelUpdateFailureStopsMirroring | pkg/engines/jx/controller.go:221-227 | a failed label update is returned before any status write |
| ReconcilerProperties.ConversionFailureKeepsLabel | pkg/engines/jx/controller.go:223-231 | a failed conversion is returned with the build label already stored and no status write |
| ReconcilerProperties.ActivityIsMirrored | pkg/engines/jx/controller.go:219-265 | the label is written first, then the status with the converted activity and the next report URL, keeping state, activity name and start time; a failed status write keeps only the label |
| ReconcilerProperties.MirroredReportURL | pkg/engines/jx/controller.go:232-262 | the stored report URL is the rendered one exactly when reporting accepts it, otherwise the job's previous one |
| ReconcilerProperties.TriggerChangesOnlyRequestedJob | pkg/engines/jx/controller.go:205-217 | starting a run changes no job but the requested one, and not its identity or spec |
| ReconcilerProperties.MirrorChangesOnlyRequestedJob | pkg/engines/jx/controller.go:219-265 | mirroring changes no job but the requested one, and not its identity or spec |
| ReconcilerProperties.OnlyTheRequestedJobChanges | pkg/engines/jx/controller.go:122-271 | a pass adds and removes no job, changes only the requested one, never its identity or spec, and keeps the store keyed by identity |
| ReconcilerProperties.ActivityNameChangesOnlyAtTrigger | pkg/engines/jx/controller.go:205-209 | a job's activity name changes only at the trigger point, where the job becomes Pending |
| ReconcilerProperties.UnlabelledJobPanicsAsWritten | pkg/engines/jx/controller.go:219-223 | a served job with one activity and no label map reaches the label assignment, which panics as written |
| ReconcilerProperties.UnlabelledJobGetsBuildLabel | pkg/engines/jx/controller.go:219-224 | with the corrected assignment, such a job gets a label map holding just its build number |
| ReconcilerProperties.ReleaseRunStarts | pkg/engines/jx/controller.go:149-217 | a Triggered job without pulls or branch starts a release run on master with descriptor "master:" and becomes Pending with its activity name, the current time and no report URL |
| ReconcilerProperties.ActivityReportLinksBuild | pkg/engines/jx/controller.go:219-265 | a Pending job whose one activity is build 3 of acme/widgets on main gets build label 3, that activity snapshot, and the report URL under https://example.com for team some-team, with or without a trailing slash on the configured base |

## Left out

- Kubernetes client I/O is reduced to a job store (a map keyed by namespace and
  name) and a list of activities. Not modelled: resource versions, update
  conflicts, and the separation between the main resource and its status
  subresource. Both job writes store the whole job. This gives the same result
  here, because the status write carries the label that was written just before it.
- The activities are fixed during a pass. The activity that `apply` eventually
  creates is not added to them.
- Concurrency, the work queue, requeues and the `ctrl.Result` value are not
  modelled. `ctrl.Result` is always empty.
- `SetupWithManager` is not modelled as code. Its two index functions are
  `ActivityIndexKeys` and `JobIndexKeys`, and its activity watch mapper is
  `ActivityRequests`. The manager, the watches and the `ResourceVersionChangedPredicate`
  filter are not modelled.
- `NewLighthouseJobReconciler` building its own metapipeline client when none is
  given (`NewMetaPipelineClient`) is not modelled. The constructor takes the engine directly.
- Reconciler.LighthouseJobReconciler.ActivityRequests: does not state the order
  of the requests, because the store's list order is not part of this model.
- The metapipeline `Create`/`Apply` internals, `util.ToValidName`, `GetBranch`,
  `GetEnvVars`, `PullRef.String` and `ConvertPipelineActivity` are not part of
  this model. They are parameters.
- Go template parsing is not modelled: a template is given already parsed, as literal
  text and `{{ .Field }}` references, the only constructs the default template uses.
  A missing field is modelled (strict execution fails). The other failures, of
  `toObjectMap`, of parsing and of writing the output, are one `renderFails` flag.
- Log output is not modelled. The one exception is the fields logged before a
  run is created, which appear as the `AnnounceStart` call.
- Errors are reduced to the step that failed. Their wrapped messages are not modelled.
- A job whose `Refs` pointer is nil is not modelled: every modelled job has a
  source reference.
- The agent constants `configjob.JenkinsXAgent` and `configjob.LegacyDefaultAgent`
  are modelled as datatype constructors rather than as their string values.
- Only the job fields the controller reads or writes are kept.

## Findings

| source | as written | input that shows it | evidently intended | confidence | as-written member | corrected member |
|---|---|---|---|---|---|---|
| pkg/engines/jx/controller.go:223 | the build number is assigned into `job.Labels`, a map that is nil when the job has no labels; assigning into a nil map panics in Go | a served job without labels whose activity lookup returns exactly one activity (ReconcilerProperties.UnlabelledJobPanicsAsWritten; the corrected behaviour is ReconcilerProperties.UnlabelledJobGetsBuildLabel) | the job gets a label map holding the build-number label | medium (jobs created by Lighthouse normally carry labels); not executed | Reconciler.AssignBuildLabelAsWritten | Reconciler.SetBuildLabel |
