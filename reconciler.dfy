/**
 * The per-job reconciliation state machine of the Jenkins X engine of
 * Lighthouse.  `ReconcileStep` says what one pass does to the job store, which
 * calls it makes on the store and the pipeline engine, in which order, and
 * which error it returns; `LighthouseJobReconciler.Reconcile` performs the
 * pass step by step on the reconciler's own store and trace.
 */
module Reconciler {
  import opened Wrappers
  import opened Resources
  import opened Correlation
  import opened Trigger
  import opened Report

  /** The label that carries a job's build number. */
  const BuildNumLabel := "lighthouse.jenkins-x.io/buildNum"

  /** Settings the controller reads from its process environment. */
  datatype Config = Config(
    reportURLBase: string,   // LIGHTHOUSE_REPORT_URL_BASE; empty disables reporting
    reportURLTeam: string,   // LIGHTHOUSE_REPORT_URL_TEAM; empty means the controller's namespace
    serviceAccount: string,  // JX_SERVICE_ACCOUNT
    defaultImage: string)    // JX_DEFAULT_IMAGE

  /** Helpers the controller calls whose code is not part of this model. */
  datatype Ports = Ports(
    toValidName: string -> string,                 // util.ToValidName
    getBranch: JobSpec -> string,                  // LighthouseJobSpec.GetBranch
    getEnvVars: JobSpec -> map<string, string>,    // LighthouseJobSpec.GetEnvVars
    pullRefString: PullRef -> string,              // metapipeline PullRef.String
    convert: Activity -> Option<ActivityRecord>)   // ConvertPipelineActivity; None is its error

  /** Everything a reconciler is constructed with besides its store. */
  datatype Env = Env(namespace: string, config: Config, ports: Ports, engine: Engine)

  /** The calls one pass makes on the store and on the engine, in order. */
  datatype Call =
    | GetJob(key: ObjectKey)
    | ListActivities(namespace: string, activityKey: string)
    | AnnounceStart(summary: LaunchSummary)
    | CreatePipeline(params: CreateParams)
    | UpdateJob(job: Job)
    | UpdateJobStatus(job: Job)
    | ApplyPipeline(activity: ActivityKey, crds: Crds)

  /** The error a pass returns, named after the step that failed. */
  datatype Error = GetError | ListError | CreateError | StatusUpdateError | UpdateError | ConvertError | ApplyError

  /**
   * Which fallible collaborators fail during one pass: loading the job (for a
   * reason other than its absence), the activity lookup, the job update, the
   * status update, and the template library.
   */
  datatype Faults = Faults(getFails: bool, listFails: bool, updateFails: bool, statusUpdateFails: bool, renderFails: bool)

  /** The job store after a pass, the calls made, and the error returned. */
  datatype Outcome = Outcome(jobs: map<ObjectKey, Job>, calls: seq<Call>, err: Option<Error>)

  /** The agents this controller serves. */
  predicate ServedAgent(agent: Agent): (served: bool)
    ensures served <==> !agent.OtherAgent?
  {
    agent == JenkinsXAgent || agent == LegacyDefaultAgent
  }

  /** What is logged and what is handed to the engine when a run is started. */
  datatype Launch = Launch(summary: LaunchSummary, params: CreateParams)

  /** The launch for a job: the fields logged and the parameters handed to the engine. */
  function PlanLaunch(env: Env, spec: JobSpec): (l: Launch)
    ensures l.summary.owner == spec.refs.org && l.summary.name == spec.refs.repo && l.summary.job == spec.job
    ensures l.summary.sourceURL == spec.refs.cloneURI && l.params.pullRef.sourceURL == spec.refs.cloneURI
    ensures l.summary.branch != "" && l.summary.pullRefs != "" && l.params.serviceAccount != ""
    ensures l.params.kind == PullRequestPipeline <==> |spec.refs.pulls| > 0
    ensures |l.params.pullRef.pullRequests| == |spec.refs.pulls|
    ensures l.params.context == spec.context && l.params.envVariables == env.ports.getEnvVars(spec)
  {
    var pullRef := PullRefFor(spec.refs.cloneURI, spec);
    var branch := BranchOrDefault(env.ports.getBranch(spec));
    var descriptor := PullRefsDescriptor(env.ports.pullRefString(pullRef), branch, |spec.refs.pulls| > 0);
    Launch(
      LaunchSummary(spec.refs.org, spec.refs.repo, spec.refs.cloneURI, branch, descriptor, spec.job),
      CreateParams(pullRef, RunKind(spec.refs.pulls), spec.context,
                   ServiceAccountOrDefault(env.config.serviceAccount), env.config.defaultImage,
                   env.ports.getEnvVars(spec)))
  }

  /** The status that replaces a job's whole status once its run is created. */
  function PendingStatus(activityName: string, now: Time): (s: JobStatus)
    ensures s.state == Pending && s.activityName == activityName && s.startTime == now
    ensures s.reportURL == "" && s.activity == None
  {
    JobStatus(Pending, activityName, now, "", None)
  }

  /** The effect of assigning into a label map. */
  datatype LabelWrite = Written(labels: map<string, string>) | Panicked

  /**
   * The build-number label assignment as the source writes it: an assignment
   * into the job's label map, which panics when the job has no label map.
   */
  function AssignBuildLabelAsWritten(labels: Option<map<string, string>>, build: string): (w: LabelWrite)
    ensures w.Panicked? <==> labels.None?
    ensures w.Written? ==> BuildNumLabel in w.labels && w.labels[BuildNumLabel] == build
  {
    match labels
    case None => Panicked
    case Some(m) => Written(m[BuildNumLabel := build])
  }

  /**
   * The build-number label assignment this model uses: a job without a label
   * map gets one holding just the build number.
   */
  function SetBuildLabel(labels: Option<map<string, string>>, build: string): (m: map<string, string>)
    ensures BuildNumLabel in m && m[BuildNumLabel] == build
    ensures forall k :: k != BuildNumLabel ==> (k in m <==> labels.Some? && k in labels.value)
    ensures forall k :: k != BuildNumLabel && k in m ==> labels.Some? && m[k] == labels.value[k]
  {
    match labels
    case None => map[BuildNumLabel := build]
    case Some(old_) => old_[BuildNumLabel := build]
  }

  /** Wherever the source does not panic, the corrected assignment is the same. */
  lemma SetBuildLabelAgreesWhenLabelled(labels: Option<map<string, string>>, build: string)
    requires labels.Some?
    ensures AssignBuildLabelAsWritten(labels, build) == Written(SetBuildLabel(labels, build))
  {
  }

  /** Zero activities and state Triggered: create the run, record Pending, then apply. */
  function TriggerStep(env: Env, jobs: map<ObjectKey, Job>, req: ObjectKey, now: Time, faults: Faults): (o: Outcome)
    requires req in jobs
    ensures o.jobs.Keys == jobs.Keys
    ensures |o.calls| >= 2 && o.calls[1] == CreatePipeline(PlanLaunch(env, jobs[req].spec).params)
    ensures o.err in {None, Some(CreateError), Some(StatusUpdateError), Some(ApplyError)}
    ensures o.err == None ==> o.jobs[req].status.state == Pending && o.calls[|o.calls| - 1].ApplyPipeline?
  {
    var job := jobs[req];
    var launch := PlanLaunch(env, job.spec);
    var calls := [AnnounceStart(launch.summary), CreatePipeline(launch.params)];
    match env.engine.create(launch.params)
    case CreateFailed => Outcome(jobs, calls, Some(CreateError))
    case Created(key, crds) =>
      var pending := job.(status := PendingStatus(env.ports.toValidName(key.name), now));
      var written := calls + [UpdateJobStatus(pending)];
      if faults.statusUpdateFails then Outcome(jobs, written, Some(StatusUpdateError))
      else
        var applied := written + [ApplyPipeline(key, crds)];
        var err := if env.engine.apply(key, crds) then None else Some(ApplyError);
        Outcome(jobs[req := pending], applied, err)
  }

  /** Exactly one activity: label the job with its build, then mirror it into the status. */
  function MirrorStep(env: Env, jobs: map<ObjectKey, Job>, req: ObjectKey, activity: Activity, faults: Faults): (o: Outcome)
    requires req in jobs
    ensures o.jobs.Keys == jobs.Keys
    ensures |o.calls| >= 1 && o.calls[0].UpdateJob? && o.calls[0].job.labels.Some?
    ensures BuildNumLabel in o.calls[0].job.labels.value
            && o.calls[0].job.labels.value[BuildNumLabel] == activity.spec.build
    ensures o.err in {None, Some(UpdateError), Some(ConvertError), Some(StatusUpdateError)}
    ensures o.jobs[req].status.state == jobs[req].status.state
    ensures o.jobs[req].status.activityName == jobs[req].status.activityName
    ensures o.err == None ==> o.jobs[req].status.activity == env.ports.convert(activity)
  {
    var job := jobs[req];
    var labelled := job.(labels := Some(SetBuildLabel(job.labels, activity.spec.build)));
    var updated := [UpdateJob(labelled)];
    if faults.updateFails then Outcome(jobs, updated, Some(UpdateError))
    else
      var jobs' := jobs[req := labelled];
      match env.ports.convert(activity)
      case None => Outcome(jobs', updated, Some(ConvertError))
      case Some(record) =>
        var url := NextReportURL(labelled.status.reportURL, record, env.config.reportURLBase,
                                 env.config.reportURLTeam, env.namespace, faults.renderFails);
        var mirrored := labelled.(status := labelled.status.(reportURL := url, activity := Some(record)));
        var written := updated + [UpdateJobStatus(mirrored)];
        if faults.statusUpdateFails then Outcome(jobs', written, Some(StatusUpdateError))
        else Outcome(jobs'[req := mirrored], written, None)
  }

  /** One reconciliation pass for the job named by `req`. */
  function ReconcileStep(env: Env, jobs: map<ObjectKey, Job>, activities: seq<Activity>, req: ObjectKey,
                         faults: Faults, now: Time): (o: Outcome)
    ensures |o.calls| >= 1 && o.calls[0] == GetJob(req)
    ensures o.jobs.Keys == jobs.Keys
    ensures o.err == Some(GetError) <==> faults.getFails
    ensures o.err == Some(ListError)
            <==> !faults.getFails && req in jobs && ServedAgent(jobs[req].spec.agent) && faults.listFails
  {
    var got := [GetJob(req)];
    if faults.getFails then Outcome(jobs, got, Some(GetError))
    else if req !in jobs then Outcome(jobs, got, None)
    else if !ServedAgent(jobs[req].spec.agent) then Outcome(jobs, got, None)
    else
      var o := LookupStep(env, jobs, activities, req, faults, now);
      Outcome(o.jobs, got + o.calls, o.err)
  }

  /** The rest of a pass for a loaded job of a served agent: the activity lookup, then the dispatch. */
  function LookupStep(env: Env, jobs: map<ObjectKey, Job>, activities: seq<Activity>, req: ObjectKey,
                      faults: Faults, now: Time): (o: Outcome)
    requires req in jobs
    ensures |o.calls| >= 1 && o.calls[0] == ListActivities(req.namespace, jobs[req].status.activityName)
    ensures o.jobs.Keys == jobs.Keys
    ensures o.err == Some(ListError) <==> faults.listFails
    ensures o.err != Some(GetError)
  {
    var job := jobs[req];
    var listed := [ListActivities(req.namespace, job.status.activityName)];
    if faults.listFails then Outcome(jobs, listed, Some(ListError))
    else
      var items := MatchingActivities(env.ports.toValidName, activities, req.namespace, job.status.activityName);
      var o := DispatchStep(env, jobs, req, items, now, faults);
      Outcome(o.jobs, listed + o.calls, o.err)
  }

  /**
   * What a pass does once the activities correlated with the job are known:
   * start a run for a Triggered job without one, mirror a single activity,
   * and otherwise nothing.
   */
  function DispatchStep(env: Env, jobs: map<ObjectKey, Job>, req: ObjectKey, items: seq<Activity>,
                        now: Time, faults: Faults): (o: Outcome)
    requires req in jobs
    ensures o.jobs.Keys == jobs.Keys
    ensures o.calls == [] <==> |items| > 1 || (|items| == 0 && jobs[req].status.state != Triggered)
    ensures o.err != Some(GetError) && o.err != Some(ListError)
  {
    if |items| == 0 && jobs[req].status.state == Triggered then TriggerStep(env, jobs, req, now, faults)
    else if |items| == 1 then MirrorStep(env, jobs, req, items[0], faults)
    else Outcome(jobs, [], None)
  }

  /** Appending to a trace in two steps is appending the two parts at once. */
  lemma AppendAssoc<T>(a: seq<T>, b: seq<T>, c: seq<T>)
    ensures a + b + c == a + (b + c)
  {
  }

  /** A Lighthouse job reconciler over its store of jobs and activities. */
  class LighthouseJobReconciler {
    const env: Env
    var jobs: map<ObjectKey, Job>
    var activities: seq<Activity>
    var trace: seq<Call>

    ghost predicate Valid()
      reads this
    {
      KeyedByIdentity(jobs) && DistinctActivities(activities)
    }

    constructor (env: Env, jobs: map<ObjectKey, Job>, activities: seq<Activity>)
      requires KeyedByIdentity(jobs) && DistinctActivities(activities)
      ensures Valid()
      ensures this.env == env && this.jobs == jobs && this.activities == activities && trace == []
    {
      this.env := env;
      this.jobs := jobs;
      this.activities := activities;
      this.trace := [];
    }

    /** One pass of the reconciliation loop for the job named by `req`. */
    method Reconcile(req: ObjectKey, faults: Faults, now: Time) returns (err: Option<Error>)
      requires Valid()
      modifies this`jobs, this`trace
      ensures Valid()
      ensures var o := ReconcileStep(env, old(jobs), activities, req, faults, now);
              jobs == o.jobs && trace == old(trace) + o.calls && err == o.err
    {
      trace := trace + [GetJob(req)];
      if faults.getFails {
        return Some(GetError);
      }
      if req !in jobs {
        // a deleted job is not an error
        return None;
      }
      var job := jobs[req];

      if job.spec.agent != JenkinsXAgent && job.spec.agent != LegacyDefaultAgent {
        return None;
      }
      ghost var before := old(trace);
      err := LookUp(req, faults, now);
      ghost var rest := LookupStep(env, old(jobs), activities, req, faults, now);
      AppendAssoc(before, [GetJob(req)], rest.calls);
    }

    /** Lists the activities correlated with a loaded job and dispatches on them. */
    method LookUp(req: ObjectKey, faults: Faults, now: Time) returns (err: Option<Error>)
      requires Valid() && req in jobs
      modifies this`jobs, this`trace
      ensures Valid()
      ensures var o := LookupStep(env, old(jobs), activities, req, faults, now);
              jobs == o.jobs && trace == old(trace) + o.calls && err == o.err
    {
      var job := jobs[req];
      trace := trace + [ListActivities(req.namespace, job.status.activityName)];
      if faults.listFails {
        return Some(ListError);
      }
      var items := MatchingActivities(env.ports.toValidName, activities, req.namespace, job.status.activityName);
      ghost var before := old(trace);
      err := Dispatch(req, items, now, faults);
      ghost var rest := DispatchStep(env, old(jobs), req, items, now, faults);
      AppendAssoc(before, [ListActivities(req.namespace, job.status.activityName)], rest.calls);
    }

    /** Starts a run, mirrors the one activity, or leaves an anomaly alone. */
    method Dispatch(req: ObjectKey, items: seq<Activity>, now: Time, faults: Faults) returns (err: Option<Error>)
      requires Valid() && req in jobs
      modifies this`jobs, this`trace
      ensures Valid()
      ensures var o := DispatchStep(env, old(jobs), req, items, now, faults);
              jobs == o.jobs && trace == old(trace) + o.calls && err == o.err
    {
      if |items| == 0 {
        if jobs[req].status.state == Triggered {
          err := StartPipeline(req, now, faults);
          return err;
        }
      } else if |items| == 1 {
        err := MirrorActivity(req, items[0], faults);
        return err;
      }
      // more than one activity: an anomaly that is only logged
      return None;
    }

    /** The parameters of a new run and the fields logged before it is created. */
    method PrepareLaunch(spec: JobSpec) returns (summary: LaunchSummary, params: CreateParams)
      ensures Launch(summary, params) == PlanLaunch(env, spec)
    {
      var sourceURL := spec.refs.cloneURI;
      var pullRefData := GetPullRefs(sourceURL, spec);
      var branch := env.ports.getBranch(spec);
      var pullRefs := "";
      var sa := env.config.serviceAccount;
      var kind := ReleasePipeline;

      if branch == "" {
        branch := DefaultBranch;
      }
      if |spec.refs.pulls| > 0 {
        pullRefs := env.ports.pullRefString(pullRefData);
      }
      if pullRefs == "" {
        pullRefs := branch + ":";
      }
      if sa == "" {
        sa := DefaultServiceAccount;
      }
      if |spec.refs.pulls| > 0 {
        kind := PullRequestPipeline;
      }

      summary := LaunchSummary(spec.refs.org, spec.refs.repo, sourceURL, branch, pullRefs, spec.job);
      params := CreateParams(pullRefData, kind, spec.context, sa, env.config.defaultImage,
                             env.ports.getEnvVars(spec));
    }

    /** Creates the run for a triggered job, records it as Pending, then applies it. */
    method StartPipeline(req: ObjectKey, now: Time, faults: Faults) returns (err: Option<Error>)
      requires Valid() && req in jobs
      modifies this`jobs, this`trace
      ensures Valid()
      ensures var o := TriggerStep(env, old(jobs), req, now, faults);
              jobs == o.jobs && trace == old(trace) + o.calls && err == o.err
    {
      var job := jobs[req];
      var summary, params := PrepareLaunch(job.spec);
      var announced := [AnnounceStart(summary), CreatePipeline(params)];
      trace := trace + announced;
      var created := env.engine.create(params);
      if created.CreateFailed? {
        return Some(CreateError);
      }
      job := job.(status := JobStatus(Pending, env.ports.toValidName(created.key.name), now, "", None));
      trace := trace + [UpdateJobStatus(job)];
      AppendAssoc(old(trace), announced, [UpdateJobStatus(job)]);
      if faults.statusUpdateFails {
        return Some(StatusUpdateError);
      }
      jobs := jobs[req := job];
      trace := trace + [ApplyPipeline(created.key, created.crds)];
      AppendAssoc(old(trace), announced + [UpdateJobStatus(job)], [ApplyPipeline(created.key, created.crds)]);
      if !env.engine.apply(created.key, created.crds) {
        return Some(ApplyError);
      }
      return None;
    }

    /** The report URL after mirroring `record`, given the job's previous one. */
    method ReportURL(previous: string, record: ActivityRecord, renderFails: bool) returns (url: string)
      ensures url == NextReportURL(previous, record, env.config.reportURLBase, env.config.reportURLTeam,
                                   env.namespace, renderFails)
    {
      url := previous;
      var urlBase := env.config.reportURLBase;
      if urlBase != "" {
        var team := env.namespace;
        if env.config.reportURLTeam != "" {
          team := env.config.reportURLTeam;
        }
        var pipelineContext := record.context;
        if pipelineContext == "" {
          pipelineContext := DefaultPipelineContext;
        }
        var targetURL := CreateReportTargetURL(DefaultTargetURLTemplate,
          ReportParams(TrimRightSlashes(urlBase), record.owner, record.repo, record.branch,
                       record.buildIdentifier, pipelineContext, team), renderFails);
        if HasHTTPScheme(targetURL) {
          url := targetURL;
        }
      }
    }

    /** Labels the job with the activity's build, then mirrors the activity into its status. */
    method MirrorActivity(req: ObjectKey, activity: Activity, faults: Faults) returns (err: Option<Error>)
      requires Valid() && req in jobs
      modifies this`jobs, this`trace
      ensures Valid()
      ensures var o := MirrorStep(env, old(jobs), req, activity, faults);
              jobs == o.jobs && trace == old(trace) + o.calls && err == o.err
    {
      var job := jobs[req];
      var labels := if job.labels.Some? then job.labels.value else map[];
      labels := labels[BuildNumLabel := activity.spec.build];
      job := job.(labels := Some(labels));
      ghost var updated := [UpdateJob(job)];
      trace := trace + [UpdateJob(job)];
      if faults.updateFails {
        return Some(UpdateError);
      }
      jobs := jobs[req := job];
      var converted := env.ports.convert(activity);
      if converted.None? {
        return Some(ConvertError);
      }
      var record := converted.value;
      var url := ReportURL(job.status.reportURL, record, faults.renderFails);
      job := job.(status := job.status.(reportURL := url));
      job := job.(status := job.status.(activity := Some(record)));
      trace := trace + [UpdateJobStatus(job)];
      AppendAssoc(old(trace), updated, [UpdateJobStatus(job)]);
      if faults.statusUpdateFails {
        return Some(StatusUpdateError);
      }
      jobs := jobs[req := job];
      return None;
    }

    /**
     * The requests an event on an activity turns into: one for each job in
     * the activity's namespace indexed under the activity's normalised name,
     * in no particular order, and none when the lookup fails.
     */
    method ActivityRequests(activity: ObjectKey, listFails: bool) returns (requests: seq<ObjectKey>)
      requires Valid()
      ensures listFails ==> requests == []
      ensures !listFails ==> forall k :: k in requests <==>
                k in jobs && JobListed(jobs[k], activity.namespace, env.ports.toValidName(activity.name))
      ensures !listFails ==> |requests| == |MatchingJobs(jobs, activity.namespace, env.ports.toValidName(activity.name))|
    {
      if listFails {
        return [];
      }
      var found := MatchingJobs(jobs, activity.namespace, env.ports.toValidName(activity.name));
      var rest := found;
      requests := [];
      while rest != {}
        invariant rest <= found
        invariant forall k :: k in requests <==> k in found && k !in rest
        invariant |requests| + |rest| == |found|
        decreases |rest|
      {
        var k :| k in rest;
        requests := requests + [jobs[k].key];
        rest := rest - {k};
      }
    }
  }
}
