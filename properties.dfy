/**
 * What one reconciliation pass promises, branch by branch, stated over
 * `ReconcileStep`: the exact calls made and their order, the error returned,
 * and the job store afterwards.
 */
module ReconcilerProperties {
  import opened Wrappers
  import opened Resources
  import opened Correlation
  import opened Trigger
  import opened Report
  import opened Reconciler

  /** The pass loads a served job and its activity lookup succeeds. */
  predicate LooksUp(jobs: map<ObjectKey, Job>, req: ObjectKey, faults: Faults) {
    !faults.getFails && req in jobs && ServedAgent(jobs[req].spec.agent) && !faults.listFails
  }

  /** The activities correlated with the requested job. */
  function Correlated(env: Env, jobs: map<ObjectKey, Job>, activities: seq<Activity>, req: ObjectKey): seq<Activity>
    requires req in jobs
  {
    MatchingActivities(env.ports.toValidName, activities, req.namespace, jobs[req].status.activityName)
  }

  /** The two calls every pass that reaches the lookup starts with. */
  function LookupCalls(jobs: map<ObjectKey, Job>, req: ObjectKey): seq<Call>
    requires req in jobs
  {
    [GetJob(req), ListActivities(req.namespace, jobs[req].status.activityName)]
  }

  /** How many times a sequence of calls asks the engine to create a run. */
  function CreateCount(calls: seq<Call>): nat {
    if |calls| == 0 then 0
    else (if calls[0].CreatePipeline? then 1 else 0) + CreateCount(calls[1..])
  }

  lemma {:induction false} CreateCountAppend(a: seq<Call>, b: seq<Call>)
    ensures CreateCount(a + b) == CreateCount(a) + CreateCount(b)
  {
    if |a| > 0 {
      assert (a + b)[0] == a[0];
      assert (a + b)[1..] == a[1..] + b;
      CreateCountAppend(a[1..], b);
    } else {
      assert a + b == b;
    }
  }

  lemma {:induction false} NoCreateCalls(calls: seq<Call>)
    requires forall i :: 0 <= i < |calls| ==> !calls[i].CreatePipeline?
    ensures CreateCount(calls) == 0
  {
    if |calls| > 0 {
      NoCreateCalls(calls[1..]);
    }
  }

  // ---------------------------------------------------------------------
  // Loading, filtering and looking up

  /** A load failure other than not-found is returned; nothing else happens. */
  lemma LoadFailureIsReturned(env: Env, jobs: map<ObjectKey, Job>, activities: seq<Activity>, req: ObjectKey,
                              faults: Faults, now: Time)
    requires faults.getFails
    ensures ReconcileStep(env, jobs, activities, req, faults, now) == Outcome(jobs, [GetJob(req)], Some(GetError))
  {
  }

  /** A job that is gone is not an error: nothing else happens. */
  lemma MissingJobIsIgnored(env: Env, jobs: map<ObjectKey, Job>, activities: seq<Activity>, req: ObjectKey,
                            faults: Faults, now: Time)
    requires !faults.getFails && req !in jobs
    ensures ReconcileStep(env, jobs, activities, req, faults, now) == Outcome(jobs, [GetJob(req)], None)
  {
  }

  /** A job for another agent is ignored: no lookup, no write, no engine call, no error. */
  lemma UnservedAgentIsIgnored(env: Env, jobs: map<ObjectKey, Job>, activities: seq<Activity>, req: ObjectKey,
                               faults: Faults, now: Time)
    requires !faults.getFails && req in jobs
    requires jobs[req].spec.agent != JenkinsXAgent && jobs[req].spec.agent != LegacyDefaultAgent
    ensures ReconcileStep(env, jobs, activities, req, faults, now) == Outcome(jobs, [GetJob(req)], None)
  {
  }

  /** A failed activity lookup is returned, with no write and no engine call. */
  lemma LookupFailureIsReturned(env: Env, jobs: map<ObjectKey, Job>, activities: seq<Activity>, req: ObjectKey,
                                faults: Faults, now: Time)
    requires !faults.getFails && req in jobs && ServedAgent(jobs[req].spec.agent) && faults.listFails
    ensures ReconcileStep(env, jobs, activities, req, faults, now)
         == Outcome(jobs, LookupCalls(jobs, req), Some(ListError))
  {
  }

  /** No activity yet and a state other than Triggered: nothing is created or written. */
  lemma UntriggeredJobIsLeftAlone(env: Env, jobs: map<ObjectKey, Job>, activities: seq<Activity>, req: ObjectKey,
                                  faults: Faults, now: Time)
    requires LooksUp(jobs, req, faults)
    requires |Correlated(env, jobs, activities, req)| == 0 && jobs[req].status.state != Triggered
    ensures ReconcileStep(env, jobs, activities, req, faults, now) == Outcome(jobs, LookupCalls(jobs, req), None)
  {
  }

  /** Several correlated activities: an anomaly; nothing is written and no error is returned. */
  lemma AmbiguousActivitiesAreLeftAlone(env: Env, jobs: map<ObjectKey, Job>, activities: seq<Activity>,
                                        req: ObjectKey, faults: Faults, now: Time)
    requires LooksUp(jobs, req, faults)
    requires |Correlated(env, jobs, activities, req)| > 1
    ensures ReconcileStep(env, jobs, activities, req, faults, now) == Outcome(jobs, LookupCalls(jobs, req), None)
  {
  }

  // ---------------------------------------------------------------------
  // Triggering a run

  /** The launch a job gets: its defaults and its run kind. */
  lemma LaunchDefaults(env: Env, spec: JobSpec)
    ensures var l := PlanLaunch(env, spec);
      var branch := env.ports.getBranch(spec);
      && l.summary.branch == (if branch == "" then "master" else branch)
      && (|spec.refs.pulls| == 0 ==> l.summary.pullRefs == l.summary.branch + ":")
      && (|spec.refs.pulls| > 0 && env.ports.pullRefString(l.params.pullRef) != "" ==>
            l.summary.pullRefs == env.ports.pullRefString(l.params.pullRef))
      && (|spec.refs.pulls| > 0 && env.ports.pullRefString(l.params.pullRef) == "" ==>
            l.summary.pullRefs == l.summary.branch + ":")
      && l.params.serviceAccount == (if env.config.serviceAccount == "" then "tekton-bot" else env.config.serviceAccount)
      && (l.params.kind == PullRequestPipeline <==> |spec.refs.pulls| > 0)
      && (l.params.kind == ReleasePipeline <==> |spec.refs.pulls| == 0)
      && l.params.pullRef.sourceURL == spec.refs.cloneURI
      && l.params.pullRef.baseBranch == spec.refs.baseRef && l.params.pullRef.baseSHA == spec.refs.baseSHA
      && |l.params.pullRef.pullRequests| == |spec.refs.pulls|
      && (forall i :: 0 <= i < |spec.refs.pulls| ==>
            l.params.pullRef.pullRequests[i] == PullRequestRef(Decimal.Itoa(spec.refs.pulls[i].number), spec.refs.pulls[i].sha))
      && l.params.context == spec.context && l.params.defaultImage == env.config.defaultImage
  {
  }

  /** The trigger point: a served Triggered job with no correlated activity. */
  predicate Triggers(env: Env, jobs: map<ObjectKey, Job>, activities: seq<Activity>, req: ObjectKey, faults: Faults) {
    LooksUp(jobs, req, faults) && |Correlated(env, jobs, activities, req)| == 0 && jobs[req].status.state == Triggered
  }

  /** A failed create is returned; the status is not written and nothing is applied. */
  lemma CreateFailureWritesNothing(env: Env, jobs: map<ObjectKey, Job>, activities: seq<Activity>, req: ObjectKey,
                                   faults: Faults, now: Time)
    requires Triggers(env, jobs, activities, req, faults)
    requires env.engine.create(PlanLaunch(env, jobs[req].spec).params).CreateFailed?
    ensures var l := PlanLaunch(env, jobs[req].spec);
      ReconcileStep(env, jobs, activities, req, faults, now)
      == Outcome(jobs, LookupCalls(jobs, req) + [AnnounceStart(l.summary), CreatePipeline(l.params)], Some(CreateError))
  {
  }

  /**
   * After a successful create the whole status is replaced by Pending, the
   * engine's normalised activity name and the current time, and written; a
   * failed write is returned before anything is applied.
   */
  lemma StatusWriteFailurePreventsApply(env: Env, jobs: map<ObjectKey, Job>, activities: seq<Activity>,
                                        req: ObjectKey, faults: Faults, now: Time)
    requires Triggers(env, jobs, activities, req, faults)
    requires env.engine.create(PlanLaunch(env, jobs[req].spec).params).Created?
    requires faults.statusUpdateFails
    ensures var l := PlanLaunch(env, jobs[req].spec);
      var key := env.engine.create(l.params).key;
      var pending := jobs[req].(status := PendingStatus(env.ports.toValidName(key.name), now));
      ReconcileStep(env, jobs, activities, req, faults, now)
      == Outcome(jobs, LookupCalls(jobs, req) + [AnnounceStart(l.summary), CreatePipeline(l.params), UpdateJobStatus(pending)],
                 Some(StatusUpdateError))
  {
  }

  /**
   * A created run whose status is written is then applied: the store holds the
   * Pending status, the write comes before the apply, and an apply failure is
   * returned without undoing the write.
   */
  lemma CreatedRunIsRecordedThenApplied(env: Env, jobs: map<ObjectKey, Job>, activities: seq<Activity>,
                                        req: ObjectKey, faults: Faults, now: Time)
    requires Triggers(env, jobs, activities, req, faults)
    requires env.engine.create(PlanLaunch(env, jobs[req].spec).params).Created?
    requires !faults.statusUpdateFails
    ensures var l := PlanLaunch(env, jobs[req].spec);
      var created := env.engine.create(l.params);
      var pending := jobs[req].(status := PendingStatus(env.ports.toValidName(created.key.name), now));
      var o := ReconcileStep(env, jobs, activities, req, faults, now);
      && o.jobs == jobs[req := pending]
      && o.calls == LookupCalls(jobs, req) + [AnnounceStart(l.summary), CreatePipeline(l.params),
                                              UpdateJobStatus(pending), ApplyPipeline(created.key, created.crds)]
      && o.err == (if env.engine.apply(created.key, created.crds) then None else Some(ApplyError))
  {
  }

  /** The engine is asked to create a run exactly once at the trigger point, and never otherwise. */
  lemma CreateCalledOnlyAtTriggerPoint(env: Env, jobs: map<ObjectKey, Job>, activities: seq<Activity>,
                                       req: ObjectKey, faults: Faults, now: Time)
    ensures CreateCount(ReconcileStep(env, jobs, activities, req, faults, now).calls)
         == if Triggers(env, jobs, activities, req, faults) then 1 else 0
  {
    if !faults.getFails && req in jobs && ServedAgent(jobs[req].spec.agent) {
      var o := LookupStep(env, jobs, activities, req, faults, now);
      var listed := [ListActivities(req.namespace, jobs[req].status.activityName)];
      if !faults.listFails {
        var items := Correlated(env, jobs, activities, req);
        var d := DispatchStep(env, jobs, req, items, now, faults);
        DispatchCreateCount(env, jobs, req, items, now, faults);
        NoCreateCalls(listed);
        CreateCountAppend(listed, d.calls);
      }
      NoCreateCalls([GetJob(req)]);
      CreateCountAppend([GetJob(req)], o.calls);
    }
  }

  /** Dispatching creates a run exactly when there is no activity and the job is Triggered. */
  lemma DispatchCreateCount(env: Env, jobs: map<ObjectKey, Job>, req: ObjectKey, items: seq<Activity>,
                            now: Time, faults: Faults)
    requires req in jobs
    ensures CreateCount(DispatchStep(env, jobs, req, items, now, faults).calls)
         == if |items| == 0 && jobs[req].status.state == Triggered then 1 else 0
  {
    var d := DispatchStep(env, jobs, req, items, now, faults);
    if |items| == 0 && jobs[req].status.state == Triggered {
      var l := PlanLaunch(env, jobs[req].spec);
      var head := [AnnounceStart(l.summary), CreatePipeline(l.params)];
      assert head[1..] == [CreatePipeline(l.params)];
      NoCreateCalls(head[1..][1..]);
      var tail := d.calls[2..];
      assert d.calls == head + tail;
      NoCreateCalls(tail);
      CreateCountAppend(head, tail);
    } else {
      NoCreateCalls(d.calls);
    }
  }

  /**
   * The pass that creates a run and records it leaves the job Pending, and no
   * later sequence of passes creates another run for it.
   */
  lemma NoSecondRun(env: Env, jobs: map<ObjectKey, Job>, activities: seq<Activity>, req: ObjectKey,
                    faults: Faults, now: Time, later: seq<Pass>)
    requires Triggers(env, jobs, activities, req, faults)
    requires env.engine.create(PlanLaunch(env, jobs[req].spec).params).Created? && !faults.statusUpdateFails
    ensures var o := ReconcileStep(env, jobs, activities, req, faults, now);
      req in o.jobs && o.jobs[req].status.state == Pending
      && CreatesFor(env, o.jobs, later, req) == 0
  {
    CreatedRunIsRecordedThenApplied(env, jobs, activities, req, faults, now);
    var o := ReconcileStep(env, jobs, activities, req, faults, now);
    NoSecondRunEver(env, o.jobs, later, req);
  }

  /** One reconciliation pass: the job it was requested for and what the world looked like. */
  datatype Pass = Pass(req: ObjectKey, activities: seq<Activity>, faults: Faults, now: Time)

  /** How many runs a sequence of passes, applied one after the other, creates for job `req`. */
  function CreatesFor(env: Env, jobs: map<ObjectKey, Job>, passes: seq<Pass>, req: ObjectKey): nat {
    if passes == [] then 0
    else
      var p := passes[0];
      var o := ReconcileStep(env, jobs, p.activities, p.req, p.faults, p.now);
      (if p.req == req then CreateCount(o.calls) else 0) + CreatesFor(env, o.jobs, passes[1..], req)
  }

  /** A pass, for whichever job, never moves a job that is not Triggered back to Triggered. */
  lemma PassKeepsUntriggered(env: Env, jobs: map<ObjectKey, Job>, activities: seq<Activity>, r: ObjectKey,
                             faults: Faults, now: Time, k: ObjectKey)
    requires k in jobs && jobs[k].status.state != Triggered
    ensures var o := ReconcileStep(env, jobs, activities, r, faults, now);
      k in o.jobs && o.jobs[k].status.state != Triggered
  {
    OnlyTheRequestedJobChanges(env, jobs, activities, r, faults, now);
    if k == r && LooksUp(jobs, r, faults) {
      var items := Correlated(env, jobs, activities, r);
      assert ReconcileStep(env, jobs, activities, r, faults, now).jobs
          == DispatchStep(env, jobs, r, items, now, faults).jobs;
    }
  }

  /**
   * Once a job has left the Triggered state, no later sequence of passes, for
   * any jobs, with any activities, failures and clock readings, creates
   * another run for it.
   */
  lemma {:induction false} NoSecondRunEver(env: Env, jobs: map<ObjectKey, Job>, passes: seq<Pass>, req: ObjectKey)
    requires req in jobs && jobs[req].status.state != Triggered
    ensures CreatesFor(env, jobs, passes, req) == 0
  {
    if passes != [] {
      var p := passes[0];
      var o := ReconcileStep(env, jobs, p.activities, p.req, p.faults, p.now);
      if p.req == req {
        CreateCalledOnlyAtTriggerPoint(env, jobs, p.activities, req, p.faults, p.now);
      }
      PassKeepsUntriggered(env, jobs, p.activities, p.req, p.faults, p.now, req);
      NoSecondRunEver(env, o.jobs, passes[1..], req);
    }
  }


  // ---------------------------------------------------------------------
  // Mirroring an activity

  /** The mirroring branch: exactly one correlated activity. */
  predicate Mirrors(env: Env, jobs: map<ObjectKey, Job>, activities: seq<Activity>, req: ObjectKey, faults: Faults) {
    LooksUp(jobs, req, faults) && |Correlated(env, jobs, activities, req)| == 1
  }

  /** The job with the build-number label of its one activity. */
  function Labelled(env: Env, jobs: map<ObjectKey, Job>, activities: seq<Activity>, req: ObjectKey, faults: Faults): (j: Job)
    requires Mirrors(env, jobs, activities, req, faults)
    ensures j.labels.Some? && BuildNumLabel in j.labels.value
    ensures j.labels.value[BuildNumLabel] == Correlated(env, jobs, activities, req)[0].spec.build
    ensures j.key == jobs[req].key && j.spec == jobs[req].spec && j.status == jobs[req].status
  {
    var job := jobs[req];
    job.(labels := Some(SetBuildLabel(job.labels, Correlated(env, jobs, activities, req)[0].spec.build)))
  }

  /** A failed label update is returned before the status is touched. */
  lemma LabelUpdateFailureStopsMirroring(env: Env, jobs: map<ObjectKey, Job>, activities: seq<Activity>,
                                         req: ObjectKey, faults: Faults, now: Time)
    requires Mirrors(env, jobs, activities, req, faults) && faults.updateFails
    ensures ReconcileStep(env, jobs, activities, req, faults, now)
         == Outcome(jobs, LookupCalls(jobs, req) + [UpdateJob(Labelled(env, jobs, activities, req, faults))],
                    Some(UpdateError))
  {
  }

  /** A failed conversion is returned after the label is persisted, with no status write. */
  lemma ConversionFailureKeepsLabel(env: Env, jobs: map<ObjectKey, Job>, activities: seq<Activity>,
                                    req: ObjectKey, faults: Faults, now: Time)
    requires Mirrors(env, jobs, activities, req, faults) && !faults.updateFails
    requires env.ports.convert(Correlated(env, jobs, activities, req)[0]).None?
    ensures var labelled := Labelled(env, jobs, activities, req, faults);
      ReconcileStep(env, jobs, activities, req, faults, now)
      == Outcome(jobs[req := labelled], LookupCalls(jobs, req) + [UpdateJob(labelled)], Some(ConvertError))
  {
  }

  /**
   * The label is persisted first; then the status takes the converted
   * activity and, when reporting accepts it, the new report URL, keeping its
   * state, activity name and start time; then it is written.
   */
  lemma ActivityIsMirrored(env: Env, jobs: map<ObjectKey, Job>, activities: seq<Activity>,
                           req: ObjectKey, faults: Faults, now: Time)
    requires Mirrors(env, jobs, activities, req, faults) && !faults.updateFails
    requires env.ports.convert(Correlated(env, jobs, activities, req)[0]).Some?
    ensures var labelled := Labelled(env, jobs, activities, req, faults);
      var record := env.ports.convert(Correlated(env, jobs, activities, req)[0]).value;
      var url := NextReportURL(jobs[req].status.reportURL, record, env.config.reportURLBase,
                               env.config.reportURLTeam, env.namespace, faults.renderFails);
      var mirrored := labelled.(status := jobs[req].status.(reportURL := url, activity := Some(record)));
      var o := ReconcileStep(env, jobs, activities, req, faults, now);
      && o.calls == LookupCalls(jobs, req) + [UpdateJob(labelled), UpdateJobStatus(mirrored)]
      && o.jobs == (if faults.statusUpdateFails then jobs[req := labelled] else jobs[req := mirrored])
      && o.err == (if faults.statusUpdateFails then Some(StatusUpdateError) else None)
  {
  }

  /**
   * The report URL a mirrored job ends with is the rendered one exactly when
   * reporting is configured, rendering succeeds and the trimmed base is an
   * http(s) URL; otherwise it is the one the job had.
   */
  lemma MirroredReportURL(env: Env, jobs: map<ObjectKey, Job>, activities: seq<Activity>,
                          req: ObjectKey, faults: Faults, now: Time)
    requires Mirrors(env, jobs, activities, req, faults) && !faults.updateFails && !faults.statusUpdateFails
    requires env.ports.convert(Correlated(env, jobs, activities, req)[0]).Some?
    ensures var record := env.ports.convert(Correlated(env, jobs, activities, req)[0]).value;
      var base := env.config.reportURLBase;
      var accepted := base != "" && !faults.renderFails && HasHTTPScheme(TrimRightSlashes(base));
      var o := ReconcileStep(env, jobs, activities, req, faults, now);
      req in o.jobs
      && o.jobs[req].status.reportURL
         == if accepted
            then TrimRightSlashes(base) + "/teams/"
                 + ReportPath(ReportTeam(env.namespace, env.config.reportURLTeam), record.owner, record.repo,
                              record.branch, record.buildIdentifier)
            else jobs[req].status.reportURL
  {
    var record := env.ports.convert(Correlated(env, jobs, activities, req)[0]).value;
    ActivityIsMirrored(env, jobs, activities, req, faults, now);
    ReportURLAccepted(jobs[req].status.reportURL, record, env.config.reportURLBase, env.config.reportURLTeam,
                      env.namespace, faults.renderFails);
  }

  // ---------------------------------------------------------------------
  // What a pass never does

  /**
   * `after` differs from `before` at most in the job stored under `req`, and
   * that job keeps its identity and spec.
   */
  ghost predicate ChangesOnly(before: map<ObjectKey, Job>, after: map<ObjectKey, Job>, req: ObjectKey) {
    && after.Keys == before.Keys
    && (forall k :: k in before && k != req ==> after[k] == before[k])
    && (req in before ==> after[req].key == before[req].key && after[req].spec == before[req].spec)
  }

  lemma TriggerChangesOnlyRequestedJob(env: Env, jobs: map<ObjectKey, Job>, req: ObjectKey, now: Time, faults: Faults)
    requires req in jobs
    ensures ChangesOnly(jobs, TriggerStep(env, jobs, req, now, faults).jobs, req)
  {
  }

  lemma MirrorChangesOnlyRequestedJob(env: Env, jobs: map<ObjectKey, Job>, req: ObjectKey, activity: Activity,
                                      faults: Faults)
    requires req in jobs
    ensures ChangesOnly(jobs, MirrorStep(env, jobs, req, activity, faults).jobs, req)
  {
  }

  /**
   * A pass touches no job but the requested one, adds and removes none, and
   * never changes the requested job's identity or spec.
   */
  lemma OnlyTheRequestedJobChanges(env: Env, jobs: map<ObjectKey, Job>, activities: seq<Activity>,
                                   req: ObjectKey, faults: Faults, now: Time)
    ensures var o := ReconcileStep(env, jobs, activities, req, faults, now);
      && o.jobs.Keys == jobs.Keys
      && (forall k :: k in jobs && k != req ==> o.jobs[k] == jobs[k])
      && (req in jobs ==> o.jobs[req].key == jobs[req].key && o.jobs[req].spec == jobs[req].spec)
      && (KeyedByIdentity(jobs) ==> KeyedByIdentity(o.jobs))
  {
    if !faults.getFails && req in jobs && ServedAgent(jobs[req].spec.agent) && !faults.listFails {
      var items := Correlated(env, jobs, activities, req);
      if |items| == 0 && jobs[req].status.state == Triggered {
        TriggerChangesOnlyRequestedJob(env, jobs, req, now, faults);
      } else if |items| == 1 {
        MirrorChangesOnlyRequestedJob(env, jobs, req, items[0], faults);
      }
      assert ChangesOnly(jobs, DispatchStep(env, jobs, req, items, now, faults).jobs, req);
    }
    assert ChangesOnly(jobs, ReconcileStep(env, jobs, activities, req, faults, now).jobs, req);
  }

  /**
   * A job's activity name changes only at the trigger point, where it moves
   * from Triggered to Pending; mirroring never reassigns it.
   */
  lemma ActivityNameChangesOnlyAtTrigger(env: Env, jobs: map<ObjectKey, Job>, activities: seq<Activity>,
                                         req: ObjectKey, faults: Faults, now: Time)
    requires req in jobs
    requires ReconcileStep(env, jobs, activities, req, faults, now).jobs[req].status.activityName
             != jobs[req].status.activityName
    ensures Triggers(env, jobs, activities, req, faults)
    ensures ReconcileStep(env, jobs, activities, req, faults, now).jobs[req].status.state == Pending
  {
  }

  // ---------------------------------------------------------------------
  // A job without a label map

  /**
   * As written, the label assignment of the mirroring branch panics for a
   * served job that carries no label map and has exactly one activity.
   */
  lemma UnlabelledJobPanicsAsWritten(env: Env, jobs: map<ObjectKey, Job>, activities: seq<Activity>,
                                     req: ObjectKey, faults: Faults)
    requires Mirrors(env, jobs, activities, req, faults) && jobs[req].labels.None?
    ensures AssignBuildLabelAsWritten(jobs[req].labels, Correlated(env, jobs, activities, req)[0].spec.build) == Panicked
  {
  }

  /** With the corrected assignment, such a job is given a label map holding just its build number. */
  lemma UnlabelledJobGetsBuildLabel(env: Env, jobs: map<ObjectKey, Job>, activities: seq<Activity>,
                                    req: ObjectKey, faults: Faults, now: Time)
    requires Mirrors(env, jobs, activities, req, faults) && jobs[req].labels.None? && !faults.updateFails
    ensures var o := ReconcileStep(env, jobs, activities, req, faults, now);
      req in o.jobs && o.jobs[req].labels == Some(map[BuildNumLabel := Correlated(env, jobs, activities, req)[0].spec.build])
  {
    var build := Correlated(env, jobs, activities, req)[0].spec.build;
    var m := SetBuildLabel(jobs[req].labels, build);
    assert m == map[BuildNumLabel := build];
  }

  // ---------------------------------------------------------------------
  // Two passes in the life of a job

  /** Faults none of which happen. */
  const NoFaults := Faults(false, false, false, false, false)

  /**
   * A Triggered job of the served agent without pull requests, whose run the
   * engine creates and applies: a release run on the default branch is
   * started and the job becomes Pending under the run's activity name, with no
   * report URL and no activity yet; the pass returns no error.
   */
  lemma ReleaseRunStarts(env: Env, jobs: map<ObjectKey, Job>, activities: seq<Activity>, req: ObjectKey, now: Time)
    requires req in jobs && jobs[req].spec.agent == JenkinsXAgent && jobs[req].status.state == Triggered
    requires jobs[req].spec.refs.pulls == [] && env.ports.getBranch(jobs[req].spec) == ""
    requires |Correlated(env, jobs, activities, req)| == 0
    requires env.engine.create(PlanLaunch(env, jobs[req].spec).params).Created?
    requires env.engine.apply(env.engine.create(PlanLaunch(env, jobs[req].spec).params).key,
                              env.engine.create(PlanLaunch(env, jobs[req].spec).params).crds)
    ensures var l := PlanLaunch(env, jobs[req].spec);
      var o := ReconcileStep(env, jobs, activities, req, NoFaults, now);
      && l.params.kind == ReleasePipeline && l.summary.branch == "master" && l.summary.pullRefs == "master:"
      && o.err == None && req in o.jobs
      && o.jobs[req].status.state == Pending
      && o.jobs[req].status.activityName == env.ports.toValidName(env.engine.create(l.params).key.name)
      && o.jobs[req].status.startTime == now
      && o.jobs[req].status.reportURL == "" && o.jobs[req].status.activity == None
  {
    LaunchDefaults(env, jobs[req].spec);
    CreatedRunIsRecordedThenApplied(env, jobs, activities, req, NoFaults, now);
  }

  /**
   * A Pending job with one activity, for build 3 of acme/widgets on main,
   * under the base URL https://example.com/ and the team some-team: the job is
   * labelled with build 3 and its status links to the team's page for that
   * build.
   */
  lemma ActivityReportLinksBuild(env: Env, jobs: map<ObjectKey, Job>, activities: seq<Activity>, req: ObjectKey,
                                 now: Time)
    requires req in jobs && jobs[req].spec.agent == JenkinsXAgent && jobs[req].status.state == Pending
    requires |Correlated(env, jobs, activities, req)| == 1
    requires Correlated(env, jobs, activities, req)[0].spec.build == "3"
    requires env.ports.convert(Correlated(env, jobs, activities, req)[0])
             == Some(ActivityRecord("acme", "widgets", "main", "3", ""))
    requires env.config.reportURLBase == "https://example.com" || env.config.reportURLBase == "https://example.com/"
    requires env.config.reportURLTeam == "some-team"
    ensures var o := ReconcileStep(env, jobs, activities, req, NoFaults, now);
      && o.err == None && req in o.jobs
      && o.jobs[req].labels.Some? && o.jobs[req].labels.value[BuildNumLabel] == "3"
      && o.jobs[req].status.reportURL == "https://example.com/teams/some-team/projects/acme/widgets/main/3"
      && o.jobs[req].status.activity == Some(ActivityRecord("acme", "widgets", "main", "3", ""))
      && o.jobs[req].status.state == Pending
  {
    var record := ActivityRecord("acme", "widgets", "main", "3", "");
    ActivityIsMirrored(env, jobs, activities, req, NoFaults, now);
    ExampleReportURL(jobs[req].status.reportURL, env.namespace, record, env.config.reportURLBase);
  }
}
