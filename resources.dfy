/**
 * The two resource kinds the controller sees: a LighthouseJob (read and
 * written) and a PipelineActivity (only read).  Only the fields the
 * reconciler touches are kept.
 */
module Resources {
  import opened Wrappers

  /** Namespace and name of an object; a reconcile request carries one too. */
  datatype ObjectKey = ObjectKey(namespace: string, name: string)

  /** A point in time, as metav1.Now would report it. */
  type Time = int

  /** The agent a job asks for.  Only the first two are served by this controller. */
  datatype Agent = JenkinsXAgent | LegacyDefaultAgent | OtherAgent(name: string)

  /** One pull request to merge before building: its number and head revision. */
  datatype Pull = Pull(number: int, sha: string)

  /** Where the job's source comes from. */
  datatype Refs = Refs(
    org: string,
    repo: string,
    cloneURI: string,
    baseRef: string,
    baseSHA: string,
    pulls: seq<Pull>)

  datatype JobSpec = JobSpec(agent: Agent, refs: Refs, context: string, job: string)

  datatype PipelineState = Triggered | Pending | Running | Succeeded | Failed | Aborted | NoState

  /** The snapshot of an activity that a job's status embeds. */
  datatype ActivityRecord = ActivityRecord(
    owner: string,
    repo: string,
    branch: string,
    buildIdentifier: string,
    context: string)

  datatype JobStatus = JobStatus(
    state: PipelineState,
    activityName: string,
    startTime: Time,
    reportURL: string,
    activity: Option<ActivityRecord>)

  /**
   * A LighthouseJob.  `labels` is None when the object carries no label map
   * at all (a nil map in the source), which is not the same as an empty one.
   */
  datatype Job = Job(
    key: ObjectKey,
    labels: Option<map<string, string>>,
    spec: JobSpec,
    status: JobStatus)

  datatype ActivitySpec = ActivitySpec(
    build: string,
    gitOwner: string,
    gitRepository: string,
    gitBranch: string,
    context: string)

  /** A PipelineActivity. */
  datatype Activity = Activity(key: ObjectKey, spec: ActivitySpec)

  /** The job store is keyed by each job's own identity. */
  ghost predicate KeyedByIdentity(jobs: map<ObjectKey, Job>) {
    forall k :: k in jobs ==> jobs[k].key == k
  }
}
