/**
 * Translating a job into the pipeline engine's creation parameters: the
 * pull-request list, the run kind, the defaults for branch, pull-ref
 * descriptor and service account, and the boundary of the engine itself.
 */
module Trigger {
  import opened Resources
  import Decimal
  import opened Wrappers

  /** One pull request as the engine sees it: ID is the decimal number. */
  datatype PullRequestRef = PullRequestRef(id: string, mergeSHA: string)

  datatype PullRef = PullRef(
    sourceURL: string,
    baseBranch: string,
    baseSHA: string,
    pullRequests: seq<PullRequestRef>)

  datatype PipelineKind = ReleasePipeline | PullRequestPipeline

  datatype CreateParams = CreateParams(
    pullRef: PullRef,
    kind: PipelineKind,
    context: string,
    serviceAccount: string,
    defaultImage: string,
    envVariables: map<string, string>)

  /** The fields logged just before the engine is asked to create a run. */
  datatype LaunchSummary = LaunchSummary(
    owner: string,
    name: string,
    sourceURL: string,
    branch: string,
    pullRefs: string,
    job: string)

  /** The identity of the activity the engine will record the run under. */
  datatype ActivityKey = ActivityKey(name: string)

  /** The rendered pipeline resources, opaque to the controller. */
  datatype Crds = Crds(manifests: seq<string>)

  datatype CreateResult = Created(key: ActivityKey, crds: Crds) | CreateFailed

  /**
   * The pipeline engine: `create` either yields an activity key and the
   * resources to apply, or fails; `apply` reports whether it succeeded.
   */
  datatype Engine = Engine(create: CreateParams -> CreateResult, apply: (ActivityKey, Crds) -> bool)

  const DefaultBranch := "master"
  const DefaultServiceAccount := "tekton-bot"

  /** One pull as the engine sees it: an ID that reads back as its number, and its revision. */
  function ToPullRequestRef(p: Pull): (r: PullRequestRef)
    ensures Decimal.Atoi(r.id) == Some(p.number) && r.mergeSHA == p.sha
  {
    Decimal.ItoaRoundTrip(p.number);
    PullRequestRef(Decimal.Itoa(p.number), p.sha)
  }

  /** Every pull, in order, as the engine's (ID, merge revision) pair. */
  function PullRequestRefs(pulls: seq<Pull>): (prs: seq<PullRequestRef>)
    ensures |prs| == |pulls|
    ensures forall i :: 0 <= i < |pulls| ==> prs[i] == ToPullRequestRef(pulls[i])
  {
    seq(|pulls|, i requires 0 <= i < |pulls| => ToPullRequestRef(pulls[i]))
  }

  /** The pull reference for a job: base branch and revision unchanged, plus its pull requests. */
  function PullRefFor(sourceURL: string, spec: JobSpec): (r: PullRef)
    ensures r.sourceURL == sourceURL && r.baseBranch == spec.refs.baseRef && r.baseSHA == spec.refs.baseSHA
    ensures |r.pullRequests| == |spec.refs.pulls|
    ensures forall i :: 0 <= i < |spec.refs.pulls| ==>
              Decimal.Atoi(r.pullRequests[i].id) == Some(spec.refs.pulls[i].number)
              && r.pullRequests[i].mergeSHA == spec.refs.pulls[i].sha
  {
    PullRef(sourceURL, spec.refs.baseRef, spec.refs.baseSHA, PullRequestRefs(spec.refs.pulls))
  }

  /** getPullRefs: builds the pull-request list by appending, one pull at a time. */
  method GetPullRefs(sourceURL: string, spec: JobSpec) returns (pullRef: PullRef)
    ensures pullRef.sourceURL == sourceURL
    ensures pullRef.baseBranch == spec.refs.baseRef && pullRef.baseSHA == spec.refs.baseSHA
    ensures pullRef.pullRequests == PullRequestRefs(spec.refs.pulls)
  {
    var pulls := spec.refs.pulls;
    if |pulls| > 0 {
      var prs: seq<PullRequestRef> := [];
      var i := 0;
      while i < |pulls|
        invariant 0 <= i <= |pulls|
        invariant |prs| == i
        invariant forall j :: 0 <= j < i ==> prs[j] == ToPullRequestRef(pulls[j])
      {
        prs := prs + [PullRequestRef(Decimal.Itoa(pulls[i].number), pulls[i].sha)];
        i := i + 1;
      }
      pullRef := PullRef(sourceURL, spec.refs.baseRef, spec.refs.baseSHA, prs);
    } else {
      pullRef := PullRef(sourceURL, spec.refs.baseRef, spec.refs.baseSHA, []);
    }
  }

  /** Every ID handed to the engine reads back as the pull request's number. */
  lemma PullRequestIdsRoundTrip(pulls: seq<Pull>, i: int)
    requires 0 <= i < |pulls|
    ensures Decimal.Atoi(PullRequestRefs(pulls)[i].id) == Some(pulls[i].number)
    ensures PullRequestRefs(pulls)[i].mergeSHA == pulls[i].sha
  {
    Decimal.ItoaRoundTrip(pulls[i].number);
  }

  /** A run merges pull requests exactly when the job lists any. */
  function RunKind(pulls: seq<Pull>): (kind: PipelineKind)
    ensures kind == PullRequestPipeline <==> |pulls| > 0
    ensures kind == ReleasePipeline <==> |pulls| == 0
  {
    if |pulls| > 0 then PullRequestPipeline else ReleasePipeline
  }

  /** The branch to report: the job's branch, or "master" when it has none. */
  function BranchOrDefault(branch: string): (b: string)
    ensures b != ""
    ensures branch != "" ==> b == branch
    ensures branch == "" ==> b == DefaultBranch
  {
    if branch == "" then DefaultBranch else branch
  }

  /**
   * The pull-ref descriptor: the engine's rendering of the pull reference when
   * there are pull requests and it is non-empty, otherwise "<branch>:".
   */
  function PullRefsDescriptor(rendered: string, branch: string, hasPulls: bool): (d: string)
    ensures d != ""
    ensures hasPulls && rendered != "" ==> d == rendered
    ensures hasPulls && rendered == "" ==> d == branch + ":"
    ensures !hasPulls ==> d == branch + ":"
  {
    var fromPulls := if hasPulls then rendered else "";
    if fromPulls == "" then branch + ":" else fromPulls
  }

  /** The service account the run uses: the configured one, or "tekton-bot". */
  function ServiceAccountOrDefault(configured: string): (sa: string)
    ensures sa != ""
    ensures configured != "" ==> sa == configured
    ensures configured == "" ==> sa == DefaultServiceAccount
  {
    if configured == "" then DefaultServiceAccount else configured
  }
}
