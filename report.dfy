/**
 * The report URL: the default target-URL template rendered from a job's
 * activity snapshot and the reporting configuration, and the rule that only
 * an http(s) result replaces the job's previous report URL.
 */
module Report {
  import opened Wrappers
  import opened Resources

  /**
   * A target-URL template as the template library sees it: literal text and
   * `{{ .Name }}` references to a field of the rendered data.
   */
  datatype Token = Lit(text: string) | Field(name: string)

  /** The default template, `<base>/teams/<team>/projects/<owner>/<repository>/<branch>/<build>`. */
  const DefaultTargetURLTemplate: seq<Token> := [
    Field("BaseURL"), Lit("/teams/"), Field("Team"), Lit("/projects/"), Field("Owner"), Lit("/"),
    Field("Repository"), Lit("/"), Field("Branch"), Lit("/"), Field("Build")]

  const DefaultPipelineContext := "jenkins-x"

  datatype ReportParams = ReportParams(
    baseURL: string,
    owner: string,
    repository: string,
    branch: string,
    build: string,
    context: string,
    team: string)

  /** The data a template is rendered against: every parameter under its field name. */
  function ParamData(p: ReportParams): map<string, string> {
    map["BaseURL" := p.baseURL, "Owner" := p.owner, "Repository" := p.repository, "Branch" := p.branch,
        "Build" := p.build, "Context" := p.context, "Team" := p.team]
  }

  /** Whether every field a template refers to is present in the data. */
  predicate Resolves(template: seq<Token>, data: map<string, string>) {
    forall i :: 0 <= i < |template| && template[i].Field? ==> template[i].name in data
  }

  function RenderToken(t: Token, data: map<string, string>): Option<string> {
    match t
    case Lit(text) => Some(text)
    case Field(name) => if name in data then Some(data[name]) else None
  }

  /**
   * Strict rendering: each token in turn, failing on a field the data lacks
   * rather than rendering it empty.
   */
  function Render(template: seq<Token>, data: map<string, string>): (r: Option<string>)
    ensures r.Some? <==> Resolves(template, data)
  {
    if |template| == 0 then Some("")
    else
      var rest := Render(template[1..], data);
      assert Resolves(template, data) <==>
             (template[0].Field? ==> template[0].name in data) && Resolves(template[1..], data) by {
        assert forall i :: 1 <= i < |template| ==> template[i] == template[1..][i - 1];
      }
      match RenderToken(template[0], data)
      case None => None
      case Some(head) => if rest.Some? then Some(head + rest.value) else None
  }

  /** Everything the default template renders after "<base>/teams/". */
  function ReportPath(team: string, owner: string, repository: string, branch: string, build: string): string {
    team + ("/projects/" + (owner + ("/" + (repository + ("/" + (branch + ("/" + build)))))))
  }

  /**
   * createReportTargetURL: the template rendered against the parameters, or ""
   * when the template library reports an error, including a field the
   * parameters lack.
   */
  function CreateReportTargetURL(template: seq<Token>, p: ReportParams, renderFails: bool): (url: string)
    ensures renderFails ==> url == ""
    ensures !Resolves(template, ParamData(p)) ==> url == ""
    ensures !renderFails && Resolves(template, ParamData(p)) ==> Render(template, ParamData(p)) == Some(url)
  {
    if renderFails then ""
    else
      match Render(template, ParamData(p))
      case None => ""
      case Some(text) => text
  }

  /** Rendering a template one token at a time, from position `i` on. */
  lemma RenderFrom(template: seq<Token>, data: map<string, string>, i: nat, head: string, rest: string)
    requires i < |template|
    requires RenderToken(template[i], data) == Some(head) && Render(template[i + 1..], data) == Some(rest)
    ensures Render(template[i..], data) == Some(head + rest)
  {
    assert template[i..][0] == template[i];
    assert template[i..][1..] == template[i + 1..];
  }

  /** The data holds each parameter under its field name. */
  lemma ParamDataFields(p: ReportParams)
    ensures var d := ParamData(p);
      && RenderToken(Field("BaseURL"), d) == Some(p.baseURL) && RenderToken(Field("Team"), d) == Some(p.team)
      && RenderToken(Field("Owner"), d) == Some(p.owner) && RenderToken(Field("Repository"), d) == Some(p.repository)
      && RenderToken(Field("Branch"), d) == Some(p.branch) && RenderToken(Field("Build"), d) == Some(p.build)
      && RenderToken(Field("Context"), d) == Some(p.context)
  {
  }

  /** The default template renders to the documented path under the base URL. */
  lemma DefaultTemplateRenders(p: ReportParams)
    ensures CreateReportTargetURL(DefaultTargetURLTemplate, p, false)
         == p.baseURL + "/teams/" + ReportPath(p.team, p.owner, p.repository, p.branch, p.build)
  {
    ParamDataFields(p);
    RenderPath(DefaultTargetURLTemplate, ParamData(p), p);
    RenderBase(DefaultTargetURLTemplate, ParamData(p), p);
  }

  /** The tail of the default template, from the team on, renders to the report path. */
  lemma RenderPath(t: seq<Token>, d: map<string, string>, p: ReportParams)
    requires |t| == 11
    requires t[2] == Field("Team") && t[3] == Lit("/projects/") && t[4] == Field("Owner") && t[5] == Lit("/")
    requires t[6] == Field("Repository") && t[7] == Lit("/") && t[8] == Field("Branch") && t[9] == Lit("/")
    requires t[10] == Field("Build")
    requires RenderToken(Field("Team"), d) == Some(p.team) && RenderToken(Field("Owner"), d) == Some(p.owner)
    requires RenderToken(Field("Repository"), d) == Some(p.repository)
    requires RenderToken(Field("Branch"), d) == Some(p.branch) && RenderToken(Field("Build"), d) == Some(p.build)
    ensures Render(t[2..], d) == Some(ReportPath(p.team, p.owner, p.repository, p.branch, p.build))
  {
    assert t[11..] == [];
    assert p.build + "" == p.build;
    RenderFrom(t, d, 10, p.build, "");
    var s9 := "/" + p.build;
    RenderFrom(t, d, 9, "/", p.build);
    var s8 := p.branch + s9;
    RenderFrom(t, d, 8, p.branch, s9);
    var s7 := "/" + s8;
    RenderFrom(t, d, 7, "/", s8);
    var s6 := p.repository + s7;
    RenderFrom(t, d, 6, p.repository, s7);
    var s5 := "/" + s6;
    RenderFrom(t, d, 5, "/", s6);
    var s4 := p.owner + s5;
    RenderFrom(t, d, 4, p.owner, s5);
    var s3 := "/projects/" + s4;
    RenderFrom(t, d, 3, "/projects/", s4);
    RenderFrom(t, d, 2, p.team, s3);
  }

  /** The head of the default template puts the base URL and "/teams/" before the path. */
  lemma RenderBase(t: seq<Token>, d: map<string, string>, p: ReportParams)
    requires |t| == 11 && t[0] == Field("BaseURL") && t[1] == Lit("/teams/")
    requires RenderToken(Field("BaseURL"), d) == Some(p.baseURL)
    requires Render(t[2..], d) == Some(ReportPath(p.team, p.owner, p.repository, p.branch, p.build))
    ensures Render(t, d) == Some(p.baseURL + "/teams/" + ReportPath(p.team, p.owner, p.repository, p.branch, p.build))
  {
    var path := ReportPath(p.team, p.owner, p.repository, p.branch, p.build);
    RenderFrom(t, d, 1, "/teams/", path);
    RenderFrom(t, d, 0, p.baseURL, "/teams/" + path);
    assert t[0..] == t;
    assert p.baseURL + ("/teams/" + path) == p.baseURL + "/teams/" + path;
  }

  /** Strict mode: a template that names a field the parameters do not have renders nothing. */
  lemma UnknownFieldRendersNothing(template: seq<Token>, p: ReportParams, renderFails: bool, i: nat)
    requires i < |template| && template[i].Field?
    requires template[i].name !in {"BaseURL", "Owner", "Repository", "Branch", "Build", "Context", "Team"}
    ensures CreateReportTargetURL(template, p, renderFails) == ""
  {
    assert template[i].name !in ParamData(p);
  }

  /** strings.TrimRight(s, "/"): drops every trailing slash and nothing else. */
  function TrimRightSlashes(s: string): (r: string)
    ensures r <= s
    ensures r == [] || r[|r| - 1] != '/'
    ensures forall i :: |r| <= i < |s| ==> s[i] == '/'
  {
    if s != [] && s[|s| - 1] == '/' then TrimRightSlashes(s[..|s| - 1]) else s
  }

  /** strings.HasPrefix(s, "http://") || strings.HasPrefix(s, "https://"), spelled out character by character. */
  predicate HasHTTPScheme(s: string): (b: bool)
    ensures b <==> |s| >= 7 && s[..4] == "http"
                   && (s[4..7] == "://" || (|s| >= 8 && s[4..8] == "s://"))
  {
    "http://" <= s || "https://" <= s
  }

  /** The team in the URL: the override when it is set, else the controller's namespace. */
  function ReportTeam(namespace: string, teamOverride: string): (team: string)
    ensures teamOverride != "" ==> team == teamOverride
    ensures teamOverride == "" ==> team == namespace
  {
    if teamOverride != "" then teamOverride else namespace
  }

  /** The parameters rendered for an activity snapshot. */
  function ReportParamsFor(record: ActivityRecord, urlBase: string, team: string): (p: ReportParams)
    ensures p.baseURL == TrimRightSlashes(urlBase) && p.team == team
    ensures p.owner == record.owner && p.repository == record.repo
    ensures p.branch == record.branch && p.build == record.buildIdentifier
    ensures p.context != ""
    ensures record.context != "" ==> p.context == record.context
    ensures record.context == "" ==> p.context == DefaultPipelineContext
  {
    ReportParams(
      TrimRightSlashes(urlBase),
      record.owner,
      record.repo,
      record.branch,
      record.buildIdentifier,
      if record.context == "" then DefaultPipelineContext else record.context,
      team)
  }

  /**
   * The report URL a job carries after its status is mirrored: the rendered
   * URL when reporting is configured and the result is an http(s) link,
   * otherwise the previous one.
   */
  function NextReportURL(previous: string, record: ActivityRecord, urlBase: string, teamOverride: string,
                         namespace: string, renderFails: bool): (url: string)
    ensures url == previous || HasHTTPScheme(url)
    ensures urlBase == "" ==> url == previous
  {
    if urlBase == "" then previous
    else
      var target := CreateReportTargetURL(DefaultTargetURLTemplate,
        ReportParamsFor(record, urlBase, ReportTeam(namespace, teamOverride)), renderFails);
      if HasHTTPScheme(target) then target else previous
  }

  /**
   * A scheme prefix ending in "//" with no other slash, such as "http://",
   * starts `t + "/teams/" + tail` exactly when it starts `t`, provided `t`
   * does not end in a slash.
   */
  lemma {:induction false} SchemeThroughSeparator(scheme: string, t: string, tail: string)
    requires |scheme| >= 2 && scheme[|scheme| - 1] == '/' && scheme[|scheme| - 2] == '/'
    requires forall i :: 0 <= i < |scheme| - 2 ==> scheme[i] != '/'
    requires t == [] || t[|t| - 1] != '/'
    ensures scheme <= t + "/teams/" + tail <==> scheme <= t
  {
    var u := t + "/teams/" + tail;
    assert u[|t|] == '/' && u[|t| + 1] == 't';
    assert forall i :: 0 <= i < |t| ==> u[i] == t[i];
    if scheme <= u && |t| < |scheme| {
      assert false;
    }
    if scheme <= t {
      assert u[..|scheme|] == t[..|scheme|];
    }
  }

  /**
   * Whether reporting replaces the previous URL depends only on the
   * configuration: a base URL is set, rendering succeeds, and the base with
   * its trailing slashes trimmed already starts with http:// or https://.
   * When it does, the URL is the documented path under that base.
   */
  lemma ReportURLAccepted(previous: string, record: ActivityRecord, urlBase: string, teamOverride: string,
                          namespace: string, renderFails: bool)
    ensures var accepted := urlBase != "" && !renderFails && HasHTTPScheme(TrimRightSlashes(urlBase));
      NextReportURL(previous, record, urlBase, teamOverride, namespace, renderFails)
      == if accepted
         then TrimRightSlashes(urlBase) + "/teams/"
              + ReportPath(ReportTeam(namespace, teamOverride), record.owner, record.repo, record.branch, record.buildIdentifier)
         else previous
  {
    if urlBase != "" && !renderFails {
      var t := TrimRightSlashes(urlBase);
      var team := ReportTeam(namespace, teamOverride);
      var tail := ReportPath(team, record.owner, record.repo, record.branch, record.buildIdentifier);
      var p := ReportParamsFor(record, urlBase, team);
      assert ReportPath(p.team, p.owner, p.repository, p.branch, p.build) == tail;
      DefaultTemplateRenders(p);
      SchemeThroughSeparator("http://", t, tail);
      SchemeThroughSeparator("https://", t, tail);
    }
  }

  /** The pipeline context is defaulted for rendering only: the default template never shows it. */
  lemma ContextDoesNotReachURL(p: ReportParams, context: string, renderFails: bool)
    ensures CreateReportTargetURL(DefaultTargetURLTemplate, p, renderFails)
         == CreateReportTargetURL(DefaultTargetURLTemplate, p.(context := context), renderFails)
  {
    DefaultTemplateRenders(p);
    DefaultTemplateRenders(p.(context := context));
  }

  /** A failed render yields "", which is never accepted: the previous URL stays. */
  lemma FailedRenderKeepsPrevious(previous: string, record: ActivityRecord, urlBase: string,
                                  teamOverride: string, namespace: string)
    ensures NextReportURL(previous, record, urlBase, teamOverride, namespace, true) == previous
  {
  }

  /**
   * The worked example: base https://example.com, with or without a trailing
   * slash, team some-team, build 3 of acme/widgets on branch main.
   */
  lemma ExampleReportURL(previous: string, namespace: string, record: ActivityRecord, urlBase: string)
    requires record == ActivityRecord("acme", "widgets", "main", "3", "")
    requires urlBase == "https://example.com" || urlBase == "https://example.com/"
    ensures NextReportURL(previous, record, urlBase, "some-team", namespace, false)
         == "https://example.com/teams/some-team/projects/acme/widgets/main/3"
  {
    ExampleBaseTrimmed();
    ReportURLAccepted(previous, record, urlBase, "some-team", namespace, false);
    ExamplePath();
    ExampleJoin();
  }

  lemma ExampleJoin()
    ensures "https://example.com" + "/teams/" == "https://example.com/teams/"
    ensures "https://example.com/teams/" + "some-team/projects/acme/widgets/main/3"
         == "https://example.com/teams/some-team/projects/acme/widgets/main/3"
  {
  }

  lemma ExampleBaseTrimmed()
    ensures TrimRightSlashes("https://example.com/") == "https://example.com"
    ensures TrimRightSlashes("https://example.com") == "https://example.com"
    ensures HasHTTPScheme("https://example.com")
  {
    var base := "https://example.com/";
    assert base[..|base| - 1] == "https://example.com";
    assert "https://example.com"[..4] == "http";
    assert "https://example.com"[4..8] == "s://";
  }

  lemma ExamplePath()
    ensures ReportPath("some-team", "acme", "widgets", "main", "3") == "some-team/projects/acme/widgets/main/3"
  {
    ExampleRepoPath();
    ExampleOwnerPath();
    assert "some-team" + "/projects/acme/widgets/main/3" == "some-team/projects/acme/widgets/main/3";
  }

  lemma ExampleOwnerPath()
    ensures "/projects/" + ("acme" + "/widgets/main/3") == "/projects/acme/widgets/main/3"
  {
    assert "acme" + "/widgets/main/3" == "acme/widgets/main/3";
  }

  lemma ExampleRepoPath()
    ensures "/" + ("widgets" + ("/" + ("main" + ("/" + "3")))) == "/widgets/main/3"
  {
    assert "/" + "3" == "/3";
    assert "main" + "/3" == "main/3";
    assert "/" + "main/3" == "/main/3";
    assert "widgets" + "/main/3" == "widgets/main/3";
  }
}
