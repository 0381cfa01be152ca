/**
 * The Azure DevOps tools and HTTP routes of the Flask blueprint: the
 * configuration gate every Azure DevOps tool and `/projects` apply before
 * touching the network, the request URLs they build (API version 7.1), the assembly of
 * build logs, the validation of `/chat` and the report of `/config`.
 */
module AgentRoutes {
  import opened Wrappers
  import opened Text
  import opened Http
  import opened Seqs
  import TimelineLogs

  const ApiVersion: string := "7.1"
  const DefaultBuildsTop: int := 5
  const DefaultDefinitionsTop: int := 10
  const NotConfiguredMessage: string := "Azure DevOps configuration not found"

  /** The environment the blueprint reads once at import time. */
  datatype Settings = Settings(orgUrl: Option<string>, pat: Option<string>,
                               openAiEndpoint: Option<string>, openAiKey: Option<string>)

  /** `AZURE_DEVOPS_ORG_URL and AZURE_DEVOPS_PAT`. */
  predicate DevOpsConfigured(s: Settings)
  {
    Truthy(s.orgUrl) && Truthy(s.pat)
  }

  /** One GET whose JSON body is passed on; a URL without a scheme and
      `raise_for_status` errors become an error object with the tool's
      prefix. */
  function GetJson(req: Request, fetch: Fetch, errorPrefix: string): (t: Traced<Json>)
    ensures SchemeMissing(req.url) ==>
      t == Traced(ErrorObject(errorPrefix + MissingSchemaText(req.url)), [])
    ensures !SchemeMissing(req.url) ==> t.requests == [req]
    ensures !SchemeMissing(req.url) ==> (RaisesForStatus(fetch(req).status) <==> t.value.ErrorObject?)
    ensures !SchemeMissing(req.url) && t.value.Body? ==> t.value.text == fetch(req).text
    ensures !SchemeMissing(req.url) && t.value.ErrorObject? ==>
      t.value.error == errorPrefix + HttpErrorText(fetch(req))
  {
    if SchemeMissing(req.url) then Traced(ErrorObject(errorPrefix + MissingSchemaText(req.url)), [])
    else
      var resp := fetch(req);
      if RaisesForStatus(resp.status) then Traced(ErrorObject(errorPrefix + HttpErrorText(resp)), [req])
      else Traced(Body(resp.text), [req])
  }

  /* ---------------------------------------------------------------------- */
  /* URL builders                                                           */
  /* ---------------------------------------------------------------------- */

  /** The URL of `list_builds`. */
  function ListBuildsUrl(org: string, project: string, definitionId: Option<int>,
                         statusFilter: Option<string>, top: int): string
  {
    var base := org + "/" + project + "/_apis/build/builds?api-version=" + ApiVersion;
    var withDefinition :=
      if TruthyInt(definitionId) then base + "&definitions=" + IntToString(definitionId.value) else base;
    var withStatus :=
      if Truthy(statusFilter) then withDefinition + "&statusFilter=" + statusFilter.value else withDefinition;
    withStatus + "&$top=" + IntToString(top)
  }

  /** The URL of `get_pipeline_definitions`. (The literal is broken at
      `?` only to spare the solver when the URL is split into path and
      query.) */
  function DefinitionsUrl(org: string, project: string, top: int): string
  {
    org + "/" + project + "/_apis/build/definitions" + "?api-version=" + ApiVersion + "&$top=" + IntToString(top)
  }

  /** The URL of the `/projects` route: organisation-wide, no project. */
  function ProjectsUrl(org: string): string
  {
    org + "/_apis/projects?api-version=" + ApiVersion
  }

  /** The URL listing a build's logs in `get_build_logs`. */
  function BuildLogsUrl(org: string, project: string, buildId: int): string
  {
    org + "/" + project + "/_apis/build/builds/" + IntToString(buildId) + "/logs?api-version=" + ApiVersion
  }

  /** The query parameters `list_builds` sends, in order: the API version,
      `definitions` only for a non-zero definition id, `statusFilter` only
      for a non-empty filter, and `$top` always. */
  function ListBuildsParams(definitionId: Option<int>, statusFilter: Option<string>, top: int): seq<string>
  {
    ["api-version=" + ApiVersion]
    + (if TruthyInt(definitionId) then ["definitions=" + IntToString(definitionId.value)] else [])
    + (if Truthy(statusFilter) then ["statusFilter=" + statusFilter.value] else [])
    + ["$top=" + IntToString(top)]
  }

  /** Adding one `&name=value` parameter to a URL of the shape
      path `?` joined parameters keeps that shape. */
  lemma AppendParam(path: string, params: seq<string>, ampName: string, value: string)
    requires |params| >= 1 && |ampName| >= 1 && ampName[0] == '&'
    ensures path + "?" + Join(params, "&") + ampName + value
      == path + "?" + Join(params + [ampName[1..] + value], "&")
  {
    JoinSnoc(params, ampName[1..] + value, "&");
    Regroup(path + "?", Join(params, "&"), ampName, value);
  }

  /** Moving the `&` of an appended parameter into the joined query. */
  lemma Regroup(prefix: string, joined: string, ampName: string, value: string)
    requires |ampName| >= 1 && ampName[0] == '&'
    ensures prefix + joined + ampName + value == prefix + (joined + "&" + (ampName[1..] + value))
  {
    assert ampName == "&" + ampName[1..];
  }

  /** The `list_builds` URL is its builds path, `?`, and its parameters
      joined with `&`. */
  lemma ListBuildsUrlShape(org: string, project: string, definitionId: Option<int>,
                           statusFilter: Option<string>, top: int)
    ensures ListBuildsUrl(org, project, definitionId, statusFilter, top)
      == org + "/" + project + "/_apis/build/builds" + "?" + Join(ListBuildsParams(definitionId, statusFilter, top), "&")
  {
    var path := org + "/" + project + "/_apis/build/builds";
    var version := "api-version=" + ApiVersion;
    var u0 := org + "/" + project + "/_apis/build/builds?api-version=" + ApiVersion;
    assert "/_apis/build/builds?api-version=" == "/_apis/build/builds" + "?" + "api-version=";
    assert u0 == path + "?" + Join([version], "&");
    var p1 := [version] + (if TruthyInt(definitionId) then ["definitions=" + IntToString(definitionId.value)] else []);
    var u1 := if TruthyInt(definitionId) then u0 + "&definitions=" + IntToString(definitionId.value) else u0;
    if TruthyInt(definitionId) {
      AppendParam(path, [version], "&definitions=", IntToString(definitionId.value));
      assert "&definitions="[1..] == "definitions=";
    } else {
      assert p1 == [version];
    }
    assert u1 == path + "?" + Join(p1, "&");
    var p2 := p1 + (if Truthy(statusFilter) then ["statusFilter=" + statusFilter.value] else []);
    var u2 := if Truthy(statusFilter) then u1 + "&statusFilter=" + statusFilter.value else u1;
    if Truthy(statusFilter) {
      AppendParam(path, p1, "&statusFilter=", statusFilter.value);
      assert "&statusFilter="[1..] == "statusFilter=";
    } else {
      assert p2 == p1;
    }
    assert u2 == path + "?" + Join(p2, "&");
    AppendParam(path, p2, "&$top=", IntToString(top));
    assert "&$top="[1..] == "$top=";
    assert p2 + ["$top=" + IntToString(top)] == ListBuildsParams(definitionId, statusFilter, top);
  }

  /** Decoding the `list_builds` URL gives the builds path of the project
      and exactly the parameters above. */
  lemma ListBuildsUrlParams(org: string, project: string, definitionId: Option<int>,
                            statusFilter: Option<string>, top: int)
    requires '?' !in org && '?' !in project
    requires statusFilter.Some? ==> '?' !in statusFilter.value && '&' !in statusFilter.value
    ensures QueryParams(ListBuildsUrl(org, project, definitionId, statusFilter, top))
      == Some((org + "/" + project + "/_apis/build/builds", ListBuildsParams(definitionId, statusFilter, top)))
  {
    var path := org + "/" + project + "/_apis/build/builds";
    ListBuildsParamsPlain(definitionId, statusFilter, top);
    ListBuildsUrlShape(org, project, definitionId, statusFilter, top);
    QueryParamsOfJoin(path, ListBuildsParams(definitionId, statusFilter, top));
  }

  /** A query parameter free of the URL's own delimiters. */
  predicate PlainParam(p: string)
  {
    '?' !in p && '&' !in p
  }

  /** A parameter name followed by a delimiter-free value is plain. */
  lemma NamedParamPlain(name: string, value: string)
    requires PlainParam(name) && PlainParam(value)
    ensures PlainParam(name + value)
  {
  }

  /** Every parameter of a list is plain. */
  ghost predicate AllPlain(params: seq<string>)
  {
    forall k :: 0 <= k < |params| ==> PlainParam(params[k])
  }

  /** Concatenating lists of plain parameters keeps them plain. */
  lemma AllPlainAppend(a: seq<string>, b: seq<string>)
    requires AllPlain(a) && AllPlain(b)
    ensures AllPlain(a + b)
  {
    forall k | 0 <= k < |a + b| ensures PlainParam((a + b)[k]) {
      if k >= |a| {
        assert (a + b)[k] == b[k - |a|];
      }
    }
  }

  /** The fixed parameter names of `list_builds` are plain. */
  lemma ListBuildsNamesPlain()
    ensures PlainParam("api-version=" + ApiVersion)
    ensures PlainParam("definitions=") && PlainParam("statusFilter=") && PlainParam("$top=")
  {
  }

  /** A parameter name followed by a rendered integer is plain. */
  lemma IntParamPlain(name: string, i: int)
    requires PlainParam(name)
    ensures PlainParam(name + IntToString(i))
  {
    IntToStringHasNoDelimiters(i);
    NamedParamPlain(name, IntToString(i));
  }

  /** No `list_builds` parameter holds a `?` or an `&` of its own. */
  lemma ListBuildsParamsPlain(definitionId: Option<int>, statusFilter: Option<string>, top: int)
    requires statusFilter.Some? ==> PlainParam(statusFilter.value)
    ensures var params := ListBuildsParams(definitionId, statusFilter, top);
      |params| >= 1 && forall k :: 0 <= k < |params| ==> '?' !in params[k] && '&' !in params[k]
  {
    ListBuildsNamesPlain();
    var defs: seq<string> := if TruthyInt(definitionId) then ["definitions=" + IntToString(definitionId.value)] else [];
    if TruthyInt(definitionId) {
      IntParamPlain("definitions=", definitionId.value);
    }
    var filters: seq<string> := if Truthy(statusFilter) then ["statusFilter=" + statusFilter.value] else [];
    if Truthy(statusFilter) {
      NamedParamPlain("statusFilter=", statusFilter.value);
    }
    IntParamPlain("$top=", top);
    var head := ["api-version=" + ApiVersion];
    var tail := ["$top=" + IntToString(top)];
    assert AllPlain(head) && AllPlain(defs) && AllPlain(filters) && AllPlain(tail);
    AllPlainAppend(head, defs);
    AllPlainAppend(head + defs, filters);
    AllPlainAppend(head + defs + filters, tail);
    assert head + defs + filters + tail == ListBuildsParams(definitionId, statusFilter, top);
  }

  /** `definitions` is sent exactly for a non-zero definition id, and
      `statusFilter` exactly for a non-empty filter. */
  lemma ListBuildsOptionalParams(definitionId: Option<int>, statusFilter: Option<string>, top: int)
    ensures var params := ListBuildsParams(definitionId, statusFilter, top);
      && (TruthyInt(definitionId) <==> exists k :: 0 <= k < |params| && StartsWith(params[k], "definitions="))
      && (Truthy(statusFilter) <==> exists k :: 0 <= k < |params| && StartsWith(params[k], "statusFilter="))
  {
    var params := ListBuildsParams(definitionId, statusFilter, top);
    var version := "api-version=" + ApiVersion;
    var topParam := "$top=" + IntToString(top);
    assert params[0] == version && params[|params| - 1] == topParam;
    DiffersAt(version, "definitions=", 0);
    DiffersAt(version, "statusFilter=", 0);
    DiffersAt(topParam, "definitions=", 0);
    DiffersAt(topParam, "statusFilter=", 0);
    if TruthyInt(definitionId) {
      var d := "definitions=" + IntToString(definitionId.value);
      DiffersAt(d, "statusFilter=", 0);
      assert params[1] == d;
    }
    if Truthy(statusFilter) {
      var f := "statusFilter=" + statusFilter.value;
      DiffersAt(f, "definitions=", 0);
      assert params[|params| - 2] == f;
    }
  }

  /** `get_pipeline_definitions` always sends the API version then `$top`,
      under the project's definitions path. */
  lemma DefinitionsUrlParams(org: string, project: string, top: int)
    requires '?' !in org && '?' !in project
    ensures QueryParams(DefinitionsUrl(org, project, top))
      == Some((org + "/" + project + "/_apis/build/definitions",
               ["api-version=" + ApiVersion, "$top=" + IntToString(top)]))
  {
    var path := org + "/" + project + "/_apis/build/definitions";
    var version := "api-version=" + ApiVersion;
    var topParam := "$top=" + IntToString(top);
    var params := [version, topParam];
    ListBuildsNamesPlain();
    IntParamPlain("$top=", top);
    assert AllPlain(params);
    assert Join(params, "&") == version + "&" + topParam by {
      assert params == [version] + [topParam];
      JoinCons(version, [topParam], "&");
    }
    DefinitionsUrlShape(org, project, top);
    QueryParamsOfJoin(path, params);
  }

  /** The definitions URL is its path, `?`, the API version, `&` and `$top`. */
  lemma DefinitionsUrlShape(org: string, project: string, top: int)
    ensures DefinitionsUrl(org, project, top)
      == org + "/" + project + "/_apis/build/definitions" + "?"
         + (("api-version=" + ApiVersion) + "&" + ("$top=" + IntToString(top)))
  {
    assert "?api-version=" == "?" + "api-version=";
    assert "&$top=" == "&" + "$top=";
  }


  /** The project listing is addressed at the organisation, with the API
      version as its only parameter. */
  lemma ProjectsUrlParams(org: string)
    requires '?' !in org
    ensures QueryParams(ProjectsUrl(org)) == Some((org + "/_apis/projects", ["api-version=" + ApiVersion]))
  {
    var path := org + "/_apis/projects";
    assert ProjectsUrl(org) == path + "?" + Join(["api-version=" + ApiVersion], "&");
    QueryParamsOfJoin(path, ["api-version=" + ApiVersion]);
  }

  /** Called with the project alone, `list_builds` takes its default
      `top` of 5: the URL carries the API version and `$top=5`, nothing
      else. */
  lemma ListBuildsDefaults(org: string, project: string)
    requires '?' !in org && '?' !in project
    ensures QueryParams(ListBuildsUrl(org, project, None, None, DefaultBuildsTop))
      == Some((org + "/" + project + "/_apis/build/builds", ["api-version=" + ApiVersion, "$top=5"]))
  {
    ListBuildsUrlParams(org, project, None, None, DefaultBuildsTop);
    assert IntToString(DefaultBuildsTop) == "5";
    var top := "$top=" + IntToString(DefaultBuildsTop);
    assert top == "$top=5";
    assert ListBuildsParams(None, None, DefaultBuildsTop) == ["api-version=" + ApiVersion] + [] + [] + [top];
    assert ListBuildsParams(None, None, DefaultBuildsTop) == ["api-version=" + ApiVersion, "$top=5"];
  }

  /** Called with the project alone, `get_pipeline_definitions` asks for
      its default of 10 definitions. */
  lemma DefinitionsDefaults(org: string, project: string)
    requires '?' !in org && '?' !in project
    ensures QueryParams(DefinitionsUrl(org, project, DefaultDefinitionsTop))
      == Some((org + "/" + project + "/_apis/build/definitions", ["api-version=" + ApiVersion, "$top=10"]))
  {
    DefinitionsUrlParams(org, project, DefaultDefinitionsTop);
    assert NatToString(1) == "1";
    assert IntToString(DefaultDefinitionsTop) == "10";
    assert "$top=" + IntToString(DefaultDefinitionsTop) == "$top=10";
  }

  /* ---------------------------------------------------------------------- */
  /* tools                                                                  */
  /* ---------------------------------------------------------------------- */

  const BuildsErrorPrefix: string := "Failed to fetch builds: "
  const DefinitionsErrorPrefix: string := "Failed to fetch pipeline definitions: "
  const ProjectsErrorPrefix: string := "Failed to fetch projects: "

  /** `list_builds`: refused without configuration; with it, one request
      whose decoded body is the reply, or an error object naming why
      nothing usable came back. */
  function ListBuilds(s: Settings, project: string, definitionId: Option<int>, statusFilter: Option<string>,
                      top: int, fetch: Fetch): (t: Traced<Json>)
    ensures !DevOpsConfigured(s) ==> t == Traced(ErrorObject(NotConfiguredMessage), [])
    ensures DevOpsConfigured(s) ==>
      var req := Request(ListBuildsUrl(s.orgUrl.value, project, definitionId, statusFilter, top), s.pat);
      (SchemeMissing(req.url) ==> t == Traced(ErrorObject(BuildsErrorPrefix + MissingSchemaText(req.url)), []))
      && (!SchemeMissing(req.url) ==>
            t.requests == [req]
            && (RaisesForStatus(fetch(req).status) ==>
                  t.value == ErrorObject(BuildsErrorPrefix + HttpErrorText(fetch(req))))
            && (!RaisesForStatus(fetch(req).status) ==> t.value == Body(fetch(req).text)))
  {
    if !DevOpsConfigured(s) then Traced(ErrorObject(NotConfiguredMessage), [])
    else
      var url := ListBuildsUrl(s.orgUrl.value, project, definitionId, statusFilter, top);
      GetJson(Request(url, s.pat), fetch, BuildsErrorPrefix)
  }

  /** `get_pipeline_definitions`: refused without configuration; with it,
      one request whose decoded body is the reply, or an error object. */
  function GetPipelineDefinitions(s: Settings, project: string, top: int, fetch: Fetch): (t: Traced<Json>)
    ensures !DevOpsConfigured(s) ==> t == Traced(ErrorObject(NotConfiguredMessage), [])
    ensures DevOpsConfigured(s) ==>
      var req := Request(DefinitionsUrl(s.orgUrl.value, project, top), s.pat);
      (SchemeMissing(req.url) ==> t == Traced(ErrorObject(DefinitionsErrorPrefix + MissingSchemaText(req.url)), []))
      && (!SchemeMissing(req.url) ==>
            t.requests == [req]
            && (RaisesForStatus(fetch(req).status) ==>
                  t.value == ErrorObject(DefinitionsErrorPrefix + HttpErrorText(fetch(req))))
            && (!RaisesForStatus(fetch(req).status) ==> t.value == Body(fetch(req).text)))
  {
    if !DevOpsConfigured(s) then Traced(ErrorObject(NotConfiguredMessage), [])
    else GetJson(Request(DefinitionsUrl(s.orgUrl.value, project, top), s.pat), fetch, DefinitionsErrorPrefix)
  }

  /** The `/projects` route: 400 without configuration, 500 with the error
      when nothing usable came back, otherwise the body with 200. */
  function GetProjects(s: Settings, fetch: Fetch): (t: Traced<RouteReply>)
    ensures !DevOpsConfigured(s) ==> t == Traced(RouteReply(400, ErrorObject(NotConfiguredMessage)), [])
    ensures DevOpsConfigured(s) ==>
      var req := Request(ProjectsUrl(s.orgUrl.value), s.pat);
      (SchemeMissing(req.url) ==>
         t == Traced(RouteReply(500, ErrorObject(ProjectsErrorPrefix + MissingSchemaText(req.url))), []))
      && (!SchemeMissing(req.url) ==>
            t.requests == [req]
            && (RaisesForStatus(fetch(req).status) ==>
                  t.value == RouteReply(500, ErrorObject(ProjectsErrorPrefix + HttpErrorText(fetch(req)))))
            && (!RaisesForStatus(fetch(req).status) ==> t.value == RouteReply(200, Body(fetch(req).text))))
  {
    if !DevOpsConfigured(s) then Traced(RouteReply(400, ErrorObject(NotConfiguredMessage)), [])
    else
      var j := GetJson(Request(ProjectsUrl(s.orgUrl.value), s.pat), fetch, ProjectsErrorPrefix);
      Traced(RouteReply(if j.value.ErrorObject? then 500 else 200, j.value), j.requests)
  }

  /** With the organisation URL unset or empty, neither `/projects` route
      sends a request: this one refuses with 400, while the single-file
      agent's, which checks nothing, answers 200 with the HTTP library's
      error about the scheme-less URL. */
  lemma ProjectsRoutesCompared(s: Settings, fetch: Fetch)
    requires !Truthy(s.orgUrl)
    ensures GetProjects(s, fetch) == Traced(RouteReply(400, ErrorObject(NotConfiguredMessage)), [])
    ensures var legacy := TimelineLogs.LegacyGetProjects(s.orgUrl, s.pat, fetch);
      legacy.requests == [] && legacy.value.status == 200 && legacy.value.body.ErrorObject?
  {
    TimelineLogs.LegacyProjectsUnconfigured(s.orgUrl, s.pat, fetch);
  }

  /* ---------------------------------------------------------------------- */
  /* get_build_logs                                                         */
  /* ---------------------------------------------------------------------- */

  /** One entry of the build's log listing; a missing key is `None`, and a
      present id is given by its string form. */
  datatype LogItem = LogItem(id: Option<string>, url: Option<string>)

  /** `response.json().get("value", [])` applied to a response body. */
  type LogItemsDecoder = string -> seq<LogItem>

  /** Items whose log is fetched: those with a truthy URL. */
  predicate HasLogUrl(item: LogItem)
  {
    Truthy(item.url)
  }

  /** The section written for one log fetched with status 200. */
  function LogSection(id: string, text: string): (section: string)
    ensures StartsWith(section, "=== Log ")
    ensures var header := "=== Log " + id + " ===\n";
      |section| == |header| + |text| + 5
      && section[..|header|] == header
      && section[|header|..|section| - 5] == text
      && section[|section| - 5..] == "\n---\n"
  {
    "=== Log " + id + " ===\n" + text + "\n---\n"
  }

  /** The text emitted for one fetched item: its section on 200, nothing
      otherwise. */
  function SectionFor(item: LogItem, resp: Response): string
  {
    if resp.status == 200 then LogSection(item.id.GetOr("Unknown"), resp.text) else ""
  }

  /** The loop over the log listing: one request per item with a URL, and
      the sections of the ones answered with 200, in item order. */
  function CollectLogs(items: seq<LogItem>, pat: Option<string>, fetch: Fetch): (t: Traced<string>)
    ensures AllAuthenticatedWith(t.requests, pat)
    ensures t.value == "" || StartsWith(t.value, "=== Log ")
    decreases |items|
  {
    if |items| == 0 then Traced("", [])
    else
      var item := items[0];
      var rest := CollectLogs(items[1..], pat, fetch);
      if HasLogUrl(item) then
        var req := Request(item.url.value, pat);
        Traced(SectionFor(item, fetch(req)) + rest.value, [req] + rest.requests)
      else rest
  }

  /** No log sections at all exactly when no item with a URL was answered
      with 200. */
  lemma {:induction false} CollectLogsEmpty(items: seq<LogItem>, pat: Option<string>, fetch: Fetch)
    ensures CollectLogs(items, pat, fetch).value == "" <==>
      forall k :: 0 <= k < |items| && HasLogUrl(items[k]) ==> fetch(Request(items[k].url.value, pat)).status != 200
    decreases |items|
  {
    if |items| > 0 {
      CollectLogsEmpty(items[1..], pat, fetch);
      assert forall k :: 1 <= k < |items| ==> items[k] == items[1..][k - 1];
    }
  }

  /** Item order is output order. */
  lemma {:induction false} CollectLogsAppend(a: seq<LogItem>, b: seq<LogItem>, pat: Option<string>, fetch: Fetch)
    ensures CollectLogs(a + b, pat, fetch) == Then(CollectLogs(a, pat, fetch), CollectLogs(b, pat, fetch))
    decreases |a|
  {
    var y := CollectLogs(b, pat, fetch);
    if |a| == 0 {
      assert a + b == b;
      assert "" + y.value == y.value && [] + y.requests == y.requests;
    } else {
      CollectLogsAppend(a[1..], b, pat, fetch);
      assert (a + b)[1..] == a[1..] + b;
      assert (a + b)[0] == a[0];
      var x := CollectLogs(a[1..], pat, fetch);
      if HasLogUrl(a[0]) {
        var req := Request(a[0].url.value, pat);
        var sec := SectionFor(a[0], fetch(req));
        assert sec + (x.value + y.value) == (sec + x.value) + y.value;
        assert [req] + (x.requests + y.requests) == ([req] + x.requests) + y.requests;
      }
    }
  }

  /** Every item with a URL is fetched, whatever its status, once, in item
      order; items without a URL are not. */
  lemma {:induction false} CollectLogsRequests(items: seq<LogItem>, pat: Option<string>, fetch: Fetch)
    ensures var withUrl := Filter(HasLogUrl, items);
      var requests := CollectLogs(items, pat, fetch).requests;
      |requests| == |withUrl|
      && forall k :: 0 <= k < |withUrl| ==> requests[k] == Request(withUrl[k].url.value, pat)
    decreases |items|
  {
    if |items| > 0 {
      CollectLogsRequests(items[1..], pat, fetch);
      var rest := Filter(HasLogUrl, items[1..]);
      var restRequests := CollectLogs(items[1..], pat, fetch).requests;
      if HasLogUrl(items[0]) {
        var withUrl := [items[0]] + rest;
        var req := Request(items[0].url.value, pat);
        var requests := [req] + restRequests;
        assert Filter(HasLogUrl, items) == withUrl;
        assert CollectLogs(items, pat, fetch)
          == Traced(SectionFor(items[0], fetch(req)) + CollectLogs(items[1..], pat, fetch).value, requests);
        forall k | 0 <= k < |withUrl| ensures requests[k] == Request(withUrl[k].url.value, pat) {
          if k > 0 {
            assert requests[k] == restRequests[k - 1] && withUrl[k] == rest[k - 1];
          }
        }
      } else {
        assert Filter(HasLogUrl, items) == rest;
        assert CollectLogs(items, pat, fetch).requests == restRequests;
      }
    }
  }

  /** The loop of `get_build_logs` as written: `full_log_content +=` one
      section per item. It computes `CollectLogs`. */
  method AssembleBuildLogs(items: seq<LogItem>, pat: Option<string>, fetch: Fetch)
    returns (content: string, requests: seq<Request>)
    ensures Traced(content, requests) == CollectLogs(items, pat, fetch)
  {
    content, requests := "", [];
    var i := 0;
    while i < |items|
      invariant 0 <= i <= |items|
      invariant Traced(content, requests) == CollectLogs(items[..i], pat, fetch)
    {
      var item := items[i];
      ghost var step := CollectLogs([item], pat, fetch);
      ghost var before := Traced(content, requests);
      CollectLogsAppend(items[..i], [item], pat, fetch);
      assert items[..i + 1] == items[..i] + [item];
      assert [item][1..] == [];
      if HasLogUrl(item) {
        var req := Request(item.url.value, pat);
        var resp := fetch(req);
        assert step.value == SectionFor(item, resp) + "" == SectionFor(item, resp);
        assert step.requests == [req] + [] == [req];
        requests := requests + [req];
        if resp.status == 200 {
          content := content + LogSection(item.id.GetOr("Unknown"), resp.text);
        } else {
          assert step.value == "";
          assert content + step.value == content;
        }
      } else {
        assert step == Traced("", []);
        assert content + step.value == content && requests + step.requests == requests;
      }
      assert Traced(content, requests) == Traced(before.value + step.value, before.requests + step.requests);
      i := i + 1;
    }
    assert items[..i] == items;
  }

  const BuildLogsErrorPrefix: string := "Failed to fetch build logs: "

  /** `get_build_logs`: refused without configuration; a listing URL
      without a scheme, or an error status on the listing, is reported with
      the tool's prefix; otherwise the collected sections, or "No logs
      found." when there are none. */
  function GetBuildLogs(s: Settings, project: string, buildId: int, fetch: Fetch, decode: LogItemsDecoder): (t: Traced<string>)
    ensures !DevOpsConfigured(s) ==> t == Traced(NotConfiguredMessage, [])
    ensures DevOpsConfigured(s) ==> AllAuthenticatedWith(t.requests, s.pat)
    ensures DevOpsConfigured(s) ==> var url := BuildLogsUrl(s.orgUrl.value, project, buildId);
      SchemeMissing(url) ==> t == Traced(BuildLogsErrorPrefix + MissingSchemaText(url), [])
    ensures DevOpsConfigured(s) ==> var url := BuildLogsUrl(s.orgUrl.value, project, buildId);
      !SchemeMissing(url) ==> |t.requests| >= 1 && t.requests[0] == Request(url, s.pat)
    ensures DevOpsConfigured(s) && !SchemeMissing(BuildLogsUrl(s.orgUrl.value, project, buildId)) ==>
      var listing := fetch(t.requests[0]);
      RaisesForStatus(listing.status) ==>
        t.value == BuildLogsErrorPrefix + HttpErrorText(listing) && |t.requests| == 1
    ensures DevOpsConfigured(s) && !SchemeMissing(BuildLogsUrl(s.orgUrl.value, project, buildId)) ==>
      var listing := fetch(t.requests[0]);
      var collected := CollectLogs(decode(listing.text), s.pat, fetch);
      !RaisesForStatus(listing.status) ==>
        t.requests[1..] == collected.requests && (collected.value != "" ==> t.value == collected.value)
  {
    if !DevOpsConfigured(s) then Traced(NotConfiguredMessage, [])
    else
      var req := Request(BuildLogsUrl(s.orgUrl.value, project, buildId), s.pat);
      if SchemeMissing(req.url) then Traced(BuildLogsErrorPrefix + MissingSchemaText(req.url), [])
      else
        var resp := fetch(req);
        if RaisesForStatus(resp.status) then
          Traced(BuildLogsErrorPrefix + HttpErrorText(resp), [req])
        else
          var collected := CollectLogs(decode(resp.text), s.pat, fetch);
          Traced(if collected.value != "" then collected.value else "No logs found.", [req] + collected.requests)
  }

  /** Once the listing succeeds, the tool answers "No logs found." exactly
      when no item with a URL was fetched with status 200. */
  lemma NoLogsFound(s: Settings, project: string, buildId: int, fetch: Fetch, decode: LogItemsDecoder)
    requires DevOpsConfigured(s) && !SchemeMissing(BuildLogsUrl(s.orgUrl.value, project, buildId))
    requires !RaisesForStatus(fetch(Request(BuildLogsUrl(s.orgUrl.value, project, buildId), s.pat)).status)
    ensures var items := decode(fetch(Request(BuildLogsUrl(s.orgUrl.value, project, buildId), s.pat)).text);
      var noSection := forall k :: 0 <= k < |items| && HasLogUrl(items[k]) ==>
        fetch(Request(items[k].url.value, s.pat)).status != 200;
      GetBuildLogs(s, project, buildId, fetch, decode).value == "No logs found." <==> noSection
  {
    var items := decode(fetch(Request(BuildLogsUrl(s.orgUrl.value, project, buildId), s.pat)).text);
    var collected := CollectLogs(items, s.pat, fetch);
    CollectLogsEmpty(items, s.pat, fetch);
    if collected.value != "" {
      assert StartsWith(collected.value, "=== Log ");
      DiffersAt("No logs found.", "=== Log ", 0);
    }
  }

  /* ---------------------------------------------------------------------- */
  /* the configuration gate and /config                                     */
  /* ---------------------------------------------------------------------- */

  /** The body of `/config`. */
  datatype ConfigStatus = ConfigStatus(azureDevopsConfigured: bool, azureOpenaiConfigured: bool, orgUrl: string)

  /** `get_config`: both flags follow the truthiness of their two settings,
      and the organisation URL is shown only when it is set. */
  function GetConfig(s: Settings): (r: ConfigStatus)
    ensures r.azureDevopsConfigured <==> s.orgUrl.Some? && s.orgUrl.value != "" && s.pat.Some? && s.pat.value != ""
    ensures r.azureOpenaiConfigured <==> Truthy(s.openAiEndpoint) && Truthy(s.openAiKey)
    ensures Truthy(s.orgUrl) ==> r.orgUrl == s.orgUrl.value
    ensures !Truthy(s.orgUrl) ==> r.orgUrl == "Not configured"
  {
    ConfigStatus(
      DevOpsConfigured(s),
      Truthy(s.openAiEndpoint) && Truthy(s.openAiKey),
      if Truthy(s.orgUrl) then s.orgUrl.value else "Not configured")
  }

  /** `list_builds` sends a request only when configured, and then always
      when the organisation URL carries a scheme. */
  lemma ListBuildsGate(s: Settings, project: string, definitionId: Option<int>, statusFilter: Option<string>,
                       top: int, fetch: Fetch)
    ensures ListBuilds(s, project, definitionId, statusFilter, top, fetch).requests != [] ==> DevOpsConfigured(s)
    ensures DevOpsConfigured(s) && ':' in s.orgUrl.value ==>
      ListBuilds(s, project, definitionId, statusFilter, top, fetch).requests != []
    ensures AllAuthenticatedWith(ListBuilds(s, project, definitionId, statusFilter, top, fetch).requests, s.pat)
  {
    if DevOpsConfigured(s) && ':' in s.orgUrl.value {
      ListBuildsUrlShape(s.orgUrl.value, project, definitionId, statusFilter, top);
    }
  }

  /** `get_pipeline_definitions` sends a request only when configured, and
      then always when the organisation URL carries a scheme. */
  lemma DefinitionsGate(s: Settings, project: string, top: int, fetch: Fetch)
    ensures GetPipelineDefinitions(s, project, top, fetch).requests != [] ==> DevOpsConfigured(s)
    ensures DevOpsConfigured(s) && ':' in s.orgUrl.value ==> GetPipelineDefinitions(s, project, top, fetch).requests != []
    ensures AllAuthenticatedWith(GetPipelineDefinitions(s, project, top, fetch).requests, s.pat)
  {
    if DevOpsConfigured(s) && ':' in s.orgUrl.value {
      DefinitionsUrlShape(s.orgUrl.value, project, top);
    }
  }

  /** `get_build_logs` sends a request only when configured, and then
      always when the organisation URL carries a scheme. */
  lemma BuildLogsGate(s: Settings, project: string, buildId: int, fetch: Fetch, decode: LogItemsDecoder)
    ensures GetBuildLogs(s, project, buildId, fetch, decode).requests != [] ==> DevOpsConfigured(s)
    ensures DevOpsConfigured(s) && ':' in s.orgUrl.value ==> GetBuildLogs(s, project, buildId, fetch, decode).requests != []
    ensures AllAuthenticatedWith(GetBuildLogs(s, project, buildId, fetch, decode).requests, s.pat)
  {
  }

  /** `/projects` sends a request only when configured, and then always
      when the organisation URL carries a scheme. */
  lemma ProjectsGate(s: Settings, fetch: Fetch)
    ensures GetProjects(s, fetch).requests != [] ==> DevOpsConfigured(s)
    ensures DevOpsConfigured(s) && ':' in s.orgUrl.value ==> GetProjects(s, fetch).requests != []
    ensures AllAuthenticatedWith(GetProjects(s, fetch).requests, s.pat)
  {
  }

  /** Only when `/config` reports Azure DevOps as configured do the tools
      and `/projects` go to the network, and then always when the
      organisation URL carries a scheme; every request they send
      authenticates with the configured token. */
  lemma ConfigurationGate(s: Settings, project: string, definitionId: Option<int>, statusFilter: Option<string>,
                          top: int, buildId: int, fetch: Fetch, decode: LogItemsDecoder)
    ensures ListBuilds(s, project, definitionId, statusFilter, top, fetch).requests != [] ==> GetConfig(s).azureDevopsConfigured
    ensures GetPipelineDefinitions(s, project, top, fetch).requests != [] ==> GetConfig(s).azureDevopsConfigured
    ensures GetProjects(s, fetch).requests != [] ==> GetConfig(s).azureDevopsConfigured
    ensures GetBuildLogs(s, project, buildId, fetch, decode).requests != [] ==> GetConfig(s).azureDevopsConfigured
    ensures GetConfig(s).azureDevopsConfigured && ':' in s.orgUrl.value ==>
      && ListBuilds(s, project, definitionId, statusFilter, top, fetch).requests != []
      && GetPipelineDefinitions(s, project, top, fetch).requests != []
      && GetProjects(s, fetch).requests != []
      && GetBuildLogs(s, project, buildId, fetch, decode).requests != []
    ensures AllAuthenticatedWith(ListBuilds(s, project, definitionId, statusFilter, top, fetch).requests, s.pat)
    ensures AllAuthenticatedWith(GetPipelineDefinitions(s, project, top, fetch).requests, s.pat)
    ensures AllAuthenticatedWith(GetProjects(s, fetch).requests, s.pat)
    ensures AllAuthenticatedWith(GetBuildLogs(s, project, buildId, fetch, decode).requests, s.pat)
  {
    ListBuildsGate(s, project, definitionId, statusFilter, top, fetch);
    DefinitionsGate(s, project, top, fetch);
    BuildLogsGate(s, project, buildId, fetch, decode);
    ProjectsGate(s, fetch);
    assert GetConfig(s).azureDevopsConfigured == DevOpsConfigured(s);
  }

  /* ---------------------------------------------------------------------- */
  /* /chat                                                                  */
  /* ---------------------------------------------------------------------- */

  /** The decoded request body: a JSON object with an optional `message`
      (missing and `null` alike are `None`), or a JSON value of another
      type, named as Python names its type. */
  datatype ChatBody = JsonObject(message: Option<string>) | NotAnObject(typeName: string)

  /** What the agent executor does with an input: returns a dict with an
      optional `output`, or raises. */
  datatype AgentResult = Finished(output: Option<string>) | Raised(error: string)

  /** The module-level `llm` and `agent_executor`, as whether each is set. */
  datatype AgentState = AgentState(llmSet: bool, executorSet: bool)

  /** The process starts with neither set. */
  const Fresh: AgentState := AgentState(false, false)

  /** How building the agent goes when `initialize_agent` tries it: it
      succeeds, constructing the language model raises, or the model is
      built and assigned but building the rest of the agent raises. */
  datatype Setup = Built | ModelFails(error: string) | AgentFails(error: string)

  /** The state `initialize_agent` leaves, and the exception it raised. */
  datatype Init = Init(state: AgentState, error: Option<string>)

  /** `initialize_agent()`: everything is skipped once `llm` is set;
      otherwise `llm` is assigned as soon as the model is built, before the
      executor, so a failure in between leaves `llm` set and the executor
      unset for good. */
  function InitializeAgent(st: AgentState, setup: Setup): (r: Init)
    ensures st.llmSet ==> r == Init(st, None)
    ensures r.error == None <==> st.llmSet || setup.Built?
    ensures !st.llmSet ==> (r.state.llmSet <==> !setup.ModelFails?)
    ensures !st.llmSet ==> (r.state.executorSet <==> setup.Built? || st.executorSet)
  {
    if st.llmSet then Init(st, None)
    else
      match setup
      case Built => Init(AgentState(true, true), None)
      case ModelFails(e) => Init(st, Some(e))
      case AgentFails(e) => Init(AgentState(true, st.executorSet), Some(e))
  }

  /** The route's reply: status 200 `{"response", "success": true}`, or an
      `{"error"}` body with its status. */
  datatype ChatReply = Answered(response: string) | Failed(status: int, error: string)

  /** The reply, the inputs handed to the agent, and the state left for
      the next request. */
  datatype ChatOutcome = ChatOutcome(reply: ChatReply, agentInputs: seq<string>, state: AgentState)

  const MessageRequired: string := "Message is required"
  const NotInitialized: string := "Agent not properly initialized"
  const ChatErrorPrefix: string := "Failed to process request: "

  /** `chat()`: a missing or empty message is refused with 400 before the
      agent is set up or asked anything. Otherwise `initialize_agent` runs;
      its exception is reported with 500; an executor still unset after it
      gives the 500 `Agent not properly initialized`; and only then does
      the agent run, once, on the message. */
  function Chat(body: ChatBody, st: AgentState, setup: Setup, agent: string -> AgentResult): (o: ChatOutcome)
    ensures |o.agentInputs| <= 1
    ensures forall k :: 0 <= k < |o.agentInputs| ==> o.agentInputs[k] != ""
    ensures o.reply.Answered? ==> |o.agentInputs| == 1
    ensures o.agentInputs != [] ==> o.state.executorSet
    ensures o.reply == Failed(500, NotInitialized) ==> o.agentInputs == [] && !o.state.executorSet
    ensures st.llmSet ==> o.state == st
  {
    match body
    case NotAnObject(typeName) =>
      ChatOutcome(Failed(500, ChatErrorPrefix + "'" + typeName + "' object has no attribute 'get'"), [], st)
    case JsonObject(message) =>
      if !Truthy(message) then ChatOutcome(Failed(400, MessageRequired), [], st)
      else
        var init := InitializeAgent(st, setup);
        if init.error.Some? then
          assert (ChatErrorPrefix + init.error.value)[0] != NotInitialized[0];
          ChatOutcome(Failed(500, ChatErrorPrefix + init.error.value), [], init.state)
        else if !init.state.executorSet then ChatOutcome(Failed(500, NotInitialized), [], init.state)
        else
          match agent(message.value)
          case Raised(e) =>
            assert (ChatErrorPrefix + e)[0] != NotInitialized[0];
            ChatOutcome(Failed(500, ChatErrorPrefix + e), [message.value], init.state)
          case Finished(output) => ChatOutcome(Answered(output.GetOr("No response generated")), [message.value], init.state)
  }

  /** The 400 "Message is required" reply comes exactly from a JSON object
      whose message is missing or empty, and then the agent is neither set
      up nor run. With a message, a fresh process whose setup succeeds runs
      the agent on exactly that message. */
  lemma ChatValidation(body: ChatBody, st: AgentState, setup: Setup, agent: string -> AgentResult)
    ensures Chat(body, st, setup, agent).reply == Failed(400, MessageRequired)
      <==> body.JsonObject? && !Truthy(body.message)
    ensures body.JsonObject? && !Truthy(body.message) ==>
      Chat(body, st, setup, agent).agentInputs == [] && Chat(body, st, setup, agent).state == st
    ensures body.JsonObject? && Truthy(body.message) && setup.Built? && st == Fresh ==>
      Chat(body, st, setup, agent).agentInputs == [body.message.value]
  {
  }

  /** A setup that fails after the language model is assigned leaves the
      process stuck: the first request reports the setup error, and every
      later request with a message gets the 500 `Agent not properly
      initialized`, whatever setup it would attempt, without running the
      agent. */
  lemma PartialSetupSticks(e: string, first: string, later: ChatBody, setup: Setup, agent: string -> AgentResult)
    requires first != ""
    requires later.JsonObject? && Truthy(later.message)
    ensures var o := Chat(JsonObject(Some(first)), Fresh, AgentFails(e), agent);
      o.reply == Failed(500, ChatErrorPrefix + e) && o.agentInputs == []
      && var o2 := Chat(later, o.state, setup, agent);
         o2.reply == Failed(500, NotInitialized) && o2.agentInputs == [] && o2.state == o.state
  {
  }

  /** Once the executor is built the process stays ready: the setup is
      never attempted again, and a message always reaches the agent. */
  lemma ReadyStaysReady(body: ChatBody, setup: Setup, agent: string -> AgentResult)
    requires body.JsonObject? && Truthy(body.message)
    ensures var o := Chat(body, AgentState(true, true), setup, agent);
      o.state == AgentState(true, true) && o.agentInputs == [body.message.value]
      && o.reply != Failed(500, NotInitialized)
  {
  }
}
