/**
 * The failed-step log tools of the single-file agent: fetch a build's
 * timeline, keep the records whose result is "failed", and fetch a log for
 * each of them, either by the record's own `log.url`
 * (`get_failed_step_logs_from_url`) or by a URL built from the step name
 * (`get_failed_step_logs`). Also the agent's unguarded project listing.
 * Nothing here checks the configuration first: a missing organisation URL
 * is rendered as "None" inside the URL, as an f-string would, and the HTTP
 * library then refuses the scheme-less URL before sending anything.
 */
module TimelineLogs {
  import opened Wrappers
  import opened Text
  import opened Http
  import opened Seqs

  /** The API version this file's timeline and log endpoints carry. */
  const TimelineApiVersion: string := "7.1-preview.1"

  /** The API version of the project listing in this file. */
  const ProjectsApiVersion: string := "7.1-preview.4"

  /** The `log` value of a timeline record: the key is absent, or it holds
      a JSON object with an optional `url`, or it holds some other JSON
      value (`null` on stage and phase records), named by its Python type. */
  datatype LogField = Absent | LogObject(url: Option<string>) | NotAnObject(typeName: string)

  /** One record of a build timeline, as far as the tools read it; a
      missing `name` or `result` is `None`. */
  datatype TimelineRecord = TimelineRecord(name: Option<string>, result: Option<string>, log: LogField)

  /** What an agent tool hands back: the string it returns, or the message
      of the exception it lets escape. */
  datatype ToolResult = Returned(text: string) | Raised(error: string)

  /** `response.json().get("records", [])` applied to a response body. */
  type RecordsDecoder = string -> seq<TimelineRecord>

  /** `record.get("result") == "failed"`. */
  predicate IsFailed(r: TimelineRecord)
  {
    r.result == Some("failed")
  }

  /** `record.get("log", {}).get("url")` for a record whose `log`, if
      present, is an object; an absent `log` reads as `{}`. */
  function LogUrl(r: TimelineRecord): Option<string>
    requires !r.log.NotAnObject?
  {
    if r.log.LogObject? then r.log.url else None
  }

  /** A failed record whose log URL is truthy: the ones whose log is fetched
      by `get_failed_step_logs_from_url`. */
  predicate HasFailedLog(r: TimelineRecord)
  {
    IsFailed(r) && !r.log.NotAnObject? && Truthy(LogUrl(r))
  }

  /** A failed record whose `log` is present but not an object: looking up
      its `url` raises `AttributeError`. */
  predicate RaisesOnLog(r: TimelineRecord)
  {
    IsFailed(r) && r.log.NotAnObject?
  }

  /** The message of the `AttributeError` raised by `.get` on a value of
      the named type. */
  function AttributeErrorText(typeName: string): string
  {
    "'" + typeName + "' object has no attribute 'get'"
  }

  /** The records the loop of `get_failed_step_logs_from_url` gets through:
      all of them up to, not including, the first one whose log lookup
      raises. */
  function BeforeRaise(records: seq<TimelineRecord>): (p: seq<TimelineRecord>)
    ensures |p| <= |records| && p == records[..|p|]
    ensures forall k :: 0 <= k < |p| ==> !RaisesOnLog(p[k])
    ensures |p| < |records| ==> RaisesOnLog(records[|p|])
    ensures |p| < |records| <==> exists k :: 0 <= k < |records| && RaisesOnLog(records[k])
    decreases |records|
  {
    if |records| == 0 || RaisesOnLog(records[0]) then []
    else [records[0]] + BeforeRaise(records[1..])
  }

  /** The build's own URL, shared by the timeline and the step logs. */
  function BuildBase(org: Option<string>, project: string, buildId: string): string
  {
    PyStr(org) + "/" + project + "/_apis/build/builds/" + buildId
  }

  function TimelineUrl(org: Option<string>, project: string, buildId: string): string
  {
    BuildBase(org, project, buildId) + ("/timeline?api-version=" + TimelineApiVersion)
  }

  function StepLogUrl(org: Option<string>, project: string, buildId: string, step: Option<string>): string
  {
    BuildBase(org, project, buildId) + ("/logs/" + PyStr(step) + "?api-version=" + TimelineApiVersion)
  }

  /* ---------------------------------------------------------------------- */
  /* get_failed_step_logs_from_url                                          */
  /* ---------------------------------------------------------------------- */

  /** The entry recorded for one fetched log: its text on 200, otherwise a
      "Could not fetch log" note (nothing is dropped). */
  function LogEntry(resp: Response): string
  {
    if resp.status == 200 then resp.text else "Could not fetch log: " + resp.text
  }

  /** The loop over the timeline records: one request and one entry per
      failed record with a log URL. Entry `k` is the entry for the response
      to request `k`, and every request carries the token. */
  function FailedLogEntries(records: seq<TimelineRecord>, pat: Option<string>, fetch: Fetch): (t: Traced<seq<string>>)
    ensures |t.value| == |t.requests|
    ensures AllAuthenticatedWith(t.requests, pat)
    ensures forall k :: 0 <= k < |t.value| ==> t.value[k] == LogEntry(fetch(t.requests[k]))
    decreases |records|
  {
    if |records| == 0 then Traced([], [])
    else
      var r := records[0];
      var rest := FailedLogEntries(records[1..], pat, fetch);
      if HasFailedLog(r) then
        var req := Request(LogUrl(r).value, pat);
        Traced([LogEntry(fetch(req))] + rest.value, [req] + rest.requests)
      else rest
  }

  /** The logs fetched are exactly those of the failed records with a log
      URL, one request each, in record order. */
  lemma {:induction false} FailedLogRequests(records: seq<TimelineRecord>, pat: Option<string>, fetch: Fetch)
    ensures var fs := Filter(HasFailedLog, records);
      var requests := FailedLogEntries(records, pat, fetch).requests;
      |requests| == |fs|
      && forall k :: 0 <= k < |fs| ==> requests[k] == Request(LogUrl(fs[k]).value, pat)
    decreases |records|
  {
    if |records| > 0 {
      FailedLogRequests(records[1..], pat, fetch);
      var rest := Filter(HasFailedLog, records[1..]);
      var restRequests := FailedLogEntries(records[1..], pat, fetch).requests;
      if HasFailedLog(records[0]) {
        var fs := [records[0]] + rest;
        var requests := [Request(LogUrl(records[0]).value, pat)] + restRequests;
        assert Filter(HasFailedLog, records) == fs;
        assert FailedLogEntries(records, pat, fetch).requests == requests;
        forall k | 0 <= k < |fs| ensures requests[k] == Request(LogUrl(fs[k]).value, pat) {
          if k > 0 {
            assert requests[k] == restRequests[k - 1] && fs[k] == rest[k - 1];
          }
        }
      } else {
        assert Filter(HasFailedLog, records) == rest;
        assert FailedLogEntries(records, pat, fetch).requests == restRequests;
      }
    }
  }

  /** Record order is output order: the entries for `a + b` are those for
      `a` followed by those for `b`. */
  lemma {:induction false} FailedLogEntriesAppend(a: seq<TimelineRecord>, b: seq<TimelineRecord>, pat: Option<string>, fetch: Fetch)
    ensures FailedLogEntries(a + b, pat, fetch)
      == Then(FailedLogEntries(a, pat, fetch), FailedLogEntries(b, pat, fetch))
    decreases |a|
  {
    if |a| == 0 {
      assert a + b == b;
      var y := FailedLogEntries(b, pat, fetch);
      assert [] + y.value == y.value && [] + y.requests == y.requests;
    } else {
      FailedLogEntriesAppend(a[1..], b, pat, fetch);
      assert (a + b)[1..] == a[1..] + b;
      assert (a + b)[0] == a[0];
      var x := FailedLogEntries(a[1..], pat, fetch);
      var y := FailedLogEntries(b, pat, fetch);
      if HasFailedLog(a[0]) {
        var req := Request(LogUrl(a[0]).value, pat);
        assert [LogEntry(fetch(req))] + (x.value + y.value) == ([LogEntry(fetch(req))] + x.value) + y.value;
        assert [req] + (x.requests + y.requests) == ([req] + x.requests) + y.requests;
      }
    }
  }

  /** Only failed records contribute: dropping every other record changes
      neither the output nor the requests. */
  lemma {:induction false} FailedLogEntriesOnlyFailed(records: seq<TimelineRecord>, pat: Option<string>, fetch: Fetch)
    ensures FailedLogEntries(Filter(IsFailed, records), pat, fetch) == FailedLogEntries(records, pat, fetch)
    decreases |records|
  {
    if |records| > 0 {
      FailedLogEntriesOnlyFailed(records[1..], pat, fetch);
      if IsFailed(records[0]) {
        assert ([records[0]] + Filter(IsFailed, records[1..]))[1..] == Filter(IsFailed, records[1..]);
      }
    }
  }

  /** `get_failed_step_logs_from_url(project, build_id)`. A timeline URL
      without a scheme makes the tool raise before anything is sent.
      Otherwise the timeline is requested first; a non-200 timeline ends the
      tool with its body and nothing else is fetched. After a 200 timeline
      the records are walked in order: a failed record whose `log` is not
      an object makes the tool raise `AttributeError`, after the logs of the
      records before it have been fetched; without such a record the
      entries are joined with blank lines. */
  function GetFailedStepLogsFromUrl(org: Option<string>, pat: Option<string>, project: string, buildId: string,
                                    fetch: Fetch, decode: RecordsDecoder): (t: Traced<ToolResult>)
    ensures AllAuthenticatedWith(t.requests, pat)
    ensures var url := TimelineUrl(org, project, buildId);
      SchemeMissing(url) ==> t == Traced(Raised(MissingSchemaText(url)), [])
    ensures var url := TimelineUrl(org, project, buildId);
      !SchemeMissing(url) ==> |t.requests| >= 1 && t.requests[0] == Request(url, pat)
    ensures var url := TimelineUrl(org, project, buildId);
      var timeline := fetch(Request(url, pat));
      !SchemeMissing(url) && timeline.status != 200 ==>
        t.value == Returned("Failed to get timeline: " + timeline.text) && |t.requests| == 1
    ensures var url := TimelineUrl(org, project, buildId);
      var timeline := fetch(Request(url, pat));
      var records := decode(timeline.text);
      !SchemeMissing(url) && timeline.status == 200 ==>
        (t.value.Raised? <==> exists k :: 0 <= k < |records| && RaisesOnLog(records[k]))
    ensures var url := TimelineUrl(org, project, buildId);
      var timeline := fetch(Request(url, pat));
      var records := decode(timeline.text);
      var reached := BeforeRaise(records);
      var entries := FailedLogEntries(reached, pat, fetch);
      !SchemeMissing(url) && timeline.status == 200 ==>
        t.requests == [Request(url, pat)] + entries.requests
        && (t.value.Returned? ==> reached == records && t.value.text == Join(entries.value, "\n\n"))
        && (t.value.Raised? ==> |reached| < |records|
                                && t.value.error == AttributeErrorText(records[|reached|].log.typeName))
  {
    var timelineReq := Request(TimelineUrl(org, project, buildId), pat);
    if SchemeMissing(timelineReq.url) then Traced(Raised(MissingSchemaText(timelineReq.url)), [])
    else
      var timeline := fetch(timelineReq);
      if timeline.status != 200 then
        Traced(Returned("Failed to get timeline: " + timeline.text), [timelineReq])
      else
        var records := decode(timeline.text);
        var reached := BeforeRaise(records);
        var entries := FailedLogEntries(reached, pat, fetch);
        if |reached| < |records| then
          Traced(Raised(AttributeErrorText(records[|reached|].log.typeName)), [timelineReq] + entries.requests)
        else
          Traced(Returned(Join(entries.value, "\n\n")), [timelineReq] + entries.requests)
  }

  /** With no failed record that has a log URL, and none whose log is not
      an object, the tool returns the empty string after fetching the
      timeline alone. */
  lemma NoFailedLogsFromUrl(org: Option<string>, pat: Option<string>, project: string, buildId: string,
                            fetch: Fetch, decode: RecordsDecoder)
    requires !SchemeMissing(TimelineUrl(org, project, buildId))
    requires var timeline := fetch(Request(TimelineUrl(org, project, buildId), pat));
      var records := decode(timeline.text);
      timeline.status == 200 && Filter(HasFailedLog, records) == []
      && forall k :: 0 <= k < |records| ==> !RaisesOnLog(records[k])
    ensures GetFailedStepLogsFromUrl(org, pat, project, buildId, fetch, decode)
      == Traced(Returned(""), [Request(TimelineUrl(org, project, buildId), pat)])
  {
    var timeline := fetch(Request(TimelineUrl(org, project, buildId), pat));
    var records := decode(timeline.text);
    assert BeforeRaise(records) == records;
    FailedLogRequests(records, pat, fetch);
  }

  /** When no failed record has a non-object `log`, the tool returns, and
      the logs it fetches after the timeline are exactly those of the
      failed records with a log URL, in record order. */
  lemma FromUrlFetchesFailedLogs(org: Option<string>, pat: Option<string>, project: string, buildId: string,
                                 fetch: Fetch, decode: RecordsDecoder)
    requires !SchemeMissing(TimelineUrl(org, project, buildId))
    requires var timeline := fetch(Request(TimelineUrl(org, project, buildId), pat));
      var records := decode(timeline.text);
      timeline.status == 200 && forall k :: 0 <= k < |records| ==> !RaisesOnLog(records[k])
    ensures var timeline := fetch(Request(TimelineUrl(org, project, buildId), pat));
      var fs := Filter(HasFailedLog, decode(timeline.text));
      var t := GetFailedStepLogsFromUrl(org, pat, project, buildId, fetch, decode);
      t.value.Returned? && |t.requests| == 1 + |fs|
      && forall k :: 0 <= k < |fs| ==> t.requests[1 + k] == Request(LogUrl(fs[k]).value, pat)
  {
    var req := Request(TimelineUrl(org, project, buildId), pat);
    var records := decode(fetch(req).text);
    var t := GetFailedStepLogsFromUrl(org, pat, project, buildId, fetch, decode);
    assert BeforeRaise(records) == records;
    assert t.value.Returned?;
    assert t.requests == [req] + FailedLogEntries(records, pat, fetch).requests;
    FailedLogRequests(records, pat, fetch);
  }

  /** A failed record at the head of the timeline whose `log` is JSON
      `null` makes the tool raise before any log is fetched. (The message
      is written in three pieces only to spare the solver comparing one
      long literal character by character.) */
  lemma NullLogRaises(org: Option<string>, pat: Option<string>, project: string, buildId: string,
                      fetch: Fetch, decode: RecordsDecoder)
    requires !SchemeMissing(TimelineUrl(org, project, buildId))
    requires var timeline := fetch(Request(TimelineUrl(org, project, buildId), pat));
      var records := decode(timeline.text);
      timeline.status == 200 && |records| >= 1
      && records[0].result == Some("failed") && records[0].log == NotAnObject("NoneType")
    ensures GetFailedStepLogsFromUrl(org, pat, project, buildId, fetch, decode)
      == Traced(Raised("'" + "NoneType" + "' object has no attribute 'get'"), [Request(TimelineUrl(org, project, buildId), pat)])
  {
    var timeline := fetch(Request(TimelineUrl(org, project, buildId), pat));
    var records := decode(timeline.text);
    assert BeforeRaise(records) == [];
    assert FailedLogEntries([], pat, fetch).requests == [];
  }

  /* ---------------------------------------------------------------------- */
  /* get_failed_step_logs                                                   */
  /* ---------------------------------------------------------------------- */

  /** `failed_steps`: the names of the failed records, in record order. */
  function FailedStepNames(records: seq<TimelineRecord>): (names: seq<Option<string>>)
    ensures |names| == |Filter(IsFailed, records)|
  {
    var failed := Filter(IsFailed, records);
    seq(|failed|, k requires 0 <= k < |failed| => failed[k].name)
  }

  /** The loop over the failed steps: one request per step, to the step's
      log endpoint, and the body kept whatever the status. */
  function StepLogs(steps: seq<Option<string>>, org: Option<string>, project: string, buildId: string,
                    pat: Option<string>, fetch: Fetch): (t: Traced<seq<string>>)
    ensures |t.requests| == |steps| && |t.value| == |steps|
    ensures forall k :: 0 <= k < |steps| ==>
      t.requests[k] == Request(StepLogUrl(org, project, buildId, steps[k]), pat)
      && t.value[k] == fetch(t.requests[k]).text
    decreases |steps|
  {
    if |steps| == 0 then Traced([], [])
    else
      var req := Request(StepLogUrl(org, project, buildId, steps[0]), pat);
      var rest := StepLogs(steps[1..], org, project, buildId, pat, fetch);
      Traced([fetch(req).text] + rest.value, [req] + rest.requests)
  }

  const FailedStepsErrorPrefix: string := "Error while fetching failed step logs: "

  /** `get_failed_step_logs(project, build_id)`. A timeline URL without a
      scheme, or an error status on the timeline, is reported through the
      handler's error message; a timeline without failed records yields
      "No failed steps in build <id>." with no further request; otherwise
      the step logs are joined with newlines. */
  function GetFailedStepLogs(org: Option<string>, pat: Option<string>, project: string, buildId: string,
                             fetch: Fetch, decode: RecordsDecoder): (t: Traced<string>)
    ensures AllAuthenticatedWith(t.requests, pat)
    ensures var url := TimelineUrl(org, project, buildId);
      SchemeMissing(url) ==> t == Traced(FailedStepsErrorPrefix + MissingSchemaText(url), [])
    ensures var url := TimelineUrl(org, project, buildId);
      !SchemeMissing(url) ==> |t.requests| >= 1 && t.requests[0] == Request(url, pat)
    ensures !SchemeMissing(TimelineUrl(org, project, buildId)) ==>
      var timeline := fetch(t.requests[0]);
      RaisesForStatus(timeline.status) ==>
        t.value == FailedStepsErrorPrefix + HttpErrorText(timeline) && |t.requests| == 1
    ensures !SchemeMissing(TimelineUrl(org, project, buildId)) ==>
      var timeline := fetch(t.requests[0]);
      var failed := Filter(IsFailed, decode(timeline.text));
      !RaisesForStatus(timeline.status) && failed == [] ==>
        t.value == "No failed steps in build " + buildId + "." && |t.requests| == 1
  {
    var timelineReq := Request(TimelineUrl(org, project, buildId), pat);
    if SchemeMissing(timelineReq.url) then Traced(FailedStepsErrorPrefix + MissingSchemaText(timelineReq.url), [])
    else
      var timeline := fetch(timelineReq);
      if RaisesForStatus(timeline.status) then
        Traced(FailedStepsErrorPrefix + HttpErrorText(timeline), [timelineReq])
      else
        var steps := FailedStepNames(decode(timeline.text));
        if |steps| == 0 then
          Traced("No failed steps in build " + buildId + ".", [timelineReq])
        else
          var logs := StepLogs(steps, org, project, buildId, pat, fetch);
          Traced(Join(logs.value, "\n"), [timelineReq] + logs.requests)
  }

  /** Once the timeline URL has a scheme, so has every step log URL: both
      start with the same organisation, project and build, and the rest of
      the timeline URL holds no `:`. So the step logs are never refused. */
  lemma StepLogUrlsHaveScheme(org: Option<string>, project: string, buildId: string, step: Option<string>)
    requires !SchemeMissing(TimelineUrl(org, project, buildId))
    ensures !SchemeMissing(StepLogUrl(org, project, buildId, step))
  {
    var base := BuildBase(org, project, buildId);
    var rest := "/timeline?api-version=" + TimelineApiVersion;
    assert ':' !in rest;
    assert ':' in base + rest;
    var i :| 0 <= i < |base + rest| && (base + rest)[i] == ':';
    assert i < |base|;
    assert StepLogUrl(org, project, buildId, step)[i] == ':';
  }

  /** With failed records present, one log is requested per failed record,
      in record order, at the URL built from that record's name, and the
      bodies of all of them, whatever their status, are joined with
      newlines. */
  lemma FailedStepLogRequests(org: Option<string>, pat: Option<string>, project: string, buildId: string,
                              fetch: Fetch, decode: RecordsDecoder)
    requires !SchemeMissing(TimelineUrl(org, project, buildId))
    requires var timeline := fetch(Request(TimelineUrl(org, project, buildId), pat));
      !RaisesForStatus(timeline.status) && Filter(IsFailed, decode(timeline.text)) != []
    ensures var timeline := fetch(Request(TimelineUrl(org, project, buildId), pat));
      var failed := Filter(IsFailed, decode(timeline.text));
      var t := GetFailedStepLogs(org, pat, project, buildId, fetch, decode);
      && |t.requests| == 1 + |failed|
      && (forall k :: 0 <= k < |failed| ==>
            t.requests[1 + k] == Request(StepLogUrl(org, project, buildId, failed[k].name), pat))
      && t.value == Join(seq(|failed|, k requires 0 <= k < |failed| => fetch(t.requests[1 + k]).text), "\n")
  {
    var req := Request(TimelineUrl(org, project, buildId), pat);
    var timeline := fetch(req);
    var failed := Filter(IsFailed, decode(timeline.text));
    var steps := FailedStepNames(decode(timeline.text));
    var logs := StepLogs(steps, org, project, buildId, pat, fetch);
    var t := GetFailedStepLogs(org, pat, project, buildId, fetch, decode);
    assert |steps| != 0;
    assert t == Traced(Join(logs.value, "\n"), [req] + logs.requests);
    assert t.value == Join(logs.value, "\n");
    assert logs.value == seq(|failed|, k requires 0 <= k < |failed| => fetch(t.requests[1 + k]).text);
  }

  /* ---------------------------------------------------------------------- */
  /* the agent's /projects route                                            */
  /* ---------------------------------------------------------------------- */

  function LegacyProjectsUrl(org: Option<string>): string
  {
    PyStr(org) + "/_apis/projects?api-version=" + ProjectsApiVersion
  }

  const LegacyProjectsErrorPrefix: string := "Failed to fetch projects: "

  /** `/projects` of the single-file agent: no configuration check, always
      status 200. A URL without a scheme gives an error body and sends
      nothing; otherwise one request, whose body is passed on whatever its
      status. */
  function LegacyGetProjects(org: Option<string>, pat: Option<string>, fetch: Fetch): (t: Traced<RouteReply>)
    ensures t.value.status == 200
    ensures var url := LegacyProjectsUrl(org);
      SchemeMissing(url) ==> t == Traced(RouteReply(200, ErrorObject(LegacyProjectsErrorPrefix + MissingSchemaText(url))), [])
    ensures var req := Request(LegacyProjectsUrl(org), pat);
      !SchemeMissing(req.url) ==> t.requests == [req] && t.value.body == Body(fetch(req).text)
  {
    var req := Request(LegacyProjectsUrl(org), pat);
    if SchemeMissing(req.url) then
      Traced(RouteReply(200, ErrorObject(LegacyProjectsErrorPrefix + MissingSchemaText(req.url))), [])
    else
      Traced(RouteReply(200, Body(fetch(req).text)), [req])
  }

  /** Nothing is checked before the request, and nothing is sent when the
      organisation URL is unset or empty: the URL then starts with `None`
      or with `/`, has no scheme, and the route answers 200 with the
      library's error. */
  lemma LegacyProjectsUnconfigured(org: Option<string>, pat: Option<string>, fetch: Fetch)
    requires !Truthy(org)
    ensures LegacyGetProjects(org, pat, fetch)
      == Traced(RouteReply(200, ErrorObject(LegacyProjectsErrorPrefix + MissingSchemaText(LegacyProjectsUrl(org)))), [])
  {
    assert ':' !in PyStr(org);
    assert ':' !in "/_apis/projects?api-version=" + ProjectsApiVersion;
  }

  /** The response status is never consulted: two servers that send the
      same body give the same reply, however their statuses differ. */
  lemma LegacyProjectsIgnoresStatus(org: Option<string>, pat: Option<string>, fetch1: Fetch, fetch2: Fetch)
    requires fetch1(Request(LegacyProjectsUrl(org), pat)).text == fetch2(Request(LegacyProjectsUrl(org), pat)).text
    ensures LegacyGetProjects(org, pat, fetch1) == LegacyGetProjects(org, pat, fetch2)
  {
  }
}
