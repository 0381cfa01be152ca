# Azura backend core, modelled in Dafny

Azura is a Flask backend that answers questions about Azure Pipelines
builds through a tool-calling language-model agent. The agent's tools call
the Azure DevOps REST API. This project models the deterministic logic
around that plumbing:

- **`ErrorContext`** models `extract_error_context` from `tmp/agent11.py`.
  The log is split on `"\n"` with Python `str.split` semantics. Every line
  containing the marker (a case-sensitive substring, default `##[error]`)
  produces one snippet. The snippet is the newline-joined window
  `lines[max(0,i-3) : min(len,i+4)]`, and overlapping windows are not merged.
- **`TimelineLogs`** models the failed-step tools of `tmp/agent11.py`:
  `get_failed_step_logs_from_url`, `get_failed_step_logs` and that file's
  `/projects` route.
- **`AgentRoutes`** models `src/routes/agent.py`:
  - the configuration gate that every Azure DevOps tool and `/projects`
    check;
  - the URLs of `list_builds`, `get_pipeline_definitions`, `get_build_logs`
    and `/projects` (API version 7.1);
  - the log assembly of `get_build_logs`;
  - the validation and replies of `/chat`, with the agent state that
    `initialize_agent` leaves between requests;
  - the report of `/config`.
- **`Text`** holds Python `split`, `join`, the substring test and `str(int)`,
  with their inverses.
- **`Http`** holds requests, responses, Python truthiness and
  `raise_for_status`.
- **`Seqs`** holds order-preserving filtering. **`Wrappers`** holds `Option`.

The network is a parameter `fetch: Request -> Response`. Each request is a
URL plus the basic-auth password. Each response has a status, a reason
phrase, a body and the URL the HTTP library reports for it. JSON decoding of a response body is a parameter too
(`RecordsDecoder`, `LogItemsDecoder`), and the agent is a parameter of
`Chat`. Every operation returns its result together with the requests it
issued, in order (`Http.Traced`). That is how "refused without
configuration, no request made" and "no further fetch" are stated.
Configuration values are `Option<string>` inputs, with Python truthiness:
`None` and `""` are both false.

Behaviours of the code that the model keeps:

- `tmp/agent11.py` requests the timeline and step logs with api-version
  `7.1-preview.1` and its project list with `7.1-preview.4`. It checks no
  configuration: a missing organisation URL is rendered as `None` inside
  the URL. That URL has no `:` and so no scheme, and the HTTP library
  refuses it with `MissingSchema` before sending anything. As a result:
  - `/projects` answers 200 with
    `{"error": "Failed to fetch projects: Invalid URL '...': No scheme supplied. ..."}`;
  - `get_failed_step_logs` answers with its own error prefix and the same
    text;
  - `get_failed_step_logs_from_url` lets the exception escape.
- The tools of `src/routes/agent.py` check configuration first. A
  configured organisation URL without any `:` is refused in the same way,
  and the tool answers with its own error prefix. The step log URLs of
  `get_failed_step_logs` share the timeline URL's start, so once the
  timeline is sent they are never refused.
- The context window is fixed at 3. The end of the slice is exclusive and
  clamped to the number of lines.
- `get_failed_step_logs` builds each log URL from the step *name*. It keeps
  each body whatever the status.
- `get_failed_step_logs_from_url` skips failed records whose `log` is
  absent or has no URL, and keeps non-200 logs as `Could not fetch log: ...`
  entries. A failed record whose `log` is present but not an object (JSON
  `null`, as on stage and phase records) makes `.get("url")` raise
  `AttributeError`, which nothing in the tool catches. The logs of the
  records before it have been fetched by then.
- `/config` shows `"Not configured"` whenever the organisation URL is unset
  or empty. An organisation URL that is literally `Not configured` is shown
  the same way, so the report is stated in one direction only.

## Model

| member | source | states |
|---|---|---|
| Text.JoinSplit | tmp/agent11.py:104 | joining the pieces of `s.split("\n")` with `"\n"` gives back `s`; the pieces never contain the separator and there is always at least one |
| Text.SplitJoin | tmp/agent11.py:111 | splitting a `"\n"`-join of one or more newline-free lines gives back exactly those lines |
| Text.ContainsIsSubstring | tmp/agent11.py:105 | `marker in line` holds exactly when the marker occurs at some position of the line (the empty marker occurs everywhere) |
| Text.ParseIntToString | src/routes/agent.py:59 | `str(i)` of an integer is an optional minus followed by digits, and reading it back gives `i` |
| ErrorContext.MatchesFrom | tmp/agent11.py:105 | the matched indices are strictly ascending; each is a line containing the marker; every line containing the marker is among them |
| ErrorContext.ExtractErrorContext | tmp/agent11.py:103-113 | one snippet per matched index |
| ErrorContext.SnippetIsWindow | tmp/agent11.py:107-111 | snippet k belongs to the k-th matching line i; split on newlines it is exactly lines `max(0,i-3)` up to `min(len,i+4)`; that slice has 1 to 7 lines and includes line i; later snippets belong to later lines |
| ErrorContext.SnippetCountIsMatchCount | tmp/agent11.py:105-112 | the number of snippets equals the number of lines containing the marker, so overlapping windows are never merged |
| ErrorContext.NoMatchNoSnippets | tmp/agent11.py:105-113 | the result is empty if and only if no line contains the marker |
| ErrorContext.EmptyMarkerOneSnippetPerLine | tmp/agent11.py:105 | with the empty marker every line matches: one snippet per line, the k-th centred on line k |
| ErrorContext.ExampleWholeLog | tmp/agent11.py:103-113 | `"a\nb\n##[error] c\nd\ne\nf"` yields the single snippet equal to the whole log |
| TimelineLogs.FailedLogEntries | tmp/agent11.py:36-45 | one entry per fetch; entry k is the body of response k if its status is 200, otherwise `Could not fetch log: ` plus the body; every request carries the token |
| TimelineLogs.FailedLogRequests | tmp/agent11.py:37-41 | over records the loop gets through, the logs fetched are exactly those of the failed records with a truthy `log.url`, one request each, in record order |
| TimelineLogs.FailedLogEntriesAppend | tmp/agent11.py:37-45 | record order is output order: the entries and requests for `a + b` are those for `a` followed by those for `b` |
| TimelineLogs.FailedLogEntriesOnlyFailed | tmp/agent11.py:38 | removing every record whose result is not `failed` changes neither the entries nor the requests |
| TimelineLogs.BeforeRaise | tmp/agent11.py:37-39 | the records the loop gets through form a prefix of the timeline in which no failed record has a non-object `log`; if it is shorter than the timeline, the next record is failed with a non-object `log` |
| TimelineLogs.GetFailedStepLogsFromUrl | tmp/agent11.py:30-46 | a timeline URL without a scheme makes the tool raise the `Invalid URL ... No scheme supplied` error, and nothing is sent; otherwise the timeline is the first request; a non-200 timeline returns `Failed to get timeline: ` plus its body and issues nothing more; after a 200 timeline the tool raises if and only if some failed record's `log` is not an object, with the `AttributeError` text for the first one; the logs fetched are those of the records before it; when it returns, the entries are joined with blank lines |
| TimelineLogs.NoFailedLogsFromUrl | tmp/agent11.py:36-46 | with no failed record carrying a log URL and none whose `log` is not an object, the tool returns `""` after the timeline request alone |
| TimelineLogs.FromUrlFetchesFailedLogs | tmp/agent11.py:36-46 | when no failed record's `log` is a non-object, the tool returns, and after the timeline it fetches exactly the logs of the failed records with a URL, in record order |
| TimelineLogs.NullLogRaises | tmp/agent11.py:38-39 | a failed first record whose `log` is `null` makes the tool raise `'NoneType' object has no attribute 'get'` before any log is fetched |
| TimelineLogs.FailedStepNames | tmp/agent11.py:88-91 | one step name per failed record |
| TimelineLogs.StepLogs | tmp/agent11.py:94-98 | one request per step, in step order, to the log URL built from the step name; each body is kept whatever the status |
| TimelineLogs.GetFailedStepLogs | tmp/agent11.py:82-101 | a timeline URL without a scheme gives `Error while fetching failed step logs: ` plus the `Invalid URL` text, and nothing is sent; otherwise the timeline is the first request; an error status on the timeline gives the same prefix plus the HTTP error text; with no failed record the result is exactly `No failed steps in build <id>.` and nothing but the timeline is fetched |
| TimelineLogs.StepLogUrlsHaveScheme | tmp/agent11.py:83-97 | when the timeline URL has a scheme, so does every step log URL: they share the organisation, project and build prefix, and the rest of the timeline URL holds no `:` |
| TimelineLogs.FailedStepLogRequests | tmp/agent11.py:94-99 | with failed records present, one log request per failed record in record order, and the output is the newline-join of all their bodies |
| TimelineLogs.LegacyGetProjects | tmp/agent11.py:67-79 | the reply is always 200; a URL without a scheme gives the error object `Failed to fetch projects: ` plus the `Invalid URL` text, and nothing is sent; otherwise there is one request, to the organisation's project list, and its body is returned whatever the status |
| TimelineLogs.LegacyProjectsUnconfigured | tmp/agent11.py:70-79 | with the organisation URL unset or empty, nothing is sent and the route answers 200 with `Failed to fetch projects: Invalid URL 'None/_apis/projects?api-version=7.1-preview.4': No scheme supplied. ...` (or the same for the empty URL) |
| TimelineLogs.LegacyProjectsIgnoresStatus | tmp/agent11.py:72-77 | the status is never consulted: two responses with the same body give the same reply |
| AgentRoutes.ProjectsRoutesCompared | src/routes/agent.py:167-172 | with the organisation URL unset or empty, neither `/projects` route sends a request: the blueprint's answers 400 with the configuration error, while the single-file agent's answers 200 with an error object |
| AgentRoutes.GetJson | src/routes/agent.py:64-73 | a URL without a scheme gives the tool's prefix plus the `Invalid URL` text, and nothing is sent; otherwise exactly one request; an error object comes back exactly when the status is 4xx or 5xx, and it reads the tool's prefix followed by the HTTP error text; otherwise the response body |
| AgentRoutes.ListBuildsUrlShape | src/routes/agent.py:57-62 | the `list_builds` URL is the builds path, `?`, and its parameters joined with `&` |
| AgentRoutes.ListBuildsUrlParams | src/routes/agent.py:57-62 | decoding the `list_builds` URL gives `{org}/{project}/_apis/build/builds` and the parameters `api-version=7.1`, then `definitions` if given, then `statusFilter` if given, then `$top` |
| AgentRoutes.ListBuildsOptionalParams | src/routes/agent.py:58-61 | `definitions=` is sent if and only if the definition id is non-zero; `statusFilter=` is sent if and only if the filter is non-empty |
| AgentRoutes.DefinitionsUrlParams | src/routes/agent.py:115 | the definitions URL decodes to the project's definitions path with `api-version=7.1` and `$top` |
| AgentRoutes.ListBuildsDefaults | src/routes/agent.py:52-62 | called with the project alone, `list_builds` sends the API version and `$top=5` and nothing else |
| AgentRoutes.DefinitionsDefaults | src/routes/agent.py:110-115 | called with the project alone, `get_pipeline_definitions` sends the API version and `$top=10` |
| AgentRoutes.ProjectsUrlParams | src/routes/agent.py:174 | the projects URL decodes to `{org}/_apis/projects` with `api-version=7.1` as its only parameter; it has no project segment |
| AgentRoutes.ListBuilds | src/routes/agent.py:51-73 | without configuration: the error object `Azure DevOps configuration not found` and no request; with it, a builds URL without a scheme gives `Failed to fetch builds: ` plus the `Invalid URL` text and no request; otherwise exactly one request, to the builds URL, carrying the token, answered by `Failed to fetch builds: ` plus the HTTP error text on an error status and by the response body otherwise |
| AgentRoutes.GetPipelineDefinitions | src/routes/agent.py:109-126 | without configuration: the configuration error object and no request; with it, a definitions URL without a scheme gives `Failed to fetch pipeline definitions: ` plus the `Invalid URL` text and no request; otherwise exactly one request, to the definitions URL, answered by that prefix plus the HTTP error text on an error status and by the response body otherwise |
| AgentRoutes.GetProjects | src/routes/agent.py:167-185 | without configuration: status 400 with the configuration error and no request; with it, a URL without a scheme gives 500 with `Failed to fetch projects: ` plus the `Invalid URL` text and no request; otherwise one request, answered with 500 and that prefix plus the HTTP error text on an error status, and with 200 and the response body otherwise |
| AgentRoutes.LogSection | src/routes/agent.py:102-103 | a log section reads back as the header line `=== Log <id> ===`, then exactly the log text, then the `\n---\n` footer |
| AgentRoutes.CollectLogs | src/routes/agent.py:92-103 | every request carries the token; the assembled text is empty or starts with a `=== Log ` header |
| AgentRoutes.CollectLogsEmpty | src/routes/agent.py:93-103 | no text is assembled if and only if no item with a URL was answered with 200 |
| AgentRoutes.CollectLogsAppend | src/routes/agent.py:93-103 | item order is output order: text and requests for `a + b` are those for `a` followed by those for `b` |
| AgentRoutes.CollectLogsRequests | src/routes/agent.py:93-100 | exactly the items with a truthy URL are fetched, once each, in item order, whatever the outcome |
| AgentRoutes.AssembleBuildLogs | src/routes/agent.py:92-103 | the `+=` loop over the log listing computes the same text and requests as `CollectLogs` |
| AgentRoutes.GetBuildLogs | src/routes/agent.py:75-107 | without configuration: `Azure DevOps configuration not found` and no request; with it, every request carries the token; a listing URL without a scheme gives `Failed to fetch build logs: ` plus the `Invalid URL` text and no request; otherwise the listing is the first request; an error status on the listing gives that prefix plus the HTTP error text after that one request; otherwise the log fetches are those of `CollectLogs`, and any text it collected is the answer |
| AgentRoutes.NoLogsFound | src/routes/agent.py:105 | with configuration and a listing URL that has a scheme, after a successful listing the tool answers `No logs found.` if and only if no item with a URL was answered with 200 |
| AgentRoutes.GetConfig | src/routes/agent.py:156-165 | `azure_devops_configured` holds if and only if the org URL and the token are both non-empty; the OpenAI flag likewise; the org URL is shown when set, otherwise `Not configured` |
| AgentRoutes.ListBuildsGate | src/routes/agent.py:54-73 | `list_builds` sends a request only when configured, always does when configured with an org URL that has a scheme, and every request carries the token |
| AgentRoutes.DefinitionsGate | src/routes/agent.py:112-126 | the same for `get_pipeline_definitions` |
| AgentRoutes.BuildLogsGate | src/routes/agent.py:78-107 | the same for `get_build_logs` |
| AgentRoutes.ProjectsGate | src/routes/agent.py:171-185 | the same for the blueprint's `/projects` |
| AgentRoutes.ConfigurationGate | src/routes/agent.py:54-55 | `list_builds`, `get_pipeline_definitions`, `get_build_logs` and `/projects` issue a request only when `/config` reports Azure DevOps configured; when it does and the org URL has a scheme, all four issue one; every request they issue carries the configured token |
| AgentRoutes.InitializeAgent | src/routes/agent.py:23-49 | once `llm` is set nothing changes and nothing is raised; otherwise an exception is raised unless the setup succeeds, `llm` ends set unless building the model itself fails, and the executor ends set only when the setup succeeds |
| AgentRoutes.Chat | src/routes/agent.py:128-154 | the agent runs at most once, only on a non-empty message, only with the executor set, and always when an answer is returned; the 500 `Agent not properly initialized` reply runs no agent and leaves the executor unset; a process with `llm` set keeps its state |
| AgentRoutes.ChatValidation | src/routes/agent.py:133-146 | the 400 `Message is required` reply comes if and only if the body is an object whose message is missing, null or empty; the agent is then neither set up nor run; in a fresh process whose setup succeeds, the agent runs on exactly the message |
| AgentRoutes.PartialSetupSticks | src/routes/agent.py:139-143 | a first request whose setup fails after `llm` is assigned answers 500 with `Failed to process request: ` and the error; every later request with a message then answers 500 `Agent not properly initialized` without running the agent, whatever setup it would try |
| AgentRoutes.ReadyStaysReady | src/routes/agent.py:139-146 | once the executor is built, every request with a message keeps the state, reaches the agent with that message and never gets `Agent not properly initialized` |

## Left out

- The language-model agent itself is left out. This covers
  `AzureChatOpenAI`, `create_openai_tools_agent`, `AgentExecutor` and the
  prompts, which are library code.
  - `initialize_agent` keeps its control flow: the skip once `llm` is set,
    and `llm` assigned before the executor. Whether building the model or
    the rest of the agent raises is a parameter (`Setup`).
  - The running agent is a parameter of `Chat` that returns an output or
    raises.
  - Concurrent requests sharing that state are not modelled.
- `chat` in `tmp/agent11.py` is left out. It passes the `input` field
  straight to the agent and returns the agent's result.
- Transport failures are left out: `fetch` always returns a response.
  Failures to decode JSON are left out too.
- The `Content-Type` header the tools send is not modelled. Neither are the
  Flask routing, CORS and `jsonify` envelope, nor the reading of the
  environment.
- Request bodies that are not JSON are left out of `/chat`. A message that
  is a JSON value other than a string or null is left out too.
- TimelineLogs.GetFailedStepLogs: only two exceptions are modelled as
  reaching the handler's `except Exception`: the `MissingSchema` refusal
  and the HTTP error raised by `raise_for_status`. The latter's text is the
  status code, `Client Error` or `Server Error`, the reason phrase and the
  response's URL. Decoding errors and network errors are not modelled.
- AgentRoutes.GetJson, AgentRoutes.GetBuildLogs, TimelineLogs.GetFailedStepLogs:
  the URL in the HTTP error text is the response's URL as the library
  reports it, which the network parameter supplies. The model does not
  compute how requests re-quotes or normalises the URL it prepares, nor
  where a redirect ends; so it does not promise that this URL equals the
  one requested.
- The `MissingSchema` refusal is modelled only as "the URL contains no
  `:`", with the message built from the URL as given. Not modelled:
  - Python's repr quoting of a URL containing quotes, backslashes or
    control characters;
  - the stripping of leading whitespace;
  - URLs that contain a `:` but are still rejected (`InvalidSchema`, no
    host, unparsable). These are treated as sent.
- AgentRoutes.ConfigurationGate: "configured implies a request" is
  promised only for an organisation URL that contains a `:`. A configured
  URL without one is refused by the HTTP library, so nothing is sent.
- Log URLs supplied by the server are assumed to carry a scheme. These are
  the timeline's `log.url` in `get_failed_step_logs_from_url` and each log
  item's `url` in `get_build_logs`. Step log URLs are proved to carry one
  (`StepLogUrlsHaveScheme`).
- AgentRoutes.ListBuilds: `definition_id` is modelled as an integer and
  `status_filter` as a string. The model does not say how the agent might
  render other JSON types. The same holds for `top` and `build_id`.
- AgentRoutes.ListBuildsUrlParams, AgentRoutes.DefinitionsUrlParams,
  AgentRoutes.ProjectsUrlParams, AgentRoutes.ListBuildsDefaults and
  AgentRoutes.DefinitionsDefaults: stated only for an org URL and project
  without `?`, and a status filter without `?` or `&`. The source does not
  encode these characters, so other inputs do not decode back into the
  same parameters. The status filter applies to `list_builds` only.
- Timeline records and log items that are not JSON objects are left out;
  `record.get` on them would raise. Only the record's `log` value is
  modelled as possibly being something other than an object.
- AgentRoutes.GetConfig: the `"Not configured"` text is stated in one
  direction only. An org URL that is literally `Not configured` reads the
  same.
