# Google Suite tool wrapper: a Dafny model of the request-handling core

`api_server.py` is a small HTTP server. It sits between workflow blocks and a
crew of language-model agents, the "Google Suite flow". A block posts a tool id
such as `gmail_send` with structured parameters. The server then:

1. checks the id against a fixed tool-to-crew table;
2. takes the caller's own query, or builds a natural-language query from the
   parameters;
3. fetches the flow from a one-entry cache, building it on first use;
4. runs the flow and normalises its result into `{data, status, message}`;
5. turns every raised exception into a failure response.

This project models those steps in Dafny and proves properties of the model.

- `wrappers.dfy` (`Wrappers`): `Option` and `Result`.
- `python_values.dfy` (`PyValues`): the Python values in `params`. It covers
  truthiness, `dict.get`, `len`, slicing, `str()` of scalars (including a
  decimal rendering of ints with a proved round trip) and `', '.join`.
- `tool_mapping.dfy` (`ToolMapping`): `TOOL_TO_CREW_MAPPING`, in declaration
  order, and the tool-list endpoint.
- `query_builder.dfy` (`QueryBuilder`): `convert_params_to_user_query`, one
  function per branch with optional clauses, plus plain-text reference
  descriptions it is proved against.
- `result_parser.dfy` (`ResultParser`): `parse_crewai_result`.
- `flow_cache.dfy` (`FlowCaching`): `_flow_cache` and `get_google_suite_flow`.
  This is the one stateful part, a class holding a map.
- `execute_endpoint.dfy` (`ExecuteEndpoint`): `execute_google_suite_tool`. It
  has a pure decision function (`Dispatch`), a pure specification of the whole
  request (`Handle`), and the method over the shared cache.

Behaviour of the code that the model keeps as written:

- A query is built only when `userQuery` is missing or empty.
- Building a query can raise:
  - `', '.join` over attendees that are not all strings;
  - `len()` of a truthy int or bool email body;
  - slicing a reply body that is not a str or a list, or an email body that
    is a dict of more than 100 keys.
  
  Each of these becomes the generic "Error executing tool" response, and the
  flow cache is left untouched.
- `gmail_reply` appends `...` after the reply body whatever its length.
  `gmail_send` appends it only when the body is longer than 100 characters.
- Nine mapped tools have no branch of their own, so their query is the generic
  JSON one: `google_calendar_quick_add`, `google_calendar_freebusy`,
  `gmail_draft`, `gmail_labels`, `google_drive_move`, `google_drive_delete`,
  `google_sheets_update`, `google_sheets_append` and `google_docs_write`.
- After a successful run, the log line slices the result's `message` to 200
  characters. If a dict result's message is neither a str nor a list, this
  raises and the request fails even though the flow ran.
- A `ValueError` raised by the flow itself is reported as a
  "Configuration error", the same as a missing API key.

The model follows the code of `api_server.py`.

## Model

| member | source | states |
|---|---|---|
| PyValues.Len | api_server.py:260 | `len` succeeds exactly on str, list and dict, and gives a string's length |
| PyValues.Prefix | api_server.py:260 | `v[:n]` succeeds exactly on str and list, and gives a prefix of length min(n, len) |
| PyValues.Digits | api_server.py:234-235 | the digits of a natural number are non-empty, all decimal digits, and have no leading zero |
| PyValues.DigitsRoundTrip | api_server.py:234-235 | reading back the digits written for n gives n |
| PyValues.Decimal | api_server.py:268-271 | `str(i)` starts with '-' exactly for negative i and is otherwise digits |
| PyValues.DecimalRoundTrip | api_server.py:268-271 | reading back `str(i)` gives i, for every int |
| PyValues.ToStr | api_server.py:220-228 | an f-string shows a str unchanged and an int as its decimal text |
| PyValues.Join | api_server.py:228 | `', '.join(xs)` succeeds exactly when every element is a str, and raises otherwise |
| PyValues.JoinOfStrings | api_server.py:228 | joining str values gives the plain-text join of their strings |
| PyValues.JoinTextLength | api_server.py:228 | joining n strings adds exactly n - 1 separators |
| ToolMapping.Keys | api_server.py:394 | `list(d.keys())` has one key per entry, in order |
| ToolMapping.LookupFindsKeys | api_server.py:427 | a lookup succeeds exactly for the table's keys, and finds an entry of the table |
| ToolMapping.ToolIds | api_server.py:42-79 | there are 27 tool ids |
| ToolMapping.ToolIdsInOrder | api_server.py:42-79 | the tool ids in declaration order |
| ToolMapping.CrewOf | api_server.py:445 | a crew is found exactly for a mapped tool id, and it is that tool's entry |
| ToolMapping.ListAvailableTools | api_server.py:390-397 | the listing has 27 tools, `total` is their count, and lists exactly the mapped ids |
| QueryBuilder.AttendeesClause | api_server.py:227-228 | falsy attendees add nothing; a list raises exactly when an element is not a str |
| QueryBuilder.CalendarCreateQuery | api_server.py:211-229 | the event query raises only for unjoinable attendees, and always starts with "Create calendar event: " and the summary (default "event") |
| QueryBuilder.Excerpt | api_server.py:260 | a body of at most 100 characters is kept whole; a longer one becomes its first 100 characters and "..." |
| QueryBuilder.BodyClause | api_server.py:259-260 | an empty body adds nothing; a str body adds " and body: " and its text, cut to 100 plus "..." when longer; it raises exactly for a truthy int or bool, or a dict of more than 100 keys |
| QueryBuilder.GmailSendQuery | api_server.py:251-265 | the send query raises exactly when the body does, and starts with the recipient and subject |
| QueryBuilder.GmailReplyQuery | api_server.py:277-281 | the reply query raises unless the reply body is a str or a list; for a str it holds its first 100 characters, followed by "..." always |
| QueryBuilder.UploadName | api_server.py:285 | a truthy `fileName` wins; otherwise `name`, and "file" when neither is given |
| QueryBuilder.DriveListQuery | api_server.py:291-298 | a truthy search query wins over a truthy folder id, which wins over listing everything |
| QueryBuilder.ConvertParamsToUserQuery | api_server.py:207-337 | a tool without a branch gets "Execute {id} with parameters: {json}"; only calendar create, gmail send and gmail reply can raise |
| QueryBuilder.CalendarCreateDescribesEvent | api_server.py:211-229 | an event given as text reads summary, then "from", "to", "with description" and "with attendees" (joined with ", "), each only when non-empty |
| QueryBuilder.CalendarTimeMayBeText | api_server.py:213-216 | a start or end sent as a bare string gives the same query as a `{dateTime}` object |
| QueryBuilder.GmailSendDescribesEmail | api_server.py:258-265 | an email given as text reads recipient and subject, then the body excerpt, CC and BCC in that order, each only when non-empty |
| QueryBuilder.GmailSendFalsyCopyIsAbsent | api_server.py:255-264 | a falsy cc or bcc gives the same query as an absent one |
| QueryBuilder.DriveListQueryBeatsFolder | api_server.py:292-295 | with a truthy search query the folder id makes no difference |
| QueryBuilder.DriveUploadFileNameFirst | api_server.py:284-289 | with a truthy file name, `name` makes no difference; a falsy file name reads as absent |
| QueryBuilder.EmptyParamsDefaults | api_server.py:211-334 | the defaults: "event", "now"/"future"/10, "unread"/24/10, "file", "New Folder", "New Document", the bare drive listing, and the reply's trailing "..." |
| QueryBuilder.BranchesServeMappedTools | api_server.py:207-334 | every dedicated branch is for a mapped tool id |
| QueryBuilder.MappedToolsSplit | api_server.py:42-79 | every mapped tool either has its own branch or is one of the nine fallback tools, never both |
| QueryBuilder.FallbackToolsUseJson | api_server.py:336-337 | the nine fallback tools get the generic JSON query |
| ResultParser.ParseCrewaiResult | api_server.py:343-374 | a dict comes back unchanged; anything else gives exactly data, status and message, with status "success"; a str is both data and message; a flow state shows its truthy response as `str()` and otherwise `str(result)`; an object's data is its `__dict__`; any other value gives `str(result)` as both data and message |
| ResultParser.StateResponseText | api_server.py:352-359 | a flow state shows its non-empty response, and only an empty one falls back to `str(result)` |
| FlowCaching.FetchFlow | api_server.py:165-201 | a cached flow is returned without building; a missing key or a failed build raises ValueError and leaves the cache as it was; a built flow is stored under "google_suite"; no other key changes |
| FlowCaching.CachedFlowIsReused | api_server.py:175-201 | after one successful fetch, every later fetch returns the same flow and changes nothing, whatever key and constructor it gets |
| FlowCaching.FlowCache.constructor | api_server.py:163 | the cache starts empty |
| FlowCaching.FlowCache.GetGoogleSuiteFlow | api_server.py:165-201 | the method over the shared dictionary does what FetchFlow says, and only the "google_suite" key is ever stored |
| ExecuteEndpoint.Dispatch | api_server.py:417-445 | unknown ids are rejected with success false, no output, an error naming the tool and the list of ids; for a known id the query is `userQuery` when truthy, else the built query or its fault; crew and flow names are both the tool's crew |
| ExecuteEndpoint.ErrorResponse | api_server.py:491-509 | a ValueError gives "Configuration error: ..." with no metadata; any other exception gives "Error executing tool {id}: ..." |
| ExecuteEndpoint.Completed | api_server.py:471-489 | success carries the normalised result and the tool and crew names; a returned result succeeds exactly when its message (default "N/A") can be sliced to 200, so every non-dict result succeeds; an exception from kickoff gives that exception's error response |
| ExecuteEndpoint.Handle | api_server.py:399-509 | the cache is touched only after validation and query building succeed; only "google_suite" may change; success implies a cached flow; a valid request fetches the flow as FetchFlow does, answers a failed fetch with "Configuration error: ...", and otherwise kicks the flow off with Dispatch's inputs and answers with Completed on that run |
| ExecuteEndpoint.ExecuteGoogleSuiteTool | api_server.py:399-509 | the endpoint over the shared cache gives the response and new cache of Handle |
| ExecuteEndpoint.UnknownToolRejected | api_server.py:427-435 | an unknown tool id leaves the cache untouched and answers with the tool named and the available ids listed |
| ExecuteEndpoint.QueryFaultLeavesCache | api_server.py:438-440 | a query that raises while it is built gives the generic error response and leaves the cache untouched |
| ExecuteEndpoint.MissingKeyIsConfigurationError | api_server.py:175-178 | with no cached flow and no API key, a valid request answers "Configuration error: OPENAI_API_KEY not set ..." and the cache stays as it was |
| ExecuteEndpoint.SuccessMeansFlowRan | api_server.py:480-489 | a successful response has a cached flow, an output, and metadata naming the tool and its mapped crew |
| ExecuteEndpoint.CachedFlowIgnoresConstruction | api_server.py:175-201 | once a flow is cached, the API key and the constructor no longer affect the response, and the cache does not change |
| ExecuteEndpoint.UnsliceableMessageFailsRequest | api_server.py:477 | a dict result whose message is not a str or a list makes the request fail with the generic error |

## Left out

- FastAPI app, CORS middleware, startup banner, `/health` endpoint, exception handler hooks and the uvicorn entry point (api_server.py:85-122, 380-388, 515-556): framework plumbing.
- `GoogleSuiteFlow` construction and `flow.kickoff`: a foreign agent library, modelled as the function parameters `build` and `kickoff`.
- The thread pool and `run_in_executor`: concurrency plumbing, which does not change the sequence of steps.
- Timestamps and `execution_time_seconds`: wall-clock values and floats. The `Executed` metadata keeps only the tool id and crew name.
- Printing and `traceback` text: I/O. The traceback metadata is a constant constructor without content.
- The exact text of `json.dumps`, of `str()` of lists, dicts and objects, and of exception messages: these are the `Runtime` fields and `shown` strings, left uninterpreted. `str()` of str, int, bool and None is modelled exactly.
- Key order of dicts: `params` and dict values are `map`s, which have no order, so the fallback query's `json.dumps(params)` text and `str(dict)` are modelled without the order in which the client sent its keys (api_server.py:337).
- Float parameter values: `Value` has no float case.
- The environment variable is a parameter (`apiKey`), not read from the process.
- ToolMapping.Lookup returns the first entry with the given key. The 27 ids are written out and can be seen to differ, but no lemma proves that they are distinct.
- test_api_server.py: an HTTP client for a live server, with no behaviour of its own to model.
