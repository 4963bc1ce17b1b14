/**
 * The tool execution endpoint: validate the tool id, settle the query, pick
 * the crew, fetch the cached flow, run it, normalise its result, and turn
 * every raised exception into a failure response.
 */
module ExecuteEndpoint {
  import opened Wrappers
  import opened PyValues
  import ToolMapping
  import QueryBuilder
  import ResultParser
  import FlowCaching

  datatype ToolExecuteRequest = ToolExecuteRequest(toolId: string, params: map<string, Value>, userQuery: Option<string>)

  /** The inputs handed to `flow.kickoff`. */
  datatype KickoffInputs = KickoffInputs(userQuery: string, crewName: string, flowName: string)

  /** Response metadata; execution times and timestamps are not modelled. */
  datatype Metadata =
    | AvailableTools(tools: seq<string>)
    | Executed(toolId: string, crewName: string)
    | Traceback  // traceback.format_exc(), whose text is not modelled

  datatype ToolExecuteResponse = ToolExecuteResponse(
    success: bool,
    output: Option<map<string, Value>>,
    error: Option<string>,
    metadata: Option<Metadata>)

  /** An exception that reaches the endpoint's handlers, with its `str(e)`. */
  datatype Raised = ValueError(message: string) | OtherException(message: string)

  /** What `flow.kickoff(...)` does: return a result or raise. */
  datatype KickoffOutcome = Returned(result: ResultParser.FlowResult) | Threw(exception: Raised)

  /** What validation and query selection decide before any flow is fetched. */
  datatype Decision =
    | Reject(response: ToolExecuteResponse)
    | QueryFault(fault: Fault)
    | Kickoff(inputs: KickoffInputs)

  /** The endpoint's collaborators outside the model. */
  datatype Environment<!F> = Environment(
    rt: Runtime,
    apiKey: Option<string>,                         // os.getenv("OPENAI_API_KEY")
    build: (string, string) -> Result<F, string>,   // GoogleSuiteFlow(name=..., api_key=...)
    kickoff: (F, KickoffInputs) -> KickoffOutcome)  // flow.kickoff(inputs=...)

  /** `str(list_of_ids)` for ids made of letters and underscores: each quoted with ', separated by ", ", in brackets. */
  function IdListText(ids: seq<string>): string {
    "[" + JoinText(", ", seq(|ids|, k requires 0 <= k < |ids| => "'" + ids[k] + "'")) + "]"
  }

  function UnknownToolMessage(toolId: string): string {
    "Unknown tool ID: " + toolId + ". Available tools: " + IdListText(ToolMapping.ToolIds())
  }

  /** `request.userQuery` is truthy: present and non-empty. */
  predicate QueryGiven(userQuery: Option<string>) {
    userQuery.Some? && userQuery.value != ""
  }

  /** The validation, query and crew selection of the endpoint, up to the call of `get_google_suite_flow`. */
  function Dispatch(rt: Runtime, req: ToolExecuteRequest): (d: Decision)
    ensures req.toolId !in ToolMapping.ToolIds() ==>
      d == Reject(ToolExecuteResponse(false, None, Some(UnknownToolMessage(req.toolId)),
                                      Some(AvailableTools(ToolMapping.ToolIds()))))
    ensures req.toolId in ToolMapping.ToolIds() ==> !d.Reject?
    ensures d.Kickoff? ==>
      && d.inputs.flowName == d.inputs.crewName
      && ToolMapping.CrewOf(req.toolId) == Some(d.inputs.crewName)
    ensures req.toolId in ToolMapping.ToolIds() && QueryGiven(req.userQuery) ==>
      d.Kickoff? && d.inputs.userQuery == req.userQuery.value
    ensures req.toolId in ToolMapping.ToolIds() && !QueryGiven(req.userQuery) ==>
      match QueryBuilder.ConvertParamsToUserQuery(rt, req.toolId, req.params)
      case Success(q) => d.Kickoff? && d.inputs.userQuery == q
      case Failure(f) => d == QueryFault(f)
  {
    if ToolMapping.CrewOf(req.toolId).None? then
      Reject(ToolExecuteResponse(false, None, Some(UnknownToolMessage(req.toolId)),
                                 Some(AvailableTools(ToolMapping.ToolIds()))))
    else
      var query :=
        if QueryGiven(req.userQuery) then Success(req.userQuery.value)
        else QueryBuilder.ConvertParamsToUserQuery(rt, req.toolId, req.params);
      var crew := ToolMapping.CrewOf(req.toolId).GetOr("GOOGLE_SUITE_FLOW");
      match query
      case Failure(f) => QueryFault(f)
      case Success(q) => Kickoff(KickoffInputs(q, crew, crew))
  }

  /** The two exception handlers of the endpoint. */
  function ErrorResponse(toolId: string, e: Raised): (resp: ToolExecuteResponse)
    ensures !resp.success && resp.output.None? && resp.error.Some?
    ensures e.ValueError? ==> resp.error == Some("Configuration error: " + e.message) && resp.metadata.None?
    ensures e.OtherException? ==> resp.error == Some("Error executing tool " + toolId + ": " + e.message)
  {
    match e
    case ValueError(m) => ToolExecuteResponse(false, None, Some("Configuration error: " + m), None)
    case OtherException(m) => ToolExecuteResponse(false, None, Some("Error executing tool " + toolId + ": " + m), Some(Traceback))
  }

  /**
   * The response once the flow has run: its result is normalised, then the
   * log line slices the result's message to 200 characters, which raises
   * when a dict result's message is neither a str nor a list.
   */
  function Completed(rt: Runtime, toolId: string, crewName: string, outcome: KickoffOutcome): (resp: ToolExecuteResponse)
    ensures resp.success ==>
      && outcome.Returned?
      && resp.output == Some(ResultParser.ParseCrewaiResult(rt, outcome.result))
      && resp.metadata == Some(Executed(toolId, crewName))
    ensures outcome.Returned? && !outcome.result.DictResult? ==> resp.success
    ensures outcome.Returned? ==>
      (resp.success <==> Prefix(Get(ResultParser.ParseCrewaiResult(rt, outcome.result), "message", Str("N/A")), 200).Success?)
    ensures outcome.Threw? ==> resp == ErrorResponse(toolId, outcome.exception)
  {
    match outcome
    case Threw(e) => ErrorResponse(toolId, e)
    case Returned(result) =>
      var parsed := ResultParser.ParseCrewaiResult(rt, result);
      match Prefix(Get(parsed, "message", Str("N/A")), 200)
      case Failure(f) => ErrorResponse(toolId, OtherException(rt.faultText(f)))
      case Success(_) => ToolExecuteResponse(true, Some(parsed), None, Some(Executed(toolId, crewName)))
  }

  /** `execute_google_suite_tool(request)`: the response and the flow cache it leaves. */
  function Handle<F>(flows: map<string, F>, req: ToolExecuteRequest, env: Environment<F>): (out: (ToolExecuteResponse, map<string, F>))
    ensures !Dispatch(env.rt, req).Kickoff? ==> out.1 == flows
    ensures out.1 - {FlowCaching.CacheKey} == flows - {FlowCaching.CacheKey}
    ensures out.0.success ==> Dispatch(env.rt, req).Kickoff? && FlowCaching.CacheKey in out.1
    ensures Dispatch(env.rt, req).Kickoff? ==>
      var inputs := Dispatch(env.rt, req).inputs;
      var fetched := FlowCaching.FetchFlow(flows, env.apiKey, env.build);
      && out.1 == fetched.1
      && match fetched.0
         case Failure(msg) => out.0 == ErrorResponse(req.toolId, ValueError(msg))
         case Success(flow) => out.0 == Completed(env.rt, req.toolId, inputs.crewName, env.kickoff(flow, inputs))
  {
    match Dispatch(env.rt, req)
    case Reject(resp) => (resp, flows)
    case QueryFault(f) => (ErrorResponse(req.toolId, OtherException(env.rt.faultText(f))), flows)
    case Kickoff(inputs) =>
      var fetched := FlowCaching.FetchFlow(flows, env.apiKey, env.build);
      match fetched.0
      case Failure(msg) => (ErrorResponse(req.toolId, ValueError(msg)), fetched.1)
      case Success(flow) => (Completed(env.rt, req.toolId, inputs.crewName, env.kickoff(flow, inputs)), fetched.1)
  }

  /** The endpoint over the shared flow cache. */
  method ExecuteGoogleSuiteTool<F>(cache: FlowCaching.FlowCache<F>, req: ToolExecuteRequest, env: Environment<F>)
    returns (resp: ToolExecuteResponse)
    requires cache.Valid()
    modifies cache
    ensures cache.Valid()
    ensures (resp, cache.flows) == Handle(old(cache.flows), req, env)
  {
    match Dispatch(env.rt, req) {
      case Reject(r) =>
        resp := r;
      case QueryFault(f) =>
        resp := ErrorResponse(req.toolId, OtherException(env.rt.faultText(f)));
      case Kickoff(inputs) =>
        var got := cache.GetGoogleSuiteFlow(env.apiKey, env.build);
        match got {
          case Failure(msg) =>
            resp := ErrorResponse(req.toolId, ValueError(msg));
          case Success(flow) =>
            resp := Completed(env.rt, req.toolId, inputs.crewName, env.kickoff(flow, inputs));
        }
    }
  }

  // ------------------------------------------------------------------ lemmas

  /** An unknown tool id is refused with the tool named and the known ids listed, before any query is built or the cache is touched. */
  lemma UnknownToolRejected<F>(flows: map<string, F>, req: ToolExecuteRequest, env: Environment<F>)
    requires req.toolId !in ToolMapping.ToolIds()
    ensures var out := Handle(flows, req, env);
      && out.1 == flows
      && !out.0.success && out.0.output.None?
      && out.0.error.Some? && "Unknown tool ID: " + req.toolId <= out.0.error.value
      && out.0.metadata == Some(AvailableTools(ToolMapping.ToolIds()))
  {
  }

  /** A query that raises while it is built fails the request and leaves the cache alone. */
  lemma QueryFaultLeavesCache<F>(flows: map<string, F>, req: ToolExecuteRequest, env: Environment<F>)
    requires req.toolId in ToolMapping.ToolIds() && !QueryGiven(req.userQuery)
    requires QueryBuilder.ConvertParamsToUserQuery(env.rt, req.toolId, req.params).Failure?
    ensures var out := Handle(flows, req, env);
      && out.1 == flows
      && out.0 == ErrorResponse(req.toolId, OtherException(env.rt.faultText(
           QueryBuilder.ConvertParamsToUserQuery(env.rt, req.toolId, req.params).error)))
  {
  }

  /** With no flow cached yet and no API key, a valid request is a configuration error and the cache stays empty. */
  lemma MissingKeyIsConfigurationError<F>(flows: map<string, F>, req: ToolExecuteRequest, env: Environment<F>)
    requires FlowCaching.CacheKey !in flows && FlowCaching.KeyMissing(env.apiKey)
    ensures Dispatch(env.rt, req).Kickoff? ==>
      Handle(flows, req, env)
      == (ToolExecuteResponse(false, None, Some("Configuration error: " + FlowCaching.MissingKeyMessage), None), flows)
  {
  }

  /** A successful response comes from a cached flow, names the tool and its crew, and carries the normalised result. */
  lemma SuccessMeansFlowRan<F>(flows: map<string, F>, req: ToolExecuteRequest, env: Environment<F>)
    ensures var out := Handle(flows, req, env);
      out.0.success ==>
      && FlowCaching.CacheKey in out.1
      && out.0.output.Some?
      && out.0.metadata.Some? && out.0.metadata.value.Executed?
      && out.0.metadata.value.toolId == req.toolId
      && ToolMapping.CrewOf(req.toolId) == Some(out.0.metadata.value.crewName)
  {
  }

  /** Once a flow is cached, the API key and the flow constructor no longer matter, and the cache does not change. */
  lemma CachedFlowIgnoresConstruction<F>(flows: map<string, F>, req: ToolExecuteRequest, env: Environment<F>,
                                         apiKey: Option<string>, build: (string, string) -> Result<F, string>)
    requires FlowCaching.CacheKey in flows
    ensures Handle(flows, req, env) == Handle(flows, req, env.(apiKey := apiKey, build := build))
    ensures Handle(flows, req, env).1 == flows
  {
  }

  /** A dict result whose message is neither a str nor a list makes the log line raise, so the request fails although the flow ran. */
  lemma UnsliceableMessageFailsRequest(rt: Runtime, toolId: string, crewName: string, entries: map<string, Value>)
    requires "message" in entries && !(entries["message"].Str? || entries["message"].List?)
    ensures var resp := Completed(rt, toolId, crewName, Returned(ResultParser.DictResult(entries)));
      && !resp.success
      && resp.error == Some("Error executing tool " + toolId + ": " + rt.faultText(NotSliceable))
  {
  }
}
