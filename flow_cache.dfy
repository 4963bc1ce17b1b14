/**
 * The module-level flow cache: a dictionary holding at most one flow, under
 * the key "google_suite", filled on the first request that can build it.
 */
module FlowCaching {
  import opened Wrappers

  const CacheKey := "google_suite"
  const FlowName := "Google Suite Flow"
  const MissingKeyMessage := "OPENAI_API_KEY not set in environment variables"

  /** `not api_key`: the key is unset or empty. */
  predicate KeyMissing(apiKey: Option<string>) {
    apiKey.None? || apiKey.value == ""
  }

  /**
   * What `get_google_suite_flow()` returns, or the message of the ValueError
   * it raises, and the cache it leaves behind. `build(name, key)` is the flow
   * constructor: the flow, or `str(e)` of what it raised.
   */
  function FetchFlow<F>(flows: map<string, F>, apiKey: Option<string>, build: (string, string) -> Result<F, string>)
    : (out: (Result<F, string>, map<string, F>))
    ensures CacheKey in flows ==> out == (Success(flows[CacheKey]), flows)
    ensures CacheKey !in flows && KeyMissing(apiKey) ==> out == (Failure(MissingKeyMessage), flows)
    ensures CacheKey !in flows && !KeyMissing(apiKey) ==>
      match build(FlowName, apiKey.value)
      case Success(flow) => out == (Success(flow), flows[CacheKey := flow])
      case Failure(msg) => out == (Failure("Flow initialization failed: " + msg), flows)
    ensures out.0.Failure? ==> out.1 == flows
    ensures out.0.Success? ==> CacheKey in out.1 && out.1[CacheKey] == out.0.value
    ensures out.1 - {CacheKey} == flows - {CacheKey}
  {
    if CacheKey in flows then (Success(flows[CacheKey]), flows)
    else if KeyMissing(apiKey) then (Failure(MissingKeyMessage), flows)
    else
      match build(FlowName, apiKey.value)
      case Success(flow) => (Success(flow), flows[CacheKey := flow])
      case Failure(msg) => (Failure("Flow initialization failed: " + msg), flows)
  }

  /** Once a fetch has succeeded, every later fetch returns the same flow, whatever key and constructor it is given, and changes nothing. */
  lemma CachedFlowIsReused<F>(flows: map<string, F>, apiKey: Option<string>, build: (string, string) -> Result<F, string>,
                              laterKey: Option<string>, laterBuild: (string, string) -> Result<F, string>)
    requires FetchFlow(flows, apiKey, build).0.Success?
    ensures var first := FetchFlow(flows, apiKey, build);
      FetchFlow(first.1, laterKey, laterBuild) == first
  {
  }

  /** `_flow_cache`, the dictionary shared by every request. */
  class FlowCache<F> {
    var flows: map<string, F>

    /** Only the one key is ever stored. */
    ghost predicate Valid()
      reads this
    {
      flows.Keys <= {CacheKey}
    }

    constructor ()
      ensures Valid() && flows == map[]
    {
      flows := map[];
    }

    /** `get_google_suite_flow()`; a Failure carries the message of the ValueError raised. */
    method GetGoogleSuiteFlow(apiKey: Option<string>, build: (string, string) -> Result<F, string>) returns (r: Result<F, string>)
      requires Valid()
      modifies this
      ensures Valid()
      ensures (r, flows) == FetchFlow(old(flows), apiKey, build)
      ensures CacheKey in old(flows) ==> r == Success(old(flows)[CacheKey]) && flows == old(flows)
      ensures r.Failure? ==> flows == old(flows)
      ensures r.Success? ==> flows == map[CacheKey := r.value]
    {
      if CacheKey !in flows {
        if KeyMissing(apiKey) {
          return Failure(MissingKeyMessage);
        }
        match build(FlowName, apiKey.value) {
          case Success(flow) =>
            flows := flows[CacheKey := flow];
          case Failure(msg) =>
            return Failure("Flow initialization failed: " + msg);
        }
      }
      r := Success(flows[CacheKey]);
    }
  }
}
