/**
 * Normalising whatever the crew flow returns into the `{data, status,
 * message}` dictionary the calling block expects.
 */
module ResultParser {
  import opened PyValues

  /**
   * The shapes a flow result can take, tested in this order: a str, an object
   * with a `response` attribute (the flow's state), a dict, another object
   * with a `__dict__`, and anything else. `shown` is `str(result)`, whose text
   * the model does not fix.
   */
  datatype FlowResult =
    | TextResult(text: string)
    | StateResult(response: Value, shown: string)
    | DictResult(entries: map<string, Value>)
    | ObjectResult(attributes: map<string, Value>, shown: string)
    | OtherResult(shown: string)

  /** The dictionary every non-dict result becomes. */
  function Normalised(data: Value, message: string): map<string, Value> {
    map["data" := data, "status" := Str("success"), "message" := Str(message)]
  }

  /** `parse_crewai_result(result)` */
  function ParseCrewaiResult(rt: Runtime, result: FlowResult): (out: map<string, Value>)
    ensures result.DictResult? ==> out == result.entries
    ensures !result.DictResult? ==>
      && out.Keys == {"data", "status", "message"}
      && out["status"] == Str("success")
      && out["message"].Str?
    ensures result.TextResult? ==> out["data"] == out["message"] == Str(result.text)
    ensures result.StateResult? || result.OtherResult? ==> out["data"] == out["message"]
    ensures result.StateResult? && !Truthy(result.response) ==> out["message"] == Str(result.shown)
    ensures result.StateResult? && Truthy(result.response) ==> out["message"] == Str(ToStr(rt, result.response))
    ensures result.OtherResult? ==> out["message"] == Str(result.shown)
    ensures result.ObjectResult? ==> out["data"] == Dict(result.attributes) && out["message"] == Str(result.shown)
  {
    match result
    case TextResult(text) => Normalised(Str(text), text)
    case StateResult(response, shown) =>
      var text := if Truthy(response) then ToStr(rt, response) else shown;
      Normalised(Str(text), text)
    case DictResult(entries) => entries
    case ObjectResult(attributes, shown) => Normalised(Dict(attributes), shown)
    case OtherResult(shown) => Normalised(Str(shown), shown)
  }

  /** A flow state whose response is a str shows that str; only an empty one falls back to `str(result)`. */
  lemma StateResponseText(rt: Runtime, response: string, shown: string)
    ensures ParseCrewaiResult(rt, StateResult(Str(response), shown))["message"]
         == Str(if response != "" then response else shown)
  {
  }
}
