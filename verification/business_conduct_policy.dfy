/**
 * `BusinessConductPolicy.get_business_conduct_policy_info`: a blank-query
 * guard followed by one Unity Catalog function call with fixed arguments.
 * The function client is an oracle from the call to its result.
 */
module BusinessConductPolicy {
  import opened Wrappers
  import opened PyStr

  /** `execute_function(function_name=..., parameters=...)`. */
  datatype FunctionCall = FunctionCall(functionName: string, parameters: map<string, string>)

  /** The function client's `FunctionExecutionResult`, passed back unchanged. */
  datatype FunctionExecutionResult = FunctionExecutionResult(value: Option<string>, error: Option<string>)

  /** `DatabricksFunctionClient.execute_function`. */
  type Executor = FunctionCall -> FunctionExecutionResult

  const ConductFunction := "juan_dev.genai.retail_club_conduct"
  const EmptyQueryMessage := "Search query cannot be empty"

  /**
   * The validated call for a query: rejected exactly when the query is
   * empty or white space only, otherwise the conduct function with the
   * query passed verbatim (not trimmed) as `search_query`.
   */
  function PolicyCall(searchQuery: string): (r: Result<FunctionCall>)
    ensures r.Err? <==> IsBlank(searchQuery)
    ensures r.Err? ==> r.error == ValueError(EmptyQueryMessage)
    ensures r.Ok? ==>
      && r.value.functionName == ConductFunction
      && r.value.parameters.Keys == {"search_query"}
      && r.value.parameters["search_query"] == searchQuery
  {
    StripEmptyIffBlank(searchQuery);
    if searchQuery == "" || Strip(searchQuery) == "" then Err(ValueError(EmptyQueryMessage))
    else Ok(FunctionCall(ConductFunction, map["search_query" := searchQuery]))
  }

  /**
   * `get_business_conduct_policy_info`: the guard runs first, so an
   * invalid query never reaches the function client; a valid one returns
   * the client's result as it is.
   */
  function GetBusinessConductPolicyInfo(execute: Executor, searchQuery: string)
    : (r: Result<FunctionExecutionResult>)
    ensures r.Err? <==> PolicyCall(searchQuery).Err?
    ensures r.Err? ==> r.error == ValueError(EmptyQueryMessage)
    ensures r.Ok? ==> r.value == execute(PolicyCall(searchQuery).value)
  {
    var call := PolicyCall(searchQuery);
    if call.Err? then Err(call.error) else Ok(execute(call.value))
  }

  /**
   * Two queries differing only in surrounding white space are both
   * accepted or both rejected, but an accepted query is sent as typed.
   */
  lemma GuardIgnoresPadding(q: string, pad: string)
    requires IsBlank(pad)
    ensures PolicyCall(pad + q + pad).Err? <==> PolicyCall(q).Err?
    ensures PolicyCall(q).Ok? ==> PolicyCall(pad + q + pad).value.parameters["search_query"] == pad + q + pad
  {
    var s := pad + q + pad;
    if IsBlank(q) {
      forall i | 0 <= i < |s| ensures IsSpace(s[i]) {
        if i < |pad| { assert s[i] == pad[i]; }
        else if i < |pad| + |q| { assert s[i] == q[i - |pad|]; }
        else { assert s[i] == pad[i - |pad| - |q|]; }
      }
    }
    if IsBlank(s) {
      forall i | 0 <= i < |q| ensures IsSpace(q[i]) {
        assert q[i] == s[i + |pad|];
      }
    }
  }
}
