/**
 * `create_enterprise_agent`: the Enterprise Intelligence Agent, in its
 * base form (three function tools) or, when a market agent is given, its
 * enhanced form that also exposes that agent as a tool.
 */
module EnterpriseAgent {
  import opened Wrappers
  import opened PyStr
  import opened Agents

  const Name := "Enterprise Intelligence Agent"
  const HandoffDescription :=
    "Specialist in enterprise analytics pertaining to the store performance, sales, store location, "
    + "returns, BOPIS(buy online pick up in store), policy, inventory etc."
  const BaseTools: seq<Tool> := [
    FunctionTool("get_business_conduct_policy_info"),
    FunctionTool("get_store_performance_info"),
    FunctionTool("get_product_inventory_info")]
  const MarketToolName := "get_market_intelligence"
  const MarketToolDescription := "Get demographic and market research information for a specific location or area"
  /** The text appended to the loaded prompt in the enhanced form. */
  const Capabilities :=
    "\n\n## Additional Capabilities\nYou now have the Market Intelligence Agent available as a tool. "
    + "When a query requires demographic or market research data:\n"
    + "1. First determine the relevant location information using your store performance tools\n"
    + "2. Then use the get_market_intelligence tool to obtain demographic information for that location\n"
    + "3. Combine both sources of information to provide a complete response\n"

  /**
   * `create_enterprise_agent(client, model_name, market_agent)`, with the
   * loaded prompt file's text as `prompt`. Both forms share the name, the
   * handoff description, the model binding and the first three tools.
   */
  function CreateEnterpriseAgent(client: ChatClient, modelName: string, prompt: string,
                                 marketAgent: Option<Agent>): (a: Agent)
    ensures a.name == Name && a.handoffDescription == Some(HandoffDescription)
    ensures a.model == ChatCompletionsModel(modelName, client) && a.handoffs == []
    ensures StartsWith(a.instructions, prompt)
    ensures marketAgent.None? ==> a.tools == BaseTools && a.instructions == prompt
    ensures marketAgent.Some? ==>
      && a.tools == BaseTools + [AgentTool(MarketToolName, MarketToolDescription, marketAgent.value)]
      && a.instructions == prompt + Capabilities
  {
    var model := ChatCompletionsModel(modelName, client);
    if marketAgent.Some? then
      Agent(Name, Some(HandoffDescription), prompt + Capabilities, model,
            BaseTools + [AgentTool(MarketToolName, MarketToolDescription, marketAgent.value)], [])
    else
      Agent(Name, Some(HandoffDescription), prompt, model, BaseTools, [])
  }

  /**
   * The enhanced form is the base form with the capabilities text
   * appended to its instructions and one agent tool appended to its
   * tools; it nests one level deeper than the agent it embeds, and its
   * tool names stay distinct when the embedded agent is the market one.
   */
  lemma EnhancedExtendsBase(client: ChatClient, modelName: string, prompt: string, m: Agent)
    ensures var base := CreateEnterpriseAgent(client, modelName, prompt, None);
      var enhanced := CreateEnterpriseAgent(client, modelName, prompt, Some(m));
      && enhanced.(instructions := base.instructions, tools := base.tools) == base
      && enhanced.instructions == base.instructions + Capabilities
      && enhanced.tools[..|base.tools|] == base.tools
      && |enhanced.tools| == |base.tools| + 1
      && Nesting(base) == 0
      && Nesting(enhanced) == 1 + Nesting(m)
      && DistinctNames(base.tools) && DistinctNames(enhanced.tools)
  {
    var base := CreateEnterpriseAgent(client, modelName, prompt, None);
    var enhanced := CreateEnterpriseAgent(client, modelName, prompt, Some(m));
    NestingZeroIff(base);
    NestingWithAgentTool(enhanced, enhanced.tools[3]);
  }
}
