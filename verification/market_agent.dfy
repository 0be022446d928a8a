/**
 * `create_market_agent`: the Market Intelligence Agent, in its base form
 * (census and research tools) or, when an enterprise agent is given, its
 * enhanced form that also exposes that agent as a tool.
 */
module MarketAgent {
  import opened Wrappers
  import opened PyStr
  import opened Agents

  const Name := "Market Intelligence Agent"
  const HandoffDescription :=
    "Specialist in market research pertaining to general questions about the market, industry, news, "
    + "competitors, demographics, etc."
  const BaseTools: seq<Tool> := [FunctionTool("get_state_census_data"), FunctionTool("do_research_and_reason")]
  const EnterpriseToolName := "get_enterprise_data"
  const EnterpriseToolDescription :=
    "Get store location, performance data, or inventory information for specific store numbers"
  /** The text appended to the loaded prompt in the enhanced form. */
  const Capabilities :=
    "\n\n## Additional Capabilities\nYou now have the Enterprise Intelligence Agent available as a tool. "
    + "When a query requires store-specific information:\n"
    + "1. Use the get_enterprise_data tool to first obtain store location or performance information\n"
    + "2. Then use your demographic and market research tools to analyze that location\n"
    + "3. Combine both sources of information to provide a complete response\n\n"
    + "For example, if asked \"Based on where store 110 is located, what are the demographics of the area?\":\n"
    + "1. First use get_enterprise_data to find out where store 110 is located\n"
    + "2. Then analyze the demographics of that location using your tools\n"

  /**
   * `create_market_agent(client, model_name, enterprise_agent)`, with the
   * loaded prompt file's text as `prompt`. Both forms share the name, the
   * handoff description, the model binding and the first two tools.
   */
  function CreateMarketAgent(client: ChatClient, modelName: string, prompt: string,
                             enterpriseAgent: Option<Agent>): (a: Agent)
    ensures a.name == Name && a.handoffDescription == Some(HandoffDescription)
    ensures a.model == ChatCompletionsModel(modelName, client) && a.handoffs == []
    ensures StartsWith(a.instructions, prompt)
    ensures enterpriseAgent.None? ==> a.tools == BaseTools && a.instructions == prompt
    ensures enterpriseAgent.Some? ==>
      && a.tools == BaseTools + [AgentTool(EnterpriseToolName, EnterpriseToolDescription, enterpriseAgent.value)]
      && a.instructions == prompt + Capabilities
  {
    var model := ChatCompletionsModel(modelName, client);
    if enterpriseAgent.Some? then
      Agent(Name, Some(HandoffDescription), prompt + Capabilities, model,
            BaseTools + [AgentTool(EnterpriseToolName, EnterpriseToolDescription, enterpriseAgent.value)], [])
    else
      Agent(Name, Some(HandoffDescription), prompt, model, BaseTools, [])
  }

  /**
   * The enhanced form is the base form with the capabilities text
   * appended to its instructions and one agent tool appended to its
   * tools; it nests one level deeper than the agent it embeds.
   */
  lemma EnhancedExtendsBase(client: ChatClient, modelName: string, prompt: string, e: Agent)
    ensures var base := CreateMarketAgent(client, modelName, prompt, None);
      var enhanced := CreateMarketAgent(client, modelName, prompt, Some(e));
      && enhanced.(instructions := base.instructions, tools := base.tools) == base
      && enhanced.instructions == base.instructions + Capabilities
      && enhanced.tools[..|base.tools|] == base.tools
      && |enhanced.tools| == |base.tools| + 1
      && Nesting(base) == 0
      && Nesting(enhanced) == 1 + Nesting(e)
      && DistinctNames(base.tools) && DistinctNames(enhanced.tools)
  {
    var base := CreateMarketAgent(client, modelName, prompt, None);
    var enhanced := CreateMarketAgent(client, modelName, prompt, Some(e));
    NestingZeroIff(base);
    NestingWithAgentTool(enhanced, enhanced.tools[2]);
  }
}
