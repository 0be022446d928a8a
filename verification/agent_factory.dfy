/**
 * `create_agent_system`: base specialists first, then each enhanced
 * specialist embedding the other domain's base agent, then the triage
 * agent handing off to the enhanced pair; returned as a five-entry map.
 */
module AgentFactory {
  import opened Wrappers
  import opened Agents
  import EnterpriseAgent
  import MarketAgent
  import TriageAgent

  /** The text of the three prompt files, as `load_prompt` reads them. */
  datatype Prompts = Prompts(enterprise: string, market: string, triage: string)

  const Keys := {"triage_agent", "enterprise_agent", "market_agent", "base_enterprise_agent", "base_market_agent"}

  /** `create_agent_system(client, model_name)`. */
  function CreateAgentSystem(client: ChatClient, modelName: string, prompts: Prompts)
    : (system: map<string, Agent>)
    ensures system.Keys == Keys && |system| == 5
  {
    var baseEnterprise := EnterpriseAgent.CreateEnterpriseAgent(client, modelName, prompts.enterprise, None);
    var baseMarket := MarketAgent.CreateMarketAgent(client, modelName, prompts.market, None);
    var enhancedEnterprise := EnterpriseAgent.CreateEnterpriseAgent(client, modelName, prompts.enterprise, Some(baseMarket));
    var enhancedMarket := MarketAgent.CreateMarketAgent(client, modelName, prompts.market, Some(baseEnterprise));
    var triage := TriageAgent.CreateTriageAgent(client, modelName, prompts.triage, enhancedEnterprise, enhancedMarket);
    var system := map[
      "triage_agent" := triage,
      "enterprise_agent" := enhancedEnterprise,
      "market_agent" := enhancedMarket,
      "base_enterprise_agent" := baseEnterprise,
      "base_market_agent" := baseMarket];
    assert system.Keys == Keys;
    assert |Keys| == 5;
    system
  }

  /**
   * The wiring: each enhanced specialist's last tool is the other domain's
   * base agent (never an enhanced one), and triage hands off to the two
   * enhanced specialists, enterprise first.
   */
  lemma SystemWiring(client: ChatClient, modelName: string, prompts: Prompts)
    ensures var s := CreateAgentSystem(client, modelName, prompts);
      && s["enterprise_agent"].tools[|s["enterprise_agent"].tools| - 1]
           == AgentTool(EnterpriseAgent.MarketToolName, EnterpriseAgent.MarketToolDescription, s["base_market_agent"])
      && s["market_agent"].tools[|s["market_agent"].tools| - 1]
           == AgentTool(MarketAgent.EnterpriseToolName, MarketAgent.EnterpriseToolDescription, s["base_enterprise_agent"])
      && s["triage_agent"].handoffs == [s["enterprise_agent"], s["market_agent"]]
      && s["triage_agent"].tools == []
      && s["base_enterprise_agent"].tools == EnterpriseAgent.BaseTools
      && s["base_market_agent"].tools == MarketAgent.BaseTools
  {
  }

  /**
   * Agent-as-tool nesting is bounded: no agent of the system nests deeper
   * than one level, every agent embedded as a tool embeds none itself, and
   * every handoff target hands off nowhere.
   */
  lemma SystemNestingBounded(client: ChatClient, modelName: string, prompts: Prompts)
    ensures var s := CreateAgentSystem(client, modelName, prompts);
      && (forall k :: k in s ==> Nesting(s[k]) <= 1)
      && (forall k, i :: k in s && 0 <= i < |s[k].tools| && s[k].tools[i].AgentTool? ==>
            OnlyFunctionTools(s[k].tools[i].agent))
      && (forall k, j :: k in s && 0 <= j < |s[k].handoffs| ==> s[k].handoffs[j].handoffs == [])
  {
    var s := CreateAgentSystem(client, modelName, prompts);
    var baseEnterprise := s["base_enterprise_agent"];
    var baseMarket := s["base_market_agent"];
    EnterpriseAgent.EnhancedExtendsBase(client, modelName, prompts.enterprise, baseMarket);
    MarketAgent.EnhancedExtendsBase(client, modelName, prompts.market, baseEnterprise);
    TriageAgent.TriageNestsNothing(client, modelName, prompts.triage, s["enterprise_agent"], s["market_agent"]);
    NestingZeroIff(baseEnterprise);
    NestingZeroIff(baseMarket);
    forall k, i | k in s && 0 <= i < |s[k].tools| && s[k].tools[i].AgentTool?
      ensures OnlyFunctionTools(s[k].tools[i].agent)
    {
      EmbeddedIsShallower(s[k], i);
      NestingZeroIff(s[k].tools[i].agent);
    }
  }
}
