/**
 * `create_triage_agent`: the entry agent. It has no tools and hands off
 * to the two specialists it is given; its instructions are the loaded
 * prompt followed by fixed routing and summarisation guidance.
 */
module TriageAgent {
  import opened Wrappers
  import opened PyStr
  import opened Agents

  const Name := "Triage Agent"
  /** The text appended to the loaded prompt. */
  const Guidance :=
    "\n\n## Updated Decision Logic for Compound Questions\n"
    + "For compound questions that require information from multiple agents:\n"
    + "1. Identify the primary intent/goal of the query (what information does the user ultimately want?)\n"
    + "2. Route to the agent that is best suited to deliver the primary information\n"
    + "3. The specialist agent will use other agents as tools when needed\n\n"
    + "Examples of compound questions:\n"
    + "- \"Based on where store 110 is located, what are the demographics of the area?\"\n"
    + "   \U{2192} Route to Market Intelligence Agent (primary goal is demographics information)\n"
    + "   \U{2192} The Market Intelligence Agent will use the Enterprise Intelligence Agent tool to get store 110's location\n\n"
    + "## Conversation Summarization \n"
    + "When the user asks for a summary of the conversation (e.g., \"summarize our conversation\", \"what have we discussed?\", etc.):\n"
    + "1. Access the conversation_history from the shared context\n"
    + "2. Generate a concise, structured summary of the key points\n"
    + "3. Focus on key questions, insights, and decision points from the conversation\n"
    + "4. Highlight any important information discovered during the conversation\n"
    + "5. Do NOT hand off to other agents for summarization requests\n"

  /**
   * `create_triage_agent(client, model_name, enterprise_agent, market_agent)`,
   * with the loaded prompt file's text as `prompt`: no tools, no handoff
   * description, and exactly the two handoffs in the order given.
   */
  function CreateTriageAgent(client: ChatClient, modelName: string, prompt: string,
                             enterpriseAgent: Agent, marketAgent: Agent): (a: Agent)
    ensures a.name == Name && a.handoffDescription == None && a.tools == []
    ensures a.model == ChatCompletionsModel(modelName, client)
    ensures a.handoffs == [enterpriseAgent, marketAgent]
    ensures StartsWith(a.instructions, prompt) && a.instructions == prompt + Guidance
  {
    Agent(Name, None, prompt + Guidance, ChatCompletionsModel(modelName, client), [], [enterpriseAgent, marketAgent])
  }

  /** The triage agent embeds no agent as a tool. */
  lemma TriageNestsNothing(client: ChatClient, modelName: string, prompt: string, e: Agent, m: Agent)
    ensures Nesting(CreateTriageAgent(client, modelName, prompt, e, m)) == 0
  {
    NestingZeroIff(CreateTriageAgent(client, modelName, prompt, e, m));
  }
}
