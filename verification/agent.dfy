/**
 * Agent descriptors as the agent SDK's `Agent` records: a name, an
 * optional handoff description, instructions, the chat model binding,
 * tools (plain function tools, or another agent exposed with `as_tool`)
 * and handoff targets. `Nesting` measures how deeply agents are embedded
 * as tools.
 */
module Agents {
  import opened Wrappers

  /** `AsyncOpenAI(base_url=..., api_key=...)`. */
  datatype ChatClient = AsyncOpenAI(baseUrl: string, apiKey: string)

  /** `OpenAIChatCompletionsModel(model=..., openai_client=...)`. */
  datatype ModelBinding = ChatCompletionsModel(modelName: string, client: ChatClient)

  datatype Tool =
    /** A `@function_tool`, by its name. */
    | FunctionTool(name: string)
    /** `agent.as_tool(tool_name=..., tool_description=...)`. */
    | AgentTool(name: string, description: string, agent: Agent)

  datatype Agent = Agent(
    name: string,
    handoffDescription: Option<string>,
    instructions: string,
    model: ModelBinding,
    tools: seq<Tool>,
    handoffs: seq<Agent>)

  function Max(a: nat, b: nat): nat {
    if a < b then b else a
  }

  /** How deeply agents are embedded as tools below `a`: 0 when it has no agent tool. */
  function Nesting(a: Agent): nat
    decreases a, 1
  {
    NestingFrom(a, |a.tools|)
  }

  /** The largest nesting contributed by the first `k` tools of `a`. */
  function NestingFrom(a: Agent, k: nat): nat
    requires k <= |a.tools|
    decreases a, 0, k
  {
    if k == 0 then 0
    else
      var t := a.tools[k - 1];
      var here := if t.AgentTool? then (assert t in a.tools; 1 + Nesting(t.agent)) else 0;
      Max(NestingFrom(a, k - 1), here)
  }

  /** Each of the first `k` tools contributes no more than `NestingFrom(a, k)`. */
  lemma {:induction false} NestingFromCovers(a: Agent, k: nat, i: nat)
    requires i < k <= |a.tools|
    ensures a.tools[i].AgentTool? ==> 1 + Nesting(a.tools[i].agent) <= NestingFrom(a, k)
    decreases k
  {
    if i < k - 1 {
      NestingFromCovers(a, k - 1, i);
    }
  }

  /**
   * Agent-as-tool embedding is acyclic: an embedded agent nests strictly
   * less deeply than the agent embedding it, so no agent is its own tool,
   * directly or through others.
   */
  lemma EmbeddedIsShallower(a: Agent, i: nat)
    requires i < |a.tools| && a.tools[i].AgentTool?
    ensures Nesting(a.tools[i].agent) < Nesting(a)
    ensures a.tools[i].agent != a
  {
    NestingFromCovers(a, |a.tools|, i);
  }

  /** No tool of `a` is another agent. */
  predicate OnlyFunctionTools(a: Agent) {
    forall i :: 0 <= i < |a.tools| ==> a.tools[i].FunctionTool?
  }

  /** Nesting is 0 exactly for agents whose tools are all function tools. */
  lemma {:induction false} NestingFromZero(a: Agent, k: nat)
    requires k <= |a.tools|
    ensures NestingFrom(a, k) == 0 <==> forall i :: 0 <= i < k ==> a.tools[i].FunctionTool?
    decreases k
  {
    if k > 0 {
      NestingFromZero(a, k - 1);
    }
  }

  /** `Nesting(a) == 0` holds exactly when `a` embeds no agent. */
  lemma NestingZeroIff(a: Agent)
    ensures Nesting(a) == 0 <==> OnlyFunctionTools(a)
  {
    NestingFromZero(a, |a.tools|);
  }

  /**
   * Appending one agent tool to an agent with only function tools gives
   * nesting one more than the embedded agent's.
   */
  lemma NestingWithAgentTool(a: Agent, t: Tool)
    requires t.AgentTool?
    requires |a.tools| >= 1 && a.tools[|a.tools| - 1] == t
    requires forall i :: 0 <= i < |a.tools| - 1 ==> a.tools[i].FunctionTool?
    ensures Nesting(a) == 1 + Nesting(t.agent)
  {
    NestingFromZero(a, |a.tools| - 1);
  }

  /** No two tools of the list share a name. */
  predicate DistinctNames(ts: seq<Tool>) {
    forall i, j :: 0 <= i < j < |ts| ==> ts[i].name != ts[j].name
  }
}
