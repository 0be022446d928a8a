/**
 * `StreamlitAgentHooks`: the web UI's lifecycle callbacks. Only their
 * effect on the shared context is modelled; the status panels they draw
 * and the timing they display are not.
 */
module StreamlitHooks {
  import opened Wrappers
  import opened SharedContext
  import opened AgentRuntime

  /** `on_agent_start`: the agent becomes `current_agent`; nothing is logged. */
  method OnAgentStart(ctx: SharedAgentContext, agentName: string)
    modifies ctx`currentAgent
    ensures ctx.currentAgent == Some(agentName)
    ensures ctx.State() == AfterEvent(old(ctx.State()), AgentStart(agentName))
  {
    ctx.currentAgent := Some(agentName);
  }

  /** `on_agent_end`: logs `(agent name, output)`. */
  method OnAgentEnd(ctx: SharedAgentContext, agentName: string, output: string)
    modifies ctx`conversationHistory
    ensures ctx.conversationHistory == old(ctx.conversationHistory) + [Entry(agentName, output)]
    ensures ctx.State() == AfterEvent(old(ctx.State()), AgentEnd(agentName, output))
  {
    ctx.AddMessage(agentName, output);
  }

  /** `on_tool_start`: the tool becomes `current_tool`; nothing is logged. */
  method OnToolStart(ctx: SharedAgentContext, toolName: string)
    modifies ctx`currentTool
    ensures ctx.currentTool == Some(toolName)
    ensures ctx.State() == AfterEvent(old(ctx.State()), ToolStart(toolName))
  {
    ctx.currentTool := Some(toolName);
  }

  /** `on_tool_end`: logs `("Tool (name)", str(result))`. */
  method OnToolEnd(ctx: SharedAgentContext, toolName: string, result: string)
    modifies ctx`conversationHistory
    ensures ctx.conversationHistory
      == old(ctx.conversationHistory) + [Entry("Tool (" + toolName + ")", result)]
    ensures ctx.State() == AfterEvent(old(ctx.State()), ToolEnd(toolName, result))
  {
    ctx.AddMessage("Tool (" + toolName + ")", result);
  }

  /** `on_handoff`: logs `("System", "Handoff from A to B")`. */
  method OnHandoff(ctx: SharedAgentContext, fromName: string, toName: string)
    modifies ctx`conversationHistory
    ensures ctx.conversationHistory
      == old(ctx.conversationHistory) + [Entry("System", "Handoff from " + fromName + " to " + toName)]
    ensures ctx.State() == AfterEvent(old(ctx.State()), Handoff(fromName, toName))
  {
    ctx.AddMessage("System", "Handoff from " + fromName + " to " + toName);
  }

  /** The runtime calling the callback that matches an event. */
  method Fire(ctx: SharedAgentContext, e: HookEvent)
    modifies ctx
    ensures ctx.State() == AfterEvent(old(ctx.State()), e)
  {
    match e
    case AgentStart(a) => OnAgentStart(ctx, a);
    case AgentEnd(a, out) => OnAgentEnd(ctx, a, out);
    case ToolStart(t) => OnToolStart(ctx, t);
    case ToolEnd(t, res) => OnToolEnd(ctx, t, res);
    case Handoff(f, t) => OnHandoff(ctx, f, t);
  }

  /**
   * `Runner.run(..., context=ctx, hooks=StreamlitAgentHooks())`: the run's
   * events are delivered to these callbacks in order.
   */
  method RunWithHooks(ctx: SharedAgentContext, runner: Runner, input: string) returns (run: RunResult)
    modifies ctx
    ensures run == runner(input, old(ctx.State()))
    ensures ctx.State() == AfterEvents(old(ctx.State()), run.events)
  {
    run := runner(input, ctx.State());
    var i := 0;
    while i < |run.events|
      invariant 0 <= i <= |run.events|
      invariant ctx.State() == AfterEvents(old(ctx.State()), run.events[..i])
    {
      assert run.events[..i + 1][..i] == run.events[..i];
      Fire(ctx, run.events[i]);
      i := i + 1;
    }
    assert run.events[..i] == run.events;
  }
}
