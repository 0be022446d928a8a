/**
 * The agent runtime (`Runner.run`) as an oracle, and the effect of its
 * lifecycle hook events on the shared context.
 *
 * The runtime's turn execution, tool dispatch and handoff decisions are
 * not modelled: a run is given as the sequence of hook events it fires
 * and either its final output or the exception it raises. Both hook
 * classes of the system (the web UI's and the console's) have the same
 * effect on the context; that effect is `AfterEvent` below.
 */
module AgentRuntime {
  import opened Wrappers
  import opened SharedContext

  /** One lifecycle callback, with the names and values it is given. */
  datatype HookEvent =
    | AgentStart(agent: string)
    | AgentEnd(agent: string, output: string)
    | ToolStart(tool: string)
    /** `result` is `str(result)` of the tool's return value. */
    | ToolEnd(tool: string, result: string)
    | Handoff(fromAgent: string, toAgent: string)

  /** What one `Runner.run` does: hook events fired, then a final output or an exception. */
  datatype RunResult =
    | Finished(events: seq<HookEvent>, finalOutput: string)
    | Failed(events: seq<HookEvent>, error: string)

  /**
   * `Runner.run(triage_agent, input, context=...)`: the run for an input
   * text, given the context as it stands when the run begins.
   */
  type Runner = (string, ContextState) -> RunResult

  /** The log entry a hook records, if any. */
  function EventEntries(e: HookEvent): seq<Entry> {
    match e
    case AgentStart(_) => []
    case AgentEnd(agent, output) => [Entry(agent, output)]
    case ToolStart(_) => []
    case ToolEnd(tool, result) => [Entry("Tool (" + tool + ")", result)]
    case Handoff(f, t) => [Entry("System", "Handoff from " + f + " to " + t)]
  }

  /** The context after one hook. */
  function AfterEvent(s: ContextState, e: HookEvent): ContextState {
    match e
    case AgentStart(agent) => s.(currentAgent := Some(agent))
    case ToolStart(tool) => s.(currentTool := Some(tool))
    case _ => s.(history := s.history + EventEntries(e))
  }

  /** The context after a run's hooks, fired in order. */
  function AfterEvents(s: ContextState, es: seq<HookEvent>): ContextState
    decreases |es|
  {
    if es == [] then s else AfterEvent(AfterEvents(s, es[..|es| - 1]), es[|es| - 1])
  }

  /** The entries a sequence of hooks records, in firing order. */
  function EventsEntries(es: seq<HookEvent>): seq<Entry>
    decreases |es|
  {
    if es == [] then [] else EventsEntries(es[..|es| - 1]) + EventEntries(es[|es| - 1])
  }

  /** The agent named by the last `AgentStart` among `es`, if any. */
  function LastStarted(es: seq<HookEvent>): Option<string>
    decreases |es|
  {
    if es == [] then None
    else if es[|es| - 1].AgentStart? then Some(es[|es| - 1].agent)
    else LastStarted(es[..|es| - 1])
  }

  /** The tool named by the last `ToolStart` among `es`, if any. */
  function LastTool(es: seq<HookEvent>): Option<string>
    decreases |es|
  {
    if es == [] then None
    else if es[|es| - 1].ToolStart? then Some(es[|es| - 1].tool)
    else LastTool(es[..|es| - 1])
  }

  /**
   * Hooks only append to the history: the old log is kept as a prefix, in
   * order, followed by one entry per agent-end, tool-end and handoff.
   */
  lemma {:induction false} AfterEventsHistory(s: ContextState, es: seq<HookEvent>)
    ensures AfterEvents(s, es).history == s.history + EventsEntries(es)
    decreases |es|
  {
    if es != [] {
      AfterEventsHistory(s, es[..|es| - 1]);
    }
  }

  /**
   * `current_agent` and `current_tool` are last-writer-wins: each is the
   * name from the last start hook of its kind, or unchanged if there was
   * none. The four scratch fields are never written.
   */
  lemma {:induction false} AfterEventsLabels(s: ContextState, es: seq<HookEvent>)
    ensures AfterEvents(s, es).currentAgent
      == (if LastStarted(es).Some? then LastStarted(es) else s.currentAgent)
    ensures AfterEvents(s, es).currentTool
      == (if LastTool(es).Some? then LastTool(es) else s.currentTool)
    ensures AfterEvents(s, es).storeLocation == s.storeLocation
    ensures AfterEvents(s, es).storeId == s.storeId
    ensures AfterEvents(s, es).demographicData == s.demographicData
    ensures AfterEvents(s, es).stateCode == s.stateCode
    decreases |es|
  {
    if es != [] {
      AfterEventsLabels(s, es[..|es| - 1]);
    }
  }

  /** Each hook records at most one entry; start hooks record none. */
  lemma {:induction false} EventsEntriesCount(es: seq<HookEvent>)
    ensures |EventsEntries(es)| <= |es|
    ensures (forall i :: 0 <= i < |es| ==> es[i].AgentStart? || es[i].ToolStart?)
            ==> EventsEntries(es) == []
    decreases |es|
  {
    if es != [] {
      EventsEntriesCount(es[..|es| - 1]);
    }
  }
}
