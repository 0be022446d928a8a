/**
 * The web UI driver: its `process_query`, the session state it keeps
 * (`st.session_state`: the chat messages shown, the busy flag, the
 * shared context), the guarded chat submission and the Clear
 * Conversation button. Page layout, styling and avatars are not modelled.
 */
module App {
  import opened Wrappers
  import opened PyStr
  import opened SharedContext
  import opened AgentRuntime
  import opened SessionDriver
  import StreamlitHooks

  /** `process_query`'s result: the final output and the label it was recorded under. */
  datatype Reply = Reply(finalOutput: string, activeAgent: string)

  /** `shared_context.current_agent or "Assistant"`. */
  function ReplyLabel(after: ContextState): string {
    if Truthy(after.currentAgent) then after.currentAgent.value else "Assistant"
  }

  /**
   * One web UI query on a context value: the shared steps, then the
   * final output is logged under the active agent's name. An exception
   * from the run propagates, leaving the entries made so far.
   */
  function UiQuery(s: ContextState, query: string, runner: Runner): (ContextState, Result<Reply>) {
    var (after, run) := Dispatch(s, query, runner);
    if run.Finished? then
      (WithMessage(after, ReplyLabel(after), run.finalOutput), Ok(Reply(run.finalOutput, ReplyLabel(after))))
    else
      (after, Err(RuntimeFailure(run.error)))
  }

  /**
   * The log after a web UI query, and the label of the reply: the old
   * entries, `("User", query)`, the hooks' entries and, when the run
   * finished, `(label, final_output)`; the label is the last agent the
   * run started, else the agent left over from an earlier query, else
   * `"Assistant"`.
   */
  lemma UiQueryLog(s: ContextState, query: string, runner: Runner)
    ensures var run := Dispatch(s, query, runner).1;
      var shownAs :=
        if LastStarted(run.events).Some? && LastStarted(run.events).value != "" then LastStarted(run.events).value
        else if LastStarted(run.events).None? && Truthy(s.currentAgent) then s.currentAgent.value
        else "Assistant";
      && UiQuery(s, query, runner).0.history
           == s.history + [Entry("User", query)] + EventsEntries(run.events)
              + (if run.Finished? then [Entry(shownAs, run.finalOutput)] else [])
      && (UiQuery(s, query, runner).1.Ok? <==> run.Finished?)
      && (run.Finished? ==> UiQuery(s, query, runner).1 == Ok(Reply(run.finalOutput, shownAs)))
  {
    var logged := WithMessage(s, "User", query);
    var run := Dispatch(s, query, runner).1;
    DispatchHistory(s, query, runner);
    AfterEventsLabels(logged, run.events);
  }

  /**
   * The final output is logged twice: when the run ends with the
   * `on_agent_end` of the agent it started last, the hook records
   * `(agent, output)`, and `process_query` then records the same entry
   * again under the active agent's name, which is also the reply label.
   * The entries the earlier hooks made (handoffs, tool results) come
   * between the user's entry and these two.
   */
  lemma FinalOutputLoggedTwice(s: ContextState, query: string, runner: Runner, agent: string)
    requires agent != ""
    requires Dispatch(s, query, runner).1.Finished?
    requires var es := Dispatch(s, query, runner).1.events;
      && es != []
      && es[|es| - 1] == AgentEnd(agent, Dispatch(s, query, runner).1.finalOutput)
      && LastStarted(es) == Some(agent)
    ensures var run := Dispatch(s, query, runner).1;
      var output := run.finalOutput;
      UiQuery(s, query, runner).0.history
        == s.history + [Entry("User", query)] + EventsEntries(run.events[..|run.events| - 1])
           + [Entry(agent, output), Entry(agent, output)]
    ensures UiQuery(s, query, runner).1 == Ok(Reply(Dispatch(s, query, runner).1.finalOutput, agent))
  {
    var run := Dispatch(s, query, runner).1;
    var es := run.events;
    assert EventsEntries(es) == EventsEntries(es[..|es| - 1]) + [Entry(agent, run.finalOutput)];
    UiQueryLog(s, query, runner);
  }

  /** The hook entries and the last started agent of a handoff, one tool call and an answer. */
  lemma HandoffEvents(triage: string, specialist: string, tool: string, result: string, output: string)
    ensures var es := [AgentStart(triage), Handoff(triage, specialist), AgentStart(specialist),
                       ToolStart(tool), ToolEnd(tool, result), AgentEnd(specialist, output)];
      && EventsEntries(es[..|es| - 1])
           == [Entry("System", "Handoff from " + triage + " to " + specialist), Entry("Tool (" + tool + ")", result)]
      && LastStarted(es) == Some(specialist)
  {
    var es := [AgentStart(triage), Handoff(triage, specialist), AgentStart(specialist),
               ToolStart(tool), ToolEnd(tool, result), AgentEnd(specialist, output)];
    assert es[..1][..0] == [] && es[..2][..1] == es[..1] && es[..3][..2] == es[..2];
    assert es[..4][..3] == es[..3] && es[..5][..4] == es[..4] && es[..6] == es && es[..|es| - 1] == es[..5];
    assert EventsEntries(es[..1]) == [];
    assert EventsEntries(es[..2]) == [Entry("System", "Handoff from " + triage + " to " + specialist)];
    assert EventsEntries(es[..3]) == EventsEntries(es[..2]);
    assert EventsEntries(es[..4]) == EventsEntries(es[..3]);
    assert EventsEntries(es[..5]) == EventsEntries(es[..4]) + [Entry("Tool (" + tool + ")", result)];
    assert LastStarted(es[..3]) == Some(specialist);
    assert LastStarted(es) == LastStarted(es[..5]) == LastStarted(es[..4]) == LastStarted(es[..3]);
  }

  /**
   * The usual shape of an answered query: triage starts, hands off to a
   * specialist, which calls one tool and answers. The log gains five
   * entries: the user's, the handoff, the tool result, and the answer twice.
   */
  lemma HandoffAnswerLog(s: ContextState, query: string, runner: Runner,
                         triage: string, specialist: string, tool: string, result: string, output: string)
    requires specialist != ""
    requires Dispatch(s, query, runner).1
      == Finished([AgentStart(triage), Handoff(triage, specialist), AgentStart(specialist),
                   ToolStart(tool), ToolEnd(tool, result), AgentEnd(specialist, output)], output)
    ensures UiQuery(s, query, runner).0.history
      == s.history + [Entry("User", query), Entry("System", "Handoff from " + triage + " to " + specialist),
                      Entry("Tool (" + tool + ")", result), Entry(specialist, output), Entry(specialist, output)]
    ensures UiQuery(s, query, runner).1 == Ok(Reply(output, specialist))
  {
    HandoffEvents(triage, specialist, tool, result, output);
    FinalOutputLoggedTwice(s, query, runner, specialist);
  }

  /** `process_query(query, shared_context)` of the web UI, updating the context in place. */
  method ProcessQuery(query: string, sharedContext: SharedAgentContext, runner: Runner)
    returns (r: Result<Reply>)
    modifies sharedContext
    ensures (sharedContext.State(), r) == UiQuery(old(sharedContext.State()), query, runner)
  {
    ghost var s := sharedContext.State();
    sharedContext.AddMessage("User", query);
    var enhancedQuery;
    if IsSummaryRequest(query) {
      var conversationHistory := sharedContext.GetFormattedHistory();
      enhancedQuery := query + HistoryPreamble + conversationHistory;
    } else {
      enhancedQuery := query;
    }
    assert enhancedQuery == AgentInput(query, WithMessage(s, "User", query));
    var run := StreamlitHooks.RunWithHooks(sharedContext, runner, enhancedQuery);
    if run.Finished? {
      var activeAgent := if Truthy(sharedContext.currentAgent) then sharedContext.currentAgent.value else "Assistant";
      sharedContext.AddMessage(activeAgent, run.finalOutput);
      r := Ok(Reply(run.finalOutput, activeAgent));
    } else {
      r := Err(RuntimeFailure(run.error));
    }
  }

  /** What a chat submission came to. */
  datatype Submission =
    | NotSubmitted              // `st.chat_input` gave nothing
    | Rejected                  // a query was already being processed
    | Answered(reply: Reply)
    | Errored(error: Exception) // reported with `st.error`

  /** `st.session_state` of one browser session. */
  class SessionState {
    var sharedContext: SharedAgentContext
    var messages: seq<Entry>
    var debugMode: bool
    var processing: bool

    /** The first run's initialisation of each key. */
    constructor ()
      ensures fresh(sharedContext) && sharedContext.State() == Fresh
      ensures messages == [] && !debugMode && !processing
    {
      sharedContext := new SharedAgentContext();
      messages := [];
      debugMode := false;
      processing := false;
    }

    /** The Clear Conversation button: no messages and a fresh context. */
    method ClearConversation()
      modifies this
      ensures messages == [] && fresh(sharedContext) && sharedContext.State() == Fresh
      ensures processing == old(processing) && debugMode == old(debugMode)
    {
      messages := [];
      sharedContext := new SharedAgentContext();
    }

    /**
     * A chat submission. While a query is being processed it is rejected
     * and nothing changes. Otherwise the busy flag is raised, the user's
     * message is shown, the query is processed, the reply is shown if
     * there is one, and the flag is lowered again on either path.
     */
    method Submit(query: string, runner: Runner) returns (outcome: Submission)
      modifies this, sharedContext
      ensures sharedContext == old(sharedContext) && debugMode == old(debugMode)
      ensures query == "" ==>
        && outcome == NotSubmitted && messages == old(messages) && processing == old(processing)
        && sharedContext.State() == old(sharedContext.State())
      ensures query != "" && old(processing) ==>
        && outcome == Rejected && messages == old(messages) && processing
        && sharedContext.State() == old(sharedContext.State())
      ensures query != "" && !old(processing) ==>
        var (after, r) := UiQuery(old(sharedContext.State()), query, runner);
        && sharedContext.State() == after
        && !processing
        && (r.Ok? ==>
              && outcome == Answered(r.value)
              && messages == old(messages) + [Entry("User", query), Entry(r.value.activeAgent, r.value.finalOutput)])
        && (r.Err? ==> outcome == Errored(r.error) && messages == old(messages) + [Entry("User", query)])
    {
      if query == "" {
        return NotSubmitted;
      }
      if processing {
        return Rejected;
      }
      processing := true;
      messages := messages + [Entry("User", query)];
      var r := ProcessQuery(query, sharedContext, runner);
      if r.Ok? {
        messages := messages + [Entry(r.value.activeAgent, r.value.finalOutput)];
        processing := false;
        outcome := Answered(r.value);
      } else {
        outcome := Errored(r.error);
      }
      processing := false;
    }
  }
}
