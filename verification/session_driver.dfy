/**
 * The part of `process_query` the console driver and the web UI driver
 * share, written identically in both: record the user's query, detect a
 * summarisation request, rewrite the query to carry the formatted
 * history, and run the triage agent with the hooks attached.
 */
module SessionDriver {
  import opened Wrappers
  import opened PyStr
  import opened SharedContext
  import opened AgentRuntime

  /** The phrases whose presence marks a summarisation request. */
  const SummaryPhrases: seq<string> := ["summarize", "summary", "what have we discussed", "our conversation"]

  /** `any(phrase in query.lower() for phrase in [...])`. */
  predicate IsSummaryRequest(query: string) {
    exists p :: p in SummaryPhrases && Contains(Lower(query), p)
  }

  /** The text put between the query and the history. */
  const HistoryPreamble := "\n\nHere is the conversation history to summarize:\n"

  /**
   * The text given to `Runner.run`: the query, with the formatted history
   * appended when it asks for a summary. `logged` is the context after the
   * user's entry was recorded.
   */
  function AgentInput(query: string, logged: ContextState): string {
    if IsSummaryRequest(query) then query + HistoryPreamble + Format(logged.history) else query
  }

  /**
   * Steps 1 to 4 of a query: `("User", query)` is logged, then the agent
   * runs on the (possibly rewritten) text and its hooks update the context.
   * Returns the context after the run and the run itself.
   */
  function Dispatch(s: ContextState, query: string, runner: Runner): (ContextState, RunResult) {
    var logged := WithMessage(s, "User", query);
    var run := runner(AgentInput(query, logged), logged);
    (AfterEvents(logged, run.events), run)
  }

  /**
   * Detection is a case-insensitive substring test: it holds exactly when
   * one of the four phrases occurs in the lower-cased query, and upper-
   * or lower-casing the query first does not change the answer.
   */
  lemma SummaryDetection(query: string)
    ensures IsSummaryRequest(query)
      <==> exists p, i :: p in SummaryPhrases && OccursAt(Lower(query), p, i)
    ensures IsSummaryRequest(Lower(query)) == IsSummaryRequest(query)
  {
    LowerIdempotent(query);
    forall p | p in SummaryPhrases ensures Contains(Lower(query), p) <==> exists i :: OccursAt(Lower(query), p, i) {
      ContainsIffOccurs(Lower(query), p);
    }
  }

  /** A query in which one of the phrases occurs, in lower case, is a summarisation request. */
  lemma PhraseDetected(query: string, p: string, i: int)
    requires p in SummaryPhrases && OccursAt(query, p, i)
    ensures IsSummaryRequest(query)
  {
    assert Lower(query)[i..i + |p|] == p;
    assert OccursAt(Lower(query), p, i);
    ContainsIffOccurs(Lower(query), p);
  }

  /**
   * The rewrite: a summarisation request is sent as the query, the
   * preamble and the formatted history, a history that already ends with
   * the user's new entry; any other query is sent unchanged.
   */
  lemma AgentInputRewrite(s: ContextState, query: string)
    ensures !IsSummaryRequest(query) ==> AgentInput(query, WithMessage(s, "User", query)) == query
    ensures IsSummaryRequest(query) ==>
      AgentInput(query, WithMessage(s, "User", query))
        == query + HistoryPreamble + Format(s.history + [Entry("User", query)])
    ensures IsSummaryRequest(query) ==>
      && StartsWith(AgentInput(query, WithMessage(s, "User", query)), query)
      && EndsWith(AgentInput(query, WithMessage(s, "User", query)), "User: " + query)
  {
    var logged := WithMessage(s, "User", query);
    assert logged.history == s.history + [Entry("User", query)];
    if IsSummaryRequest(query) {
      FormatEndsWithLast(s.history, Entry("User", query));
      RewrittenShape(query, Format(logged.history), "User: " + query);
    }
  }

  /** The rewritten text starts with the query and ends as the formatted history does. */
  lemma RewrittenShape(query: string, formatted: string, last: string)
    requires EndsWith(formatted, last)
    ensures StartsWith(query + HistoryPreamble + formatted, query)
    ensures EndsWith(query + HistoryPreamble + formatted, last)
  {
    var input := query + HistoryPreamble + formatted;
    assert input[..|query|] == query;
    EndsWithAppend(query + HistoryPreamble, formatted, last);
  }

  /**
   * What a query leaves in the log before the driver records the reply:
   * the old entries, `("User", query)`, then the entries the hooks
   * recorded, in order.
   */
  lemma DispatchHistory(s: ContextState, query: string, runner: Runner)
    ensures Dispatch(s, query, runner).0.history
      == s.history + [Entry("User", query)] + EventsEntries(Dispatch(s, query, runner).1.events)
  {
    var logged := WithMessage(s, "User", query);
    AfterEventsHistory(logged, Dispatch(s, query, runner).1.events);
  }
}
