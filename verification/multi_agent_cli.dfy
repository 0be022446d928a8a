/**
 * The console driver: `AgentExecutionHooks`, `process_query` and the
 * `interactive_session` read-eval loop. Console output (panels,
 * spinners, timings) is not modelled, except whether the prints that
 * carry logged text, and the loop's error report, succeed.
 */
module MultiAgentCli {
  import opened Wrappers
  import opened PyStr
  import opened SharedContext
  import opened AgentRuntime
  import opened SessionDriver

  // ---------------------------------------------------------------------
  // AgentExecutionHooks: the same context effects as the web UI's hooks.
  // ---------------------------------------------------------------------

  /** `on_agent_start`: the agent becomes `current_agent`. */
  method OnAgentStart(ctx: SharedAgentContext, agentName: string)
    modifies ctx`currentAgent
    ensures ctx.currentAgent == Some(agentName)
    ensures ctx.State() == AfterEvent(old(ctx.State()), AgentStart(agentName))
  {
    ctx.currentAgent := Some(agentName);
  }

  /** `on_agent_end`: logs `(agent name, output)`. */
  method OnAgentEnd(ctx: SharedAgentContext, agentName: string, output: string)
    modifies ctx`conversationHistory
    ensures ctx.conversationHistory == old(ctx.conversationHistory) + [Entry(agentName, output)]
    ensures ctx.State() == AfterEvent(old(ctx.State()), AgentEnd(agentName, output))
  {
    ctx.AddMessage(agentName, output);
  }

  /** `on_tool_start`: the tool becomes `current_tool`. */
  method OnToolStart(ctx: SharedAgentContext, toolName: string)
    modifies ctx`currentTool
    ensures ctx.currentTool == Some(toolName)
    ensures ctx.State() == AfterEvent(old(ctx.State()), ToolStart(toolName))
  {
    ctx.currentTool := Some(toolName);
  }

  /** `on_tool_end`: logs `("Tool (name)", str(result))`. */
  method OnToolEnd(ctx: SharedAgentContext, toolName: string, result: string)
    modifies ctx`conversationHistory
    ensures ctx.conversationHistory
      == old(ctx.conversationHistory) + [Entry("Tool (" + toolName + ")", result)]
    ensures ctx.State() == AfterEvent(old(ctx.State()), ToolEnd(toolName, result))
  {
    ctx.AddMessage("Tool (" + toolName + ")", result);
  }

  /** `on_handoff`: logs `("System", "Handoff from A to B")`. */
  method OnHandoff(ctx: SharedAgentContext, fromName: string, toName: string)
    modifies ctx`conversationHistory
    ensures ctx.conversationHistory
      == old(ctx.conversationHistory) + [Entry("System", "Handoff from " + fromName + " to " + toName)]
    ensures ctx.State() == AfterEvent(old(ctx.State()), Handoff(fromName, toName))
  {
    ctx.AddMessage("System", "Handoff from " + fromName + " to " + toName);
  }

  /** The runtime calling the callback that matches an event. */
  method Fire(ctx: SharedAgentContext, e: HookEvent)
    modifies ctx
    ensures ctx.State() == AfterEvent(old(ctx.State()), e)
  {
    match e
    case AgentStart(a) => OnAgentStart(ctx, a);
    case AgentEnd(a, out) => OnAgentEnd(ctx, a, out);
    case ToolStart(t) => OnToolStart(ctx, t);
    case ToolEnd(t, res) => OnToolEnd(ctx, t, res);
    case Handoff(f, t) => OnHandoff(ctx, f, t);
  }

  /** `Runner.run(triage_agent, input, context=ctx, hooks=AgentExecutionHooks(...))`. */
  method RunWithHooks(ctx: SharedAgentContext, runner: Runner, input: string) returns (run: RunResult)
    modifies ctx
    ensures run == runner(input, old(ctx.State()))
    ensures ctx.State() == AfterEvents(old(ctx.State()), run.events)
  {
    run := runner(input, ctx.State());
    var i := 0;
    while i < |run.events|
      invariant 0 <= i <= |run.events|
      invariant ctx.State() == AfterEvents(old(ctx.State()), run.events[..i])
    {
      assert run.events[..i + 1][..i] == run.events[..i];
      Fire(ctx, run.events[i]);
      i := i + 1;
    }
    assert run.events[..i] == run.events;
  }

  // ---------------------------------------------------------------------
  // process_query
  // ---------------------------------------------------------------------

  /**
   * Whether the console accepts a text for printing: Rich parses the
   * markup of every string it prints, and raises `MarkupError` for one it
   * cannot parse (such as a closing tag with no open tag). Rich is not
   * part of this model; its parser is this oracle.
   */
  type MarkupCheck = string -> bool

  /** The line that echoes the user's query. */
  function QueryBanner(query: string): string {
    "[bold white on blue]User Query:[/] " + query
  }

  /** The text of the panel that shows the final output. */
  function OutputPanel(output: string): string {
    "[bold green]\U{1F3AF} Final Output:[/]\n\n" + output
  }

  /**
   * One console query on a context value: `("User", query)` is logged and
   * the query is echoed; the shared steps run; the final output is shown
   * in a panel and logged as `("System", output)`. An exception raised by
   * the echo, the run or the panel propagates, leaving the entries made so
   * far.
   */
  function CliQuery(s: ContextState, query: string, runner: Runner, markupOk: MarkupCheck)
    : (ContextState, Result<string>)
  {
    if !markupOk(QueryBanner(query)) then
      (WithMessage(s, "User", query), Err(MarkupError(QueryBanner(query))))
    else
      var (after, run) := Dispatch(s, query, runner);
      if run.Failed? then (after, Err(RuntimeFailure(run.error)))
      else if !markupOk(OutputPanel(run.finalOutput)) then (after, Err(MarkupError(OutputPanel(run.finalOutput))))
      else (WithMessage(after, "System", run.finalOutput), Ok(run.finalOutput))
  }

  /**
   * The log after a console query. A query the console cannot echo leaves
   * only `("User", query)`, and the agent does not run. Otherwise the log
   * gains `("User", query)` and the hooks' entries, and then
   * `("System", output)` exactly when the run finished and its output
   * could be shown. The query succeeds exactly in that last case.
   */
  lemma CliQueryLog(s: ContextState, query: string, runner: Runner, markupOk: MarkupCheck)
    ensures !markupOk(QueryBanner(query)) ==>
      && CliQuery(s, query, runner, markupOk).0 == WithMessage(s, "User", query)
      && CliQuery(s, query, runner, markupOk).1 == Err(MarkupError(QueryBanner(query)))
    ensures var run := Dispatch(s, query, runner).1;
      var shown := run.Finished? && markupOk(OutputPanel(run.finalOutput));
      markupOk(QueryBanner(query)) ==>
        && CliQuery(s, query, runner, markupOk).0.history
             == s.history + [Entry("User", query)] + EventsEntries(run.events)
                + (if shown then [Entry("System", run.finalOutput)] else [])
        && (CliQuery(s, query, runner, markupOk).1.Ok? <==> shown)
        && (shown ==> CliQuery(s, query, runner, markupOk).1 == Ok(run.finalOutput))
        && (run.Finished? && !shown ==>
              CliQuery(s, query, runner, markupOk).1 == Err(MarkupError(OutputPanel(run.finalOutput))))
  {
    DispatchHistory(s, query, runner);
  }

  /**
   * `process_query(query, shared_context=None)`: uses the given context,
   * or a fresh one when none is given, and updates it in place.
   */
  method ProcessQuery(query: string, sharedContext: SharedAgentContext?, runner: Runner, markupOk: MarkupCheck)
    returns (r: Result<string>, ctx: SharedAgentContext)
    modifies sharedContext
    ensures sharedContext != null ==> ctx == sharedContext
    ensures sharedContext == null ==> fresh(ctx)
    ensures (ctx.State(), r)
      == CliQuery(if sharedContext == null then Fresh else old(sharedContext.State()), query, runner, markupOk)
  {
    if sharedContext == null {
      ctx := new SharedAgentContext();
    } else {
      ctx := sharedContext;
    }
    ghost var s := ctx.State();
    ctx.AddMessage("User", query);
    if !markupOk(QueryBanner(query)) {
      return Err(MarkupError(QueryBanner(query))), ctx;
    }
    var enhancedQuery;
    if IsSummaryRequest(query) {
      var conversationHistory := ctx.GetFormattedHistory();
      enhancedQuery := query + HistoryPreamble + conversationHistory;
    } else {
      enhancedQuery := query;
    }
    assert enhancedQuery == AgentInput(query, WithMessage(s, "User", query));
    var run := RunWithHooks(ctx, runner, enhancedQuery);
    if run.Failed? {
      return Err(RuntimeFailure(run.error)), ctx;
    }
    if !markupOk(OutputPanel(run.finalOutput)) {
      return Err(MarkupError(OutputPanel(run.finalOutput))), ctx;
    }
    ctx.AddMessage("System", run.finalOutput);
    r := Ok(run.finalOutput);
  }

  // ---------------------------------------------------------------------
  // interactive_session
  // ---------------------------------------------------------------------

  /** What one line typed at the prompt does. */
  datatype Command = Exit | Debug | Skip | Submit(query: string)

  /** The dispatch at the top of the loop, in the code's order. */
  function Classify(input: string): Command {
    var lowered := Lower(input);
    if lowered == "exit" || lowered == "quit" then Exit
    else if lowered == "debug" then Debug
    else if Strip(input) == "" then Skip
    else Submit(input)
  }

  /**
   * `exit` and `quit` end the session in any letter case; input that is
   * empty or white space is skipped; anything else is processed as typed,
   * without trimming.
   */
  lemma ClassifyCases(input: string)
    ensures Classify(input).Exit? <==> Lower(input) == "exit" || Lower(input) == "quit"
    ensures Classify(input).Skip? <==> IsBlank(input)
    ensures Classify(input).Submit? ==> Classify(input).query == input
  {
    StripEmptyIffBlank(input);
    if IsBlank(input) && |input| > 0 {
      var first := Lower(input)[0];
      assert first == input[0] && IsSpace(first);
      assert "exit"[0] == 'e' && "quit"[0] == 'q' && "debug"[0] == 'd';
      assert Lower(input) != "exit" && Lower(input) != "quit" && Lower(input) != "debug";
    }
  }

  /**
   * Whether the `except Exception` handler can report an exception: it
   * prints `"[bold red]Error processing query: {e}[/]"` and then the
   * traceback, both through Rich's markup parser. When either print
   * raises, the new exception escapes the loop and ends the program.
   * The texts hold Python's and Rich's own messages, which are not part
   * of this model; this oracle decides.
   */
  type ReportCheck = Exception -> bool

  /** The line the `debug` command prints for entry `i` of the log. */
  function ListingLine(i: nat, e: Entry): string {
    var head := "[dim]" + Decimal(i) + ".[/dim] " + e.role + ": ";
    if |e.content| > 100 then head + e.content[..100] + "..." else head + e.content
  }

  /** The exception the `debug` listing raises, from entry `i` on: the first line the console rejects. */
  function ListingErrorFrom(h: seq<Entry>, markupOk: MarkupCheck, i: nat): Option<Exception>
    decreases |h| - i
  {
    if i >= |h| then None
    else if !markupOk(ListingLine(i, h[i])) then Some(MarkupError(ListingLine(i, h[i])))
    else ListingErrorFrom(h, markupOk, i + 1)
  }

  /** The exception the whole `debug` listing raises, if any. */
  function ListingError(h: seq<Entry>, markupOk: MarkupCheck): Option<Exception> {
    ListingErrorFrom(h, markupOk, 0)
  }

  /** The listing from entry `i` on prints in full exactly when the console accepts every one of its lines. */
  lemma {:induction false} ListingOkIffAllAccepted(h: seq<Entry>, markupOk: MarkupCheck, i: nat)
    requires i <= |h|
    ensures ListingErrorFrom(h, markupOk, i).None?
      <==> forall k :: i <= k < |h| ==> markupOk(ListingLine(k, h[k]))
    decreases |h| - i
  {
    if i < |h| && markupOk(ListingLine(i, h[i])) {
      ListingOkIffAllAccepted(h, markupOk, i + 1);
    }
  }

  /** A failing listing fails on the first line the console rejects, every earlier one having printed. */
  lemma {:induction false} ListingFailsAtFirstRejected(h: seq<Entry>, markupOk: MarkupCheck, i: nat, k: nat)
    requires i <= k < |h|
    requires !markupOk(ListingLine(k, h[k]))
    requires forall j :: i <= j < k ==> markupOk(ListingLine(j, h[j]))
    ensures ListingErrorFrom(h, markupOk, i) == Some(MarkupError(ListingLine(k, h[k])))
    decreases k - i
  {
    if i < k {
      assert markupOk(ListingLine(i, h[i]));
      ListingFailsAtFirstRejected(h, markupOk, i + 1, k);
    }
  }

  /** The `debug` listing: one printed line per entry, stopping at the first one the console rejects. */
  method DebugListing(ctx: SharedAgentContext, markupOk: MarkupCheck) returns (failure: Option<Exception>)
    ensures failure == ListingError(ctx.conversationHistory, markupOk)
  {
    var i := 0;
    while i < |ctx.conversationHistory|
      invariant 0 <= i <= |ctx.conversationHistory|
      invariant ListingErrorFrom(ctx.conversationHistory, markupOk, i) == ListingError(ctx.conversationHistory, markupOk)
    {
      var entry := ctx.conversationHistory[i];
      var line := ListingLine(i, entry);
      if !markupOk(line) {
        return Some(MarkupError(line));
      }
      i := i + 1;
    }
    return None;
  }

  /** What one line does to the session: it goes on from a context, or ends there. */
  datatype Next = Go(state: ContextState) | Halt(state: ContextState, escaped: bool)

  /** How a session ended: its context, and whether an exception escaped the loop. */
  datatype SessionEnd = SessionEnd(state: ContextState, escaped: bool)

  /**
   * One iteration of the loop for a classified line. `exit`/`quit` break.
   * A blank line is skipped. `debug` prints the listing. A query runs
   * `process_query`. An exception from the listing or the query is
   * reported and the loop goes on, unless the report itself raises: then
   * the session ends with the context as it is.
   */
  function Step(s: ContextState, command: Command, runner: Runner, markupOk: MarkupCheck, reportOk: ReportCheck): Next {
    match command
    case Exit => Halt(s, false)
    case Skip => Go(s)
    case Debug =>
      var failure := ListingError(s.history, markupOk);
      if failure.Some? && !reportOk(failure.value) then Halt(s, true) else Go(s)
    case Submit(query) =>
      var (after, r) := CliQuery(s, query, runner, markupOk);
      if r.Err? && !reportOk(r.error) then Halt(after, true) else Go(after)
  }

  /**
   * The effect of one line. Only a query changes the context, and it
   * changes it whether it fails or not. The session ends at `exit`/`quit`,
   * or, with an escaped exception, when an error cannot be reported.
   */
  lemma StepCases(s: ContextState, command: Command, runner: Runner, markupOk: MarkupCheck, reportOk: ReportCheck)
    ensures !command.Submit? ==> Step(s, command, runner, markupOk, reportOk).state == s
    ensures command.Submit? ==>
      Step(s, command, runner, markupOk, reportOk).state == CliQuery(s, command.query, runner, markupOk).0
    ensures command.Exit? ==> Step(s, command, runner, markupOk, reportOk) == Halt(s, false)
    ensures command.Skip? ==> Step(s, command, runner, markupOk, reportOk) == Go(s)
    ensures command.Debug? ==>
      var failure := ListingError(s.history, markupOk);
      (Step(s, command, runner, markupOk, reportOk).Halt? <==> failure.Some? && !reportOk(failure.value))
    ensures command.Submit? ==>
      var r := CliQuery(s, command.query, runner, markupOk).1;
      (Step(s, command, runner, markupOk, reportOk).Halt? <==> r.Err? && !reportOk(r.error))
    ensures Step(s, command, runner, markupOk, reportOk).Halt? && !command.Exit? ==>
      Step(s, command, runner, markupOk, reportOk).escaped
  {
  }

  /** How a session fed `inputs`, one line at a time, ends. */
  function Repl(s: ContextState, inputs: seq<string>, runner: Runner, markupOk: MarkupCheck, reportOk: ReportCheck)
    : SessionEnd
    decreases |inputs|
  {
    if inputs == [] then SessionEnd(s, false)
    else
      match Step(s, Classify(inputs[0]), runner, markupOk, reportOk)
      case Go(next) => Repl(next, inputs[1..], runner, markupOk, reportOk)
      case Halt(last, escaped) => SessionEnd(last, escaped)
  }

  /** Each step only appends to the log and keeps the store and demographic fields. */
  lemma StepOnlyAppends(s: ContextState, command: Command, runner: Runner, markupOk: MarkupCheck, reportOk: ReportCheck)
    ensures var t := Step(s, command, runner, markupOk, reportOk).state;
      && |s.history| <= |t.history| && t.history[..|s.history|] == s.history
      && t.storeLocation == s.storeLocation && t.storeId == s.storeId
      && t.demographicData == s.demographicData && t.stateCode == s.stateCode
  {
    if command.Submit? {
      var run := Dispatch(s, command.query, runner).1;
      CliQueryLog(s, command.query, runner, markupOk);
      AfterEventsLabels(WithMessage(s, "User", command.query), run.events);
      var t := CliQuery(s, command.query, runner, markupOk).0;
      assert t.history[..|s.history|] == s.history;
    }
  }

  /**
   * A session only ever appends to the log: whatever the inputs, the old
   * history is a prefix of the new one, and the store and demographic
   * fields are kept.
   */
  lemma {:induction false} ReplOnlyAppends(s: ContextState, inputs: seq<string>, runner: Runner,
                                           markupOk: MarkupCheck, reportOk: ReportCheck)
    ensures var t := Repl(s, inputs, runner, markupOk, reportOk).state;
      && |s.history| <= |t.history| && t.history[..|s.history|] == s.history
      && t.storeLocation == s.storeLocation && t.storeId == s.storeId
      && t.demographicData == s.demographicData && t.stateCode == s.stateCode
    decreases |inputs|
  {
    if inputs != [] {
      var next := Step(s, Classify(inputs[0]), runner, markupOk, reportOk);
      StepOnlyAppends(s, Classify(inputs[0]), runner, markupOk, reportOk);
      if next.Go? {
        ReplOnlyAppends(next.state, inputs[1..], runner, markupOk, reportOk);
        var t := Repl(s, inputs, runner, markupOk, reportOk).state;
        assert t.history[..|s.history|] == t.history[..|next.state.history|][..|s.history|];
      }
    }
  }

  /** One step of a session: the first line's effect, then the rest. */
  lemma ReplStep(s: ContextState, line: string, rest: seq<string>, runner: Runner, markupOk: MarkupCheck,
                 reportOk: ReportCheck)
    ensures var next := Step(s, Classify(line), runner, markupOk, reportOk);
      Repl(s, [line] + rest, runner, markupOk, reportOk)
        == if next.Go? then Repl(next.state, rest, runner, markupOk, reportOk) else SessionEnd(next.state, next.escaped)
  {
    assert ([line] + rest)[0] == line && ([line] + rest)[1..] == rest;
  }

  /**
   * A blank line, or a `debug` line whose listing prints or whose error
   * can be reported, leaves the context as it is, and the loop goes on.
   */
  lemma ReplPasses(s: ContextState, line: string, rest: seq<string>, runner: Runner, markupOk: MarkupCheck,
                   reportOk: ReportCheck)
    requires Classify(line).Skip?
      || (Classify(line).Debug?
          && (ListingError(s.history, markupOk).None? || reportOk(ListingError(s.history, markupOk).value)))
    ensures Repl(s, [line] + rest, runner, markupOk, reportOk) == Repl(s, rest, runner, markupOk, reportOk)
  {
    ReplStep(s, line, rest, runner, markupOk, reportOk);
  }

  /**
   * A query line runs `process_query` once on the line as typed. When it
   * succeeds, or its error can be reported, the loop goes on from the
   * resulting context.
   */
  lemma ReplRuns(s: ContextState, line: string, rest: seq<string>, runner: Runner, markupOk: MarkupCheck,
                 reportOk: ReportCheck)
    requires Classify(line).Submit?
    requires var r := CliQuery(s, line, runner, markupOk).1; r.Ok? || reportOk(r.error)
    ensures Repl(s, [line] + rest, runner, markupOk, reportOk)
      == Repl(CliQuery(s, line, runner, markupOk).0, rest, runner, markupOk, reportOk)
  {
    ReplStep(s, line, rest, runner, markupOk, reportOk);
  }

  /**
   * A query whose error cannot be reported ends the program: the
   * exception escapes, the context is the one the query left, and no
   * later line is read.
   */
  lemma ReplHalts(s: ContextState, line: string, rest: seq<string>, runner: Runner, markupOk: MarkupCheck,
                  reportOk: ReportCheck)
    requires Classify(line).Submit?
    requires var r := CliQuery(s, line, runner, markupOk).1; r.Err? && !reportOk(r.error)
    ensures Repl(s, [line] + rest, runner, markupOk, reportOk)
      == SessionEnd(CliQuery(s, line, runner, markupOk).0, true)
  {
    ReplStep(s, line, rest, runner, markupOk, reportOk);
  }

  /**
   * For example, a query the console cannot echo, such as one holding a
   * stray closing tag, whose error report fails too, ends the session
   * right after its `("User", query)` entry: nothing typed later runs.
   */
  lemma EchoFailureEndsSession(s: ContextState, query: string, rest: seq<string>, runner: Runner,
                               markupOk: MarkupCheck, reportOk: ReportCheck)
    requires Classify(query).Submit?
    requires !markupOk(QueryBanner(query)) && !reportOk(MarkupError(QueryBanner(query)))
    ensures Repl(s, [query] + rest, runner, markupOk, reportOk) == SessionEnd(WithMessage(s, "User", query), true)
  {
    CliQueryLog(s, query, runner, markupOk);
    ReplHalts(s, query, rest, runner, markupOk, reportOk);
  }

  /** A `debug` line whose listing fails and whose error cannot be reported ends the program as it stands. */
  lemma ListingFailureEndsSession(s: ContextState, line: string, rest: seq<string>, runner: Runner,
                                  markupOk: MarkupCheck, reportOk: ReportCheck)
    requires Classify(line).Debug?
    requires ListingError(s.history, markupOk).Some? && !reportOk(ListingError(s.history, markupOk).value)
    ensures Repl(s, [line] + rest, runner, markupOk, reportOk) == SessionEnd(s, true)
  {
    ReplStep(s, line, rest, runner, markupOk, reportOk);
  }

  /** `exit` or `quit` ends the session where it stands, with no exception. */
  lemma ReplEnds(s: ContextState, line: string, rest: seq<string>, runner: Runner, markupOk: MarkupCheck,
                 reportOk: ReportCheck)
    requires Classify(line).Exit?
    ensures Repl(s, [line] + rest, runner, markupOk, reportOk) == SessionEnd(s, false)
  {
    ReplStep(s, line, rest, runner, markupOk, reportOk);
  }

  /** The command of each line typed, in order. */
  function Commands(inputs: seq<string>): (cs: seq<Command>)
    ensures |cs| == |inputs|
    decreases |inputs|
  {
    if inputs == [] then [] else [Classify(inputs[0])] + Commands(inputs[1..])
  }

  /** Classifying two runs of lines is classifying each. */
  lemma {:induction false} CommandsAppend(a: seq<string>, b: seq<string>)
    ensures Commands(a + b) == Commands(a) + Commands(b)
    decreases |a|
  {
    if a != [] {
      assert (a + b)[0] == a[0] && (a + b)[1..] == a[1..] + b;
      CommandsAppend(a[1..], b);
    } else {
      assert a + b == b;
    }
  }

  /** How a session carrying out already classified `commands`, one at a time, ends. */
  function Session(s: ContextState, commands: seq<Command>, runner: Runner, markupOk: MarkupCheck,
                   reportOk: ReportCheck): SessionEnd
    decreases |commands|
  {
    if commands == [] then SessionEnd(s, false)
    else
      match Step(s, commands[0], runner, markupOk, reportOk)
      case Go(next) => Session(next, commands[1..], runner, markupOk, reportOk)
      case Halt(last, escaped) => SessionEnd(last, escaped)
  }

  /** A session over lines is the session over their commands. */
  lemma {:induction false} ReplIsSession(s: ContextState, inputs: seq<string>, runner: Runner, markupOk: MarkupCheck,
                                         reportOk: ReportCheck)
    ensures Repl(s, inputs, runner, markupOk, reportOk) == Session(s, Commands(inputs), runner, markupOk, reportOk)
    decreases |inputs|
  {
    if inputs != [] {
      var next := Step(s, Classify(inputs[0]), runner, markupOk, reportOk);
      assert Commands(inputs)[0] == Classify(inputs[0]) && Commands(inputs)[1..] == Commands(inputs[1..]);
      if next.Go? {
        ReplIsSession(next.state, inputs[1..], runner, markupOk, reportOk);
      }
    }
  }

  /** Commands after an `Exit` are never carried out. */
  lemma {:induction false} SessionStopsAtExit(s: ContextState, before: seq<Command>, after: seq<Command>,
                                              runner: Runner, markupOk: MarkupCheck, reportOk: ReportCheck)
    ensures Session(s, before + [Exit] + after, runner, markupOk, reportOk)
      == Session(s, before, runner, markupOk, reportOk)
    decreases |before|
  {
    if before != [] {
      var all := before + [Exit] + after;
      assert all[0] == before[0] && all[1..] == before[1..] + [Exit] + after;
      var next := Step(s, before[0], runner, markupOk, reportOk);
      if next.Go? {
        SessionStopsAtExit(next.state, before[1..], after, runner, markupOk, reportOk);
      }
    }
  }

  /** Nothing typed after `exit` or `quit` has any effect. */
  lemma ReplStopsAtExit(s: ContextState, before: seq<string>, exit: string,
                        after: seq<string>, runner: Runner, markupOk: MarkupCheck, reportOk: ReportCheck)
    requires Classify(exit).Exit?
    ensures Repl(s, before + [exit] + after, runner, markupOk, reportOk) == Repl(s, before, runner, markupOk, reportOk)
  {
    CommandsAppend(before + [exit], after);
    CommandsAppend(before, [exit]);
    assert Commands([exit]) == [Exit] by {
      assert [exit][0] == exit && [exit][1..] == [];
    }
    ReplIsSession(s, before + [exit] + after, runner, markupOk, reportOk);
    ReplIsSession(s, before, runner, markupOk, reportOk);
    SessionStopsAtExit(s, Commands(before), Commands(after), runner, markupOk, reportOk);
  }

  /**
   * `interactive_session()`: a fresh context, then one line at a time
   * until `exit`/`quit` or the end of input. An exception raised by the
   * listing or a query is reported and the loop goes on with the context
   * as it is; when the report raises, that exception escapes and the
   * session ends.
   */
  method InteractiveSession(inputs: seq<string>, runner: Runner, markupOk: MarkupCheck, reportOk: ReportCheck)
    returns (ctx: SharedAgentContext, escaped: bool)
    ensures fresh(ctx)
    ensures SessionEnd(ctx.State(), escaped) == Repl(Fresh, inputs, runner, markupOk, reportOk)
  {
    ctx := new SharedAgentContext();
    escaped := false;
    var i := 0;
    while i < |inputs|
      invariant 0 <= i <= |inputs|
      invariant fresh(ctx)
      invariant Repl(ctx.State(), inputs[i..], runner, markupOk, reportOk) == Repl(Fresh, inputs, runner, markupOk, reportOk)
    {
      var query := inputs[i];
      assert inputs[i..] == [query] + inputs[i + 1..];
      var lowered := Lower(query);
      if lowered == "exit" || lowered == "quit" {
        ReplEnds(ctx.State(), query, inputs[i + 1..], runner, markupOk, reportOk);
        return;
      }
      if lowered == "debug" {
        var failure := DebugListing(ctx, markupOk);
        if failure.Some? && !reportOk(failure.value) {
          ListingFailureEndsSession(ctx.State(), query, inputs[i + 1..], runner, markupOk, reportOk);
          escaped := true;
          return;
        }
        ReplPasses(ctx.State(), query, inputs[i + 1..], runner, markupOk, reportOk);
        i := i + 1;
        continue;
      }
      if Strip(query) == "" {
        ReplPasses(ctx.State(), query, inputs[i + 1..], runner, markupOk, reportOk);
        i := i + 1;
        continue;
      }
      ghost var before := ctx.State();
      var result;
      result, ctx := ProcessQuery(query, ctx, runner, markupOk);
      if result.Err? && !reportOk(result.error) {
        ReplHalts(before, query, inputs[i + 1..], runner, markupOk, reportOk);
        escaped := true;
        return;
      }
      ReplRuns(before, query, inputs[i + 1..], runner, markupOk, reportOk);
      i := i + 1;
    }
  }
}
