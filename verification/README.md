# Multi-agent retail assistant: a Dafny model of its core

The system answers business questions through three agents built on an agent SDK:
- a triage agent that hands a question off to one of two specialists;
- an Enterprise Intelligence Agent, for store performance, inventory and policy;
- a Market Intelligence Agent, for census data and web research.

Each specialist can also call the other as a tool. A console driver and a web UI driver both keep one `SharedAgentContext` per session. The context holds an append-only conversation log and the names of the active agent and tool, and the agent runtime's lifecycle hooks update it.

This project models the parts of that system that are plain sequential logic and proves what they promise:

- **Conversation log** (`shared_context.dfy`).
  - `SharedAgentContext` is a class whose methods are proved against the pure state `ContextState`.
  - `Format` is the history renderer, with its sentinel and concatenation properties.
- **Genie long-poll client** (`genie_client.dfy`).
  - The workspace is an oracle: the reply to the start call, the message seen by the k-th poll, and an attachment's statement response.
  - Time is whole ticks. The `while True` loop is a method proved against the pure `Outcome`, which gives the result, the calls made and the number of polls.
  - Lemmas fix the stopping poll, the call sequence, the four outcomes and the poll count on timeout.
- **Request validation and construction**.
  - The policy lookup's blank-query guard (`business_conduct_policy.dfy`).
  - The Perplexity client's key check, chat messages, streamed-delta concatenation and research question texts (`research_client.dfy`).
- **Agent runtime and hooks** (`runtime.dfy`, `streamlit_hooks.dfy`).
  - `Runner.run` is an oracle. For the input text and the context at the start of the run, it returns the hook events it fires and either a final output or an exception.
  - The hooks' effect on the context is `AfterEvent`. Each hook class is modelled as methods on the context object.
- **Session drivers**.
  - `session_driver.dfy` holds the query pipeline both drivers share, written identically in both: log the user's query, detect a summarisation request, append the formatted history to the query, and run.
  - `multi_agent_cli.dfy` holds the console's `process_query`, which logs `("System", output)`, and its read-eval loop.
  - `app.dfy` holds the web UI's `process_query`, which logs under the active agent's name or `"Assistant"`, the `processing` guard and the Clear Conversation reset.
- **Agent descriptors** (`agent.dfy`, `enterprise_agent.dfy`, `market_agent.dfy`, `triage_agent.dfy`, `agent_factory.dfy`).
  - Agents are immutable records.
  - Each enhanced specialist embeds the other domain's base agent as a tool, and triage hands off to the enhanced pair.
  - `Nesting` measures agent-as-tool depth. It proves that embedding is acyclic and that the system nests at most one level.

`wrappers.dfy` and `pystr.dfy` hold `Option`/`Result` and the Python string operations the code relies on: `isspace`, `strip`, `lower`, `in`, `join` and `startswith`/`endswith`, plus the truthiness of an optional string.

Three behaviours of the code are easy to miss:
- **The web UI logs the final output twice.**
  - The `on_agent_end` hook records `(agent name, output)` (src/utils/streamlit_hooks.py:34).
  - `process_query` then records the same output again under `current_agent` (app.py:80-83).
  - Every run starts at the triage agent, so a query answered by a specialist that calls one tool adds five entries to the log: `User`, the `System` handoff line, the `Tool (name)` result, and the specialist's answer twice.
  - `App.FinalOutputLoggedTwice` and `App.HandoffAnswerLog` state this.
- **A failed query leaves hook entries behind.** When the run raises, no reply is recorded. The entries the hooks made before the exception stay in the context log (`App.UiQueryLog`, `MultiAgentCli.CliQueryLog`).
- **Printing can fail a console query.** Rich parses markup in every string the console prints, and neither the query nor the final output is escaped.
  - A query whose echo (multi_agent_cli.py:102) is not valid markup raises `MarkupError` after `("User", query)` is logged, and before the agent runs.
  - A final output whose panel (multi_agent_cli.py:123-124) is not valid markup raises after the run finished. The hooks' entries stay, but `("System", output)` is never logged.
  - The `debug` listing prints each entry's role and content unescaped too (multi_agent_cli.py:165), so it can raise the same way part-way through.
  - The loop's `except Exception` handler reports an error by printing `str(e)` inside markup, then the traceback (multi_agent_cli.py:178-181). When that report parses, the loop goes on with the context as it is. When it does not, for instance when the error message quotes a stray closing tag such as `[/]`, the handler's own `MarkupError` escapes the loop and the program ends. So the lines `[/]` then `hello` can end the session after logging `("User", "[/]")`, without ever running `hello` (`MultiAgentCli.EchoFailureEndsSession`).
  - Rich's markup grammar and the texts of Python's exception messages and tracebacks are not part of this model. Whether a text parses is the oracle `MultiAgentCli.MarkupCheck`, and whether an exception's report prints is the oracle `MultiAgentCli.ReportCheck`.
- **The two drivers handle blank input differently.** The console skips empty or whitespace-only input. The web UI only ignores an empty submission, and processes a whitespace-only one (`App.SessionState.Submit`, `MultiAgentCli.ClassifyCases`).

## Model

| member | source | states |
|---|---|---|
| `SharedContext.SharedAgentContext.constructor` | src/agents/shared_context.py:8-18 | a new context has every optional field unset and an empty history |
| `SharedContext.SharedAgentContext.AddMessage` | src/agents/shared_context.py:20-22 | exactly one `(role, content)` entry is appended at the end; no other field changes |
| `SharedContext.SharedAgentContext.GetFormattedHistory` | src/agents/shared_context.py:24-33 | the loop's text is `Format` of the history, and the history is left unchanged |
| `SharedContext.WithMessagesAppends` | src/agents/shared_context.py:20-22 | successive `add_message` calls append their entries in call order after the old ones and change no other field |
| `SharedContext.FreshWithMessages` | src/agents/shared_context.py:16-22 | after n calls on a fresh context, the history has n entries and the i-th comes from the i-th call |
| `SharedContext.RenderAll` | src/agents/shared_context.py:29-31 | one `role: content` rendering per entry, in log order |
| `SharedContext.FormatSentinelIffEmpty` | src/agents/shared_context.py:26-27 | the text is the sentinel exactly when the history is empty, and it is never empty |
| `SharedContext.JoinStartsWithFirst` | src/agents/shared_context.py:29-33 | the text of a non-empty history begins with its first entry's rendering |
| `SharedContext.FormatSingle` | src/agents/shared_context.py:29-33 | a one-entry history renders as `role: content` alone |
| `SharedContext.FormatAppend` | src/agents/shared_context.py:29-33 | appending an entry extends the old text by a blank line and that entry's rendering |
| `SharedContext.FormatEndsWithLast` | src/agents/shared_context.py:29-33 | the text ends with the last entry's rendering |
| `AgentRuntime.AfterEventsHistory` | src/utils/streamlit_hooks.py:15-78 | hooks never remove or reorder entries: the old log is a prefix, followed by the hooks' entries in firing order |
| `AgentRuntime.AfterEventsLabels` | src/utils/streamlit_hooks.py:15-47 | `current_agent` and `current_tool` are last-writer-wins over the start hooks; the four scratch fields are never written |
| `AgentRuntime.EventsEntriesCount` | src/utils/streamlit_hooks.py:15-78 | each hook adds at most one entry, and start hooks add none |
| `StreamlitHooks.OnAgentStart` | src/utils/streamlit_hooks.py:15-18 | sets `current_agent` to the agent's name and logs nothing |
| `StreamlitHooks.OnAgentEnd` | src/utils/streamlit_hooks.py:29-34 | appends `(agent name, output)` |
| `StreamlitHooks.OnToolStart` | src/utils/streamlit_hooks.py:45-47 | sets `current_tool` to the tool's name and logs nothing |
| `StreamlitHooks.OnToolEnd` | src/utils/streamlit_hooks.py:58-62 | appends `("Tool (name)", str(result))` |
| `StreamlitHooks.OnHandoff` | src/utils/streamlit_hooks.py:73-78 | appends `("System", "Handoff from A to B")` |
| `StreamlitHooks.Fire` | src/utils/streamlit_hooks.py:15-78 | each callback's effect on the context is `AfterEvent` of its event |
| `StreamlitHooks.RunWithHooks` | app.py:72-77 | the run sees the context as it was at the start, and its events are applied in order |
| `MultiAgentCli.OnAgentStart` | multi_agent_cli.py:46-52 | sets `current_agent` to the agent's name |
| `MultiAgentCli.OnAgentEnd` | multi_agent_cli.py:54-62 | appends `(agent name, output)` |
| `MultiAgentCli.OnToolStart` | multi_agent_cli.py:64-67 | sets `current_tool` to the tool's name |
| `MultiAgentCli.OnToolEnd` | multi_agent_cli.py:69-76 | appends `("Tool (name)", str(result))` |
| `MultiAgentCli.OnHandoff` | multi_agent_cli.py:78-86 | appends `("System", "Handoff from A to B")` |
| `MultiAgentCli.Fire` | multi_agent_cli.py:41-86 | the console hooks have the same context effect as the web UI hooks |
| `MultiAgentCli.RunWithHooks` | multi_agent_cli.py:114-120 | the run sees the context as it was at the start, and its events are applied in order |
| `SessionDriver.SummaryDetection` | multi_agent_cli.py:105 | a summarisation request is one in which one of the four phrases occurs in the lower-cased query; lower-casing the query first changes nothing |
| `SessionDriver.PhraseDetected` | app.py:63 | any occurrence of one of the phrases, in lower case, makes the query a summarisation request |
| `SessionDriver.AgentInputRewrite` | multi_agent_cli.py:104-111 | a non-summary query is sent unchanged; a summary query is sent as query, preamble and formatted history, and that history already ends with the new User entry |
| `SessionDriver.DispatchHistory` | app.py:56-77 | `("User", query)` is logged before the run, and the hooks' entries follow it |
| `MultiAgentCli.CliQueryLog` | multi_agent_cli.py:90-129 | a query the console cannot echo leaves only the User entry and runs nothing; otherwise the log gains User and the hooks' entries, then `("System", output)` exactly when the run finished and its output panel could be printed, which is exactly when the query succeeds |
| `MultiAgentCli.ProcessQuery` | multi_agent_cli.py:90-129 | a missing context is replaced by a fresh one; otherwise the given context object is updated in place as `CliQuery` says, including the two points where printing can raise |
| `MultiAgentCli.ClassifyCases` | multi_agent_cli.py:156-170 | `exit`/`quit` end the session in any letter case; blank input is skipped; other input is processed untrimmed |
| `MultiAgentCli.ReplOnlyAppends` | multi_agent_cli.py:148-173 | a session only appends to the log: the old history stays a prefix, and the store and demographic fields are kept |
| `MultiAgentCli.ListingOkIffAllAccepted` | multi_agent_cli.py:164-165 | the `debug` listing prints in full exactly when the console accepts every entry's line |
| `MultiAgentCli.ListingFailsAtFirstRejected` | multi_agent_cli.py:164-165 | a failing listing raises `MarkupError` for the first rejected line, every earlier line having printed |
| `MultiAgentCli.DebugListing` | multi_agent_cli.py:162-166 | the listing loop raises exactly the error `ListingError` gives for the history: the first rejected line, or none |
| `MultiAgentCli.StepCases` | multi_agent_cli.py:151-181 | one iteration: only a query changes the context, failing or not; `exit`/`quit` stop with no exception; a blank line goes on; `debug` and a query stop, with an escaping exception, exactly when their error cannot be reported |
| `MultiAgentCli.StepOnlyAppends` | multi_agent_cli.py:151-181 | one iteration only appends to the log and keeps the store and demographic fields |
| `MultiAgentCli.ReplStep` | multi_agent_cli.py:151-181 | a session is its first line's step, then, if that step goes on, the session over the rest |
| `MultiAgentCli.ReplPasses` | multi_agent_cli.py:162-181 | a blank line, or a `debug` line whose listing prints or whose error can be reported, leaves the context as it is, and the loop goes on |
| `MultiAgentCli.ReplRuns` | multi_agent_cli.py:172-181 | a query line runs `process_query` once on the line as typed; when it succeeds or its error can be reported, the loop goes on from the resulting context |
| `MultiAgentCli.ReplHalts` | multi_agent_cli.py:172-181 | a query whose error cannot be reported ends the session with the exception escaping, in the context the query left; no later line is read |
| `MultiAgentCli.EchoFailureEndsSession` | multi_agent_cli.py:102-181 | a query the console cannot echo, whose error report fails too, ends the session right after its User entry |
| `MultiAgentCli.ListingFailureEndsSession` | multi_agent_cli.py:162-181 | a `debug` line whose listing fails unreportably ends the session with the context unchanged and the exception escaping |
| `MultiAgentCli.ReplEnds` | multi_agent_cli.py:157-159 | `exit` or `quit` ends the session with the context as it stands, and no exception |
| `MultiAgentCli.ReplIsSession` | multi_agent_cli.py:151-173 | running the loop over the typed lines is running it over their commands, each line classified on its own |
| `MultiAgentCli.SessionStopsAtExit` | multi_agent_cli.py:157-159 | no command after an exit command is carried out |
| `MultiAgentCli.ReplStopsAtExit` | multi_agent_cli.py:157-159 | nothing typed after `exit` or `quit` has any effect |
| `MultiAgentCli.InteractiveSession` | multi_agent_cli.py:131-181 | the loop leaves the fresh context in the state that `Repl` gives for the inputs, and an exception escapes exactly when `Repl` says one does |
| `App.UiQueryLog` | app.py:54-85 | the web UI log gains User, the hooks' entries and then `(label, output)`; the label is the last agent started, else the earlier `current_agent`, else `"Assistant"` |
| `App.FinalOutputLoggedTwice` | app.py:72-83 | when the run ends with the `on_agent_end` of the agent it started last, the log ends with that agent's output twice, after the entries of the earlier hooks, and that agent's name is the reply label |
| `App.HandoffEvents` | src/utils/streamlit_hooks.py:15-78 | before the final answer, a handoff to a specialist that calls one tool records exactly the handoff line and the tool result, and leaves the specialist as the last agent started |
| `App.HandoffAnswerLog` | app.py:56-83 | a query where triage hands off to a specialist that calls one tool and answers adds five entries: User, the handoff, the tool result, and the answer twice |
| `App.ProcessQuery` | app.py:54-85 | the context object is updated in place as `UiQuery` says, and `(final output, label)` is returned |
| `App.SessionState.constructor` | app.py:341-348 | a fresh context, no messages, debug off, not processing |
| `App.SessionState.ClearConversation` | app.py:393-396 | messages are emptied and the context is replaced by a fresh one |
| `App.SessionState.Submit` | app.py:489-537 | an empty submission is ignored; while processing, a submission is rejected with nothing changed; otherwise User is shown, then the reply only on success, and `processing` ends False on both paths |
| `Genie.GenieClient.constructor` | src/utils/genie_client.py:14-23 | the client keeps the workspace client it is given |
| `Genie.PollsFrom` | src/utils/genie_client.py:61-79 | at least one more poll is always made |
| `Genie.PollsFromStops` | src/utils/genie_client.py:62-79 | polling stops at the first poll that sees COMPLETED or is made after the deadline; every earlier poll saw another status, or none, and was on time |
| `Genie.PollCountUnique` | src/utils/genie_client.py:62-79 | any poll count with that stopping property is the one the loop makes |
| `Genie.PollTraceShape` | src/utils/genie_client.py:56-79 | every poll uses the same space, conversation and message ids, with a sleep of the poll interval between consecutive polls |
| `Genie.OutcomeCases` | src/utils/genie_client.py:56-79 | the conversation is started first; COMPLETED with attachments gives the first attachment's result; COMPLETED without any gives the soft error; a COMPLETED poll wins even after the deadline; TimeoutError comes only from a late poll that did not see COMPLETED, and no call follows it |
| `Genie.TimeoutPollCount` | src/utils/genie_client.py:76-79 | with calls taking no time, a query that never completes is polled `timeout / interval + 2` times (once when the timeout is negative) |
| `Genie.DefaultTimeoutPolls` | src/utils/genie_client.py:35-36 | with the 60 s timeout and 2 s interval, and calls taking no time, a query that never completes is polled 32 times |
| `Genie.DomainGuard` | src/utils/genie_client.py:91-95 | the domain queries raise ValueError exactly when the space-id variable is unset or empty, and exactly then no call reaches the workspace |
| `Genie.GenieClient.QueryGenieSpace` | src/utils/genie_client.py:31-79 | the poll loop computes `Outcome`: result, calls made and poll count |
| `Genie.GenieClient.QueryStorePerformance` | src/utils/genie_client.py:81-95 | guard on `GENIE_SPACE_STORE_PERFORMANCE_ID`, then delegation with the defaults |
| `Genie.GenieClient.QueryProductInventory` | src/utils/genie_client.py:97-111 | guard on `GENIE_SPACE_PRODUCT_INV_ID`, then delegation with the defaults |
| `BusinessConductPolicy.PolicyCall` | src/policies/business_conduct_policy.py:34-40 | rejected with "Search query cannot be empty" exactly when the query is empty or whitespace only; otherwise the conduct function with the query verbatim as its only parameter |
| `BusinessConductPolicy.GetBusinessConductPolicyInfo` | src/policies/business_conduct_policy.py:24-40 | validation precedes the call; a valid query returns the client's result unchanged |
| `BusinessConductPolicy.GuardIgnoresPadding` | src/policies/business_conduct_policy.py:34-39 | surrounding white space does not change acceptance, but the query is sent as typed |
| `Research.NewClient` | src/utils/research_client.py:14-28 | a client exists exactly when the argument or the environment supplies a non-empty key; a non-empty argument takes precedence |
| `Research.MissingKeyNamesVariable` | tests/integration/test_research_tools.py:215-222 | without any key, the ValueError message names `PERPLEXITY_API_KEY` |
| `Research.UserContent` | src/utils/research_client.py:61-64 | the query verbatim without the date; otherwise prefixed by `today is <date> + ` |
| `Research.UserContentRecoversQuery` | src/utils/research_client.py:61-64 | the query can be read back from the user message |
| `Research.BuildMessages` | src/utils/research_client.py:53-69 | exactly `[system, user]`; the default system prompt is used only when none is given |
| `Research.StreamTextAppend` | src/utils/research_client.py:84-90 | the streamed text of a concatenation is the concatenation of the texts: arrival order is kept |
| `Research.StreamTextSkipsEmpty` | src/utils/research_client.py:84-90 | chunks with no choices or an empty delta add nothing; an empty stream yields "" |
| `Research.StreamCompletion` | src/utils/research_client.py:76-90 | the accumulating loop returns `StreamText` of the stream |
| `Research.NonStreamText` | src/utils/research_client.py:92-99 | the first choice's content, or IndexError when there are no choices |
| `Research.ResearchAndReason` | src/utils/research_client.py:30-74 | one request with the built messages; the `stream` flag alone selects the path |
| `Research.MarketTrendsQuery` | src/utils/research_client.py:112-115 | the question starts with the fixed lead and the topic, and ends with the region clause and the fixed tail |
| `Research.MarketTrendsQueryProperties` | src/utils/research_client.py:112-115 | an empty region is the same as none; for a fixed region, the question determines the topic |
| `Research.DemographicsQuery` | src/utils/research_client.py:136-139 | the question starts with the fixed lead and the location, and ends with the aspects clause and the fixed tail |
| `Research.DemographicsQueryProperties` | src/utils/research_client.py:136-139 | an empty aspect list is the same as none; aspects are joined by ", "; for fixed aspects, the question determines the location |
| `Research.CompetitorQuery` | src/utils/research_client.py:160-163 | the question frames the company and the industry with the fixed text |
| `Research.CompetitorQueryInjective` | src/utils/research_client.py:160-163 | the question determines the company and the industry |
| `Research.CompetitorCompanyDetermined` | src/utils/research_client.py:160-163 | for a fixed industry, the competitor question determines the company |
| `Research.CompetitorIndustryDetermined` | src/utils/research_client.py:160-163 | for a fixed company, the competitor question determines the industry |
| `Research.ResearchWith` | src/utils/research_client.py:117-123 | a research helper streams its question with the default model, the date included, and its own system prompt |
| `Research.ResearchMarketTrends` | src/utils/research_client.py:101-123 | sends the market-trends question with the analyst prompt |
| `Research.ResearchDemographics` | src/utils/research_client.py:125-147 | sends the demographics question with the demographer prompt |
| `Research.ResearchCompetitorAnalysis` | src/utils/research_client.py:149-171 | sends the competitor question with the business-analyst prompt |
| `Agents.EmbeddedIsShallower` | src/agents/enterprise_agent.py:50-53 | an agent embedded as a tool nests strictly less deeply than its host |
| `Agents.NestingZeroIff` | src/agents/market_agent.py:22-25 | nesting is 0 exactly for agents whose tools are all function tools |
| `Agents.NestingWithAgentTool` | src/agents/market_agent.py:48-55 | function tools followed by one agent tool nest one level deeper than the embedded agent |
| `EnterpriseAgent.CreateEnterpriseAgent` | src/agents/enterprise_agent.py:11-58 | both forms share the name, the handoff description, the model and the three base tools; without a market agent it returns the base form; with one, it adds `get_market_intelligence` last and the capabilities text |
| `EnterpriseAgent.EnhancedExtendsBase` | src/agents/enterprise_agent.py:31-56 | the enhanced form is the base form plus one appended tool and appended instructions; it nests one level deeper, and its tool names are distinct |
| `MarketAgent.CreateMarketAgent` | src/agents/market_agent.py:10-59 | both forms share the name, the handoff description, the model and the census and research tools; with an enterprise agent, `get_enterprise_data` is added last with the capabilities text |
| `MarketAgent.EnhancedExtendsBase` | src/agents/market_agent.py:29-57 | the enhanced form is the base form plus one appended tool and appended instructions; it nests one level deeper, and its tool names are distinct |
| `TriageAgent.CreateTriageAgent` | src/agents/triage_agent.py:17-54 | named "Triage Agent", no tools, handoffs exactly `[enterprise, market]`, instructions prefixed by the loaded prompt |
| `TriageAgent.TriageNestsNothing` | src/agents/triage_agent.py:46-54 | the triage agent embeds no agent |
| `AgentFactory.CreateAgentSystem` | src/agents/agent_factory.py:21-27 | the result map has exactly the five keys |
| `AgentFactory.SystemWiring` | src/agents/agent_factory.py:11-27 | each enhanced specialist embeds the other domain's base agent; triage hands off to the enhanced pair, enterprise first |
| `AgentFactory.SystemNestingBounded` | src/agents/agent_factory.py:11-19 | every agent of the system nests at most one level, agents embedded as tools embed none, and handoff targets hand off nowhere |

## Left out

- I/O and services are parameters or oracles:
  - `Runner.run` and everything inside the agent runtime (turns, tool dispatch, handoff decisions, the LLMs) is an oracle from the input text and the context to hook events and a final output or an exception.
  - The Databricks workspace (`w.genie.*`), the Unity Catalog function client and the OpenAI/Perplexity chat endpoints are oracles.
  - An exception raised by one of these SDK calls is not modelled.
- Clocks: `time.time()`/`time.sleep` become whole ticks. Each workspace call takes no time, so poll k happens at tick k × interval. Float timeouts and intervals become integers.
- `Genie.GenieClient.QueryGenieSpace` requires a positive poll interval. With integer ticks, a zero interval would never reach the deadline; the code would spin with a zero sleep until the wall clock passed it.
- `time.strftime('%d %B %Y')` is a `date` parameter.
- Environment reads (`os.getenv`, `load_dotenv`) are a `map` argument.
- The constructors that build SDK clients from the environment (`GenieClient()` without a client, `BusinessConductPolicy()`) are not modelled; a client is passed in.
- `load_prompt` and the prompt files are not part of this model: their text is a parameter.
- `str.lower` is modelled on ASCII letters only. For the tests the code makes (the summarisation phrases, `exit`, `quit` and `debug`), this gives the same answer as Python's full lowering: the only non-ASCII characters that lower to an ASCII letter are KELVIN SIGN, which becomes `k`, and U+0130, which becomes `i` followed by a combining dot that breaks any match.
- `statement_response.as_dict()` is modelled as a flat string map. `str(result)` of a tool's return value is taken as given in the hook event.
- Console and web rendering is not modelled: Rich panels, spinners, durations, the Streamlit page, avatars, status panels and `st.rerun`. The console prints that carry logged text are modelled through `MarkupCheck`: the query echo, the output panel and each line of the `debug` listing. The error report is modelled through `ReportCheck`. The other console prints hold only fixed text, agent names and tool names, and are taken to print.
- The debug-mode toggle's sidebar widget and the traceback display are not modelled.
- `KeyboardInterrupt` in the console loop is not modelled.
- `MultiAgentCli.InteractiveSession` stops at the end of the given inputs, but the program does not. At end of input `console.input` raises `EOFError`, and the `except Exception` handler (multi_agent_cli.py:178-181) reports it. If that report prints, the `while True` loop prompts again forever; if it does not, the exception escapes. The model's stop is where either begins, with the context as it stands.
- Hook timing fields (`start_time`) are not modelled; they only feed printed durations.
- The triage handoff callbacks (src/agents/triage_agent.py:7-14) only post sidebar messages, and are left out.
- Census, toolkit and `@function_tool` wrapper modules are left out: the census tool is an external API with float arithmetic, and the rest are re-exports with no logic of their own.
- `asyncio` event-loop plumbing, mlflow tracing setup and the `argparse` entry point are not modelled.
- The two hook classes and the two `process_query` functions are modelled separately, as the code has them. Their shared pipeline is modelled once, in `SessionDriver`.
