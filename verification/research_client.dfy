/**
 * `PerplexityResearchClient`: the API-key check of its constructor, the
 * chat messages `research_and_reason` sends, the concatenation of a
 * streamed reply, and the query texts of the three research helpers.
 *
 * The chat-completions endpoint is an oracle: for a model and messages it
 * gives the stream of chunks (streaming) or the list of choices (not
 * streaming). The current date is a parameter in place of `time.strftime`.
 */
module Research {
  import opened Wrappers
  import opened PyStr

  /** One `{"role": ..., "content": ...}` chat message. */
  datatype ChatMessage = ChatMessage(role: string, content: string)

  /** What `chat.completions.create` is called with. */
  datatype CompletionRequest = CompletionRequest(model: string, messages: seq<ChatMessage>, stream: bool)

  /** A streamed chunk: `delta.content` of each of its choices (None when unset). */
  datatype Chunk = Chunk(choices: seq<Option<string>>)

  /** The chat-completions endpoint. */
  datatype ChatApi = ChatApi(
    /** The chunks of a streamed completion. */
    stream: (string, seq<ChatMessage>) -> seq<Chunk>,
    /** `message.content` of each choice of a non-streamed completion. */
    complete: (string, seq<ChatMessage>) -> seq<Option<string>>)

  /** A constructed client: the key and base URL it was given, and its endpoint. */
  datatype Client = Client(apiKey: string, baseUrl: string, chat: ChatApi)

  const ApiKeyVar := "PERPLEXITY_API_KEY"
  const MissingKeyMessage := "PERPLEXITY_API_KEY environment variable is not set"
  const DefaultBaseUrl := "https://api.perplexity.ai"
  const DefaultModel := "sonar-reasoning-pro"
  const DefaultSystemPrompt :=
    "You are an artificial intelligence assistant and you need to "
    + "engage in a helpful, detailed, polite conversation with a user."

  /**
   * `PerplexityResearchClient(api_key, base_url)`: the key is the argument
   * when it is non-empty, else the environment variable; a client is
   * built exactly when one of them is set and non-empty.
   */
  function NewClient(apiKey: Option<string>, baseUrl: string, env: map<string, string>, chat: ChatApi)
    : (r: Result<Client>)
    ensures r.Err? <==> !Truthy(apiKey) && !Truthy(Getenv(env, ApiKeyVar))
    ensures r.Err? ==> r.error == ValueError(MissingKeyMessage)
    ensures r.Ok? && Truthy(apiKey) ==> r.value.apiKey == apiKey.value
    ensures r.Ok? && !Truthy(apiKey) ==> r.value.apiKey == env[ApiKeyVar]
    ensures r.Ok? ==> r.value.apiKey != "" && r.value.baseUrl == baseUrl
  {
    var key := if Truthy(apiKey) then apiKey else Getenv(env, ApiKeyVar);
    if !Truthy(key) then Err(ValueError(MissingKeyMessage))
    else Ok(Client(key.value, baseUrl, chat))
  }

  /** With no key given and an empty environment, the error names the variable. */
  lemma MissingKeyNamesVariable(chat: ChatApi)
    ensures NewClient(None, DefaultBaseUrl, map[], chat).Err?
    ensures Contains(NewClient(None, DefaultBaseUrl, map[], chat).error.message, ApiKeyVar)
  {
    assert MissingKeyMessage[..|ApiKeyVar|] == ApiKeyVar;
  }

  /** The user message text: the query, prefixed by the date when asked. */
  function UserContent(query: string, includeDate: bool, date: string): (c: string)
    ensures EndsWith(c, query)
    ensures !includeDate ==> c == query
    ensures includeDate ==> StartsWith(c, "today is " + date + " + ") && |c| == 12 + |date| + |query|
  {
    if includeDate then "today is " + date + " + " + query else query
  }

  /** The query can be read back from the user message: the text after the date prefix. */
  lemma UserContentRecoversQuery(query: string, includeDate: bool, date: string)
    ensures var c := UserContent(query, includeDate, date);
      c[|c| - |query|..] == query
      && (includeDate ==> c[|"today is " + date + " + "|..] == query)
  {
  }

  /**
   * The messages sent: exactly a system message then a user message. The
   * system text is the given prompt, or the default one only when none was
   * given (an empty prompt is kept).
   */
  function BuildMessages(query: string, includeDate: bool, date: string, systemPrompt: Option<string>)
    : (m: seq<ChatMessage>)
    ensures |m| == 2 && m[0].role == "system" && m[1].role == "user"
    ensures m[0].content == if systemPrompt.None? then DefaultSystemPrompt else systemPrompt.value
    ensures m[1].content == UserContent(query, includeDate, date)
  {
    var prompt := if systemPrompt.None? then DefaultSystemPrompt else systemPrompt.value;
    [ChatMessage("system", prompt), ChatMessage("user", UserContent(query, includeDate, date))]
  }

  /** The text a chunk contributes: its first choice's delta, if there is a non-empty one. */
  function ChunkText(c: Chunk): string {
    if |c.choices| > 0 && Truthy(c.choices[0]) then c.choices[0].value else ""
  }

  /** The reply text of a stream: the chunks' texts concatenated in arrival order. */
  function StreamText(chunks: seq<Chunk>): string
    decreases |chunks|
  {
    if chunks == [] then "" else StreamText(chunks[..|chunks| - 1]) + ChunkText(chunks[|chunks| - 1])
  }

  /** Splitting a stream splits its text: earlier text is never altered by later chunks. */
  lemma {:induction false} StreamTextAppend(a: seq<Chunk>, b: seq<Chunk>)
    ensures StreamText(a + b) == StreamText(a) + StreamText(b)
    decreases |b|
  {
    if b != [] {
      var b' := b[..|b| - 1];
      assert (a + b)[..|a + b| - 1] == a + b';
      assert (a + b)[|a + b| - 1] == b[|b| - 1];
      StreamTextAppend(a, b');
      calc {
        StreamText(a + b);
        StreamText(a + b') + ChunkText(b[|b| - 1]);
        StreamText(a) + StreamText(b') + ChunkText(b[|b| - 1]);
        StreamText(a) + StreamText(b);
      }
    } else {
      assert a + b == a;
    }
  }

  /**
   * Chunks without choices or with an empty or missing delta add nothing;
   * a stream of only such chunks, or no chunks, yields "".
   */
  lemma {:induction false} StreamTextSkipsEmpty(chunks: seq<Chunk>)
    requires forall i :: 0 <= i < |chunks| ==> |chunks[i].choices| == 0 || !Truthy(chunks[i].choices[0])
    ensures StreamText(chunks) == ""
    decreases |chunks|
  {
    if chunks != [] {
      StreamTextSkipsEmpty(chunks[..|chunks| - 1]);
    }
  }

  /** `_stream_completion`: accumulates the stream's deltas in a loop. */
  method StreamCompletion(client: Client, messages: seq<ChatMessage>, model: string)
    returns (fullResponse: string)
    ensures fullResponse == StreamText(client.chat.stream(model, messages))
  {
    var responseStream := client.chat.stream(model, messages);
    fullResponse := "";
    for i := 0 to |responseStream|
      invariant fullResponse == StreamText(responseStream[..i])
    {
      var response := responseStream[i];
      assert responseStream[..i + 1][..i] == responseStream[..i];
      if |response.choices| > 0 && response.choices[0].Some? && response.choices[0].value != "" {
        var content := response.choices[0].value;
        fullResponse := fullResponse + content;
      }
    }
    assert responseStream[..|responseStream|] == responseStream;
  }

  /**
   * `_non_stream_completion`: the first choice's content, which may be
   * None; no choices raises IndexError.
   */
  function NonStreamText(choices: seq<Option<string>>): (r: Result<Option<string>>)
    ensures r.Err? <==> choices == []
    ensures r.Err? ==> r.error == IndexError
    ensures r.Ok? ==> r.value == choices[0]
  {
    if |choices| == 0 then Err(IndexError) else Ok(choices[0])
  }

  /**
   * `research_and_reason`: builds the two messages and sends them once;
   * the `stream` flag alone chooses the streaming or the plain path.
   */
  method ResearchAndReason(client: Client, userQuery: string, model: string, includeDate: bool,
                           date: string, systemPrompt: Option<string>, stream: bool)
    returns (r: Result<Option<string>>, request: CompletionRequest)
    ensures request == CompletionRequest(model, BuildMessages(userQuery, includeDate, date, systemPrompt), stream)
    ensures stream ==> r == Ok(Some(StreamText(client.chat.stream(model, request.messages))))
    ensures !stream ==> r == NonStreamText(client.chat.complete(model, request.messages))
  {
    var messages := BuildMessages(userQuery, includeDate, date, systemPrompt);
    request := CompletionRequest(model, messages, stream);
    if stream {
      var text := StreamCompletion(client, messages, model);
      r := Ok(Some(text));
    } else {
      r := NonStreamText(client.chat.complete(model, messages));
    }
  }

  /** `p + x + s == p + y + s` gives `x == y`. */
  lemma FrameInjective(p: string, x: string, y: string, s: string)
    requires p + x + s == p + y + s
    ensures x == y
  {
    var t := p + x + s;
    assert |x| == |y|;
    assert x == t[|p|..|p| + |x|];
    assert y == t[|p|..|p| + |y|];
  }

  const MarketTrendsPrefix := "What are the current market trends for "
  const MarketTrendsSuffix := "? Include recent data and analysis."
  const MarketAnalystPrompt :=
    "You are a market research analyst. Provide detailed, data-driven "
    + "insights about market trends with recent statistics and analysis."

  /** The region clause: ` in <region>` only for a non-empty region. */
  function RegionClause(region: Option<string>): string {
    if Truthy(region) then " in " + region.value else ""
  }

  /** The question `research_market_trends` asks. */
  function MarketTrendsQuery(topic: string, region: Option<string>): (q: string)
    ensures StartsWith(q, MarketTrendsPrefix + topic)
    ensures EndsWith(q, RegionClause(region) + MarketTrendsSuffix)
    ensures |q| == |MarketTrendsPrefix| + |topic| + |RegionClause(region)| + |MarketTrendsSuffix|
  {
    MarketTrendsPrefix + topic + RegionClause(region) + MarketTrendsSuffix
  }

  /**
   * An empty region is the same as none, and for a fixed region the
   * question determines the topic.
   */
  lemma MarketTrendsQueryProperties(topic: string, other: string, region: Option<string>)
    ensures MarketTrendsQuery(topic, Some("")) == MarketTrendsQuery(topic, None)
    ensures MarketTrendsQuery(topic, region) == MarketTrendsQuery(other, region) ==> topic == other
  {
    if MarketTrendsQuery(topic, region) == MarketTrendsQuery(other, region) {
      FrameInjective(MarketTrendsPrefix, topic, other, RegionClause(region) + MarketTrendsSuffix);
    }
  }

  const DemographicsPrefix := "What are the key demographic characteristics of "
  const AspectsLead := ", specifically focusing on "
  const DemographicsSuffix := "? Include recent census data and trends."
  const DemographerPrompt :=
    "You are a demographic researcher. Provide comprehensive demographic "
    + "analysis with recent census data, population statistics, and trends."

  /** The aspects clause: the aspects joined by ", ", only for a non-empty list. */
  function AspectsClause(aspects: Option<seq<string>>): string {
    if aspects.Some? && |aspects.value| > 0 then AspectsLead + Join(aspects.value, ", ") else ""
  }

  /** The question `research_demographics` asks. */
  function DemographicsQuery(location: string, aspects: Option<seq<string>>): (q: string)
    ensures StartsWith(q, DemographicsPrefix + location)
    ensures EndsWith(q, AspectsClause(aspects) + DemographicsSuffix)
  {
    DemographicsPrefix + location + AspectsClause(aspects) + DemographicsSuffix
  }

  /**
   * An empty aspect list is the same as none; one aspect is named as it
   * is; a further aspect adds ", " and its name; and for fixed aspects the
   * question determines the location.
   */
  lemma DemographicsQueryProperties(location: string, other: string, aspects: Option<seq<string>>,
                                    a: string, more: seq<string>)
    ensures DemographicsQuery(location, Some([])) == DemographicsQuery(location, None)
    ensures AspectsClause(Some([a])) == AspectsLead + a
    ensures more != [] ==> AspectsClause(Some(more + [a])) == AspectsClause(Some(more)) + ", " + a
    ensures DemographicsQuery(location, aspects) == DemographicsQuery(other, aspects) ==> location == other
  {
    if more != [] {
      assert (more + [a])[..|more + [a]| - 1] == more;
    }
    if DemographicsQuery(location, aspects) == DemographicsQuery(other, aspects) {
      FrameInjective(DemographicsPrefix, location, other, AspectsClause(aspects) + DemographicsSuffix);
    }
  }

  const CompetitorPrefix := "Provide a competitive analysis for "
  const IndustryLead := " in the "
  const CompetitorSuffix :=
    " industry. " + "Include market positioning, key competitors, strengths, and challenges."
  const CompetitiveAnalystPrompt :=
    "You are a business analyst specializing in competitive intelligence. "
    + "Provide thorough competitive analysis with market insights and strategic recommendations."

  /** The question `research_competitor_analysis` asks. */
  function CompetitorQuery(company: string, industry: string): (q: string)
    ensures StartsWith(q, CompetitorPrefix + company + IndustryLead)
    ensures EndsWith(q, industry + CompetitorSuffix)
  {
    CompetitorPrefix + company + IndustryLead + industry + CompetitorSuffix
  }

  /** For a fixed industry the question determines the company. */
  lemma CompetitorCompanyDetermined(company: string, company': string, industry: string)
    requires CompetitorQuery(company, industry) == CompetitorQuery(company', industry)
    ensures company == company'
  {
    var rest := IndustryLead + industry + CompetitorSuffix;
    assert CompetitorQuery(company, industry) == CompetitorPrefix + company + rest;
    assert CompetitorQuery(company', industry) == CompetitorPrefix + company' + rest;
    FrameInjective(CompetitorPrefix, company, company', rest);
  }

  /** For a fixed company the question determines the industry. */
  lemma CompetitorIndustryDetermined(company: string, industry: string, industry': string)
    requires CompetitorQuery(company, industry) == CompetitorQuery(company, industry')
    ensures industry == industry'
  {
    var lead := CompetitorPrefix + company + IndustryLead;
    assert CompetitorQuery(company, industry) == lead + industry + CompetitorSuffix;
    assert CompetitorQuery(company, industry') == lead + industry' + CompetitorSuffix;
    FrameInjective(lead, industry, industry', CompetitorSuffix);
  }

  /** For a fixed industry the question determines the company, and for a fixed company the industry. */
  lemma CompetitorQueryInjective(company: string, company': string, industry: string, industry': string)
    ensures CompetitorQuery(company, industry) == CompetitorQuery(company', industry) ==> company == company'
    ensures CompetitorQuery(company, industry) == CompetitorQuery(company, industry') ==> industry == industry'
  {
    if CompetitorQuery(company, industry) == CompetitorQuery(company', industry) {
      CompetitorCompanyDetermined(company, company', industry);
    }
    if CompetitorQuery(company, industry) == CompetitorQuery(company, industry') {
      CompetitorIndustryDetermined(company, industry, industry');
    }
  }

  /** A research helper's call: its question, with the defaults and its own system prompt. */
  method ResearchWith(client: Client, query: string, prompt: string, date: string)
    returns (r: Result<Option<string>>, request: CompletionRequest)
    ensures request == CompletionRequest(DefaultModel, BuildMessages(query, true, date, Some(prompt)), true)
    ensures request.messages[0].content == prompt
    ensures request.messages[1].content == "today is " + date + " + " + query
    ensures r == Ok(Some(StreamText(client.chat.stream(DefaultModel, request.messages))))
  {
    r, request := ResearchAndReason(client, query, DefaultModel, true, date, Some(prompt), true);
  }

  /** `research_market_trends`. */
  method ResearchMarketTrends(client: Client, topic: string, region: Option<string>, date: string)
    returns (r: Result<Option<string>>, request: CompletionRequest)
    ensures request == CompletionRequest(DefaultModel,
      BuildMessages(MarketTrendsQuery(topic, region), true, date, Some(MarketAnalystPrompt)), true)
    ensures r == Ok(Some(StreamText(client.chat.stream(DefaultModel, request.messages))))
  {
    var query := MarketTrendsPrefix + topic;
    ghost var head := query;
    if Truthy(region) {
      query := query + " in " + region.value;
      assert query == head + RegionClause(region);
    } else {
      assert query == head + RegionClause(region) by {
        assert RegionClause(region) == "";
      }
    }
    query := query + MarketTrendsSuffix;
    assert query == MarketTrendsQuery(topic, region);
    r, request := ResearchWith(client, query, MarketAnalystPrompt, date);
  }

  /** `research_demographics`. */
  method ResearchDemographics(client: Client, location: string, aspects: Option<seq<string>>, date: string)
    returns (r: Result<Option<string>>, request: CompletionRequest)
    ensures request == CompletionRequest(DefaultModel,
      BuildMessages(DemographicsQuery(location, aspects), true, date, Some(DemographerPrompt)), true)
    ensures r == Ok(Some(StreamText(client.chat.stream(DefaultModel, request.messages))))
  {
    var query := DemographicsPrefix + location;
    if aspects.Some? && |aspects.value| > 0 {
      query := query + AspectsLead + Join(aspects.value, ", ");
    }
    query := query + DemographicsSuffix;
    assert query == DemographicsQuery(location, aspects);
    r, request := ResearchWith(client, query, DemographerPrompt, date);
  }

  /** `research_competitor_analysis`. */
  method ResearchCompetitorAnalysis(client: Client, company: string, industry: string, date: string)
    returns (r: Result<Option<string>>, request: CompletionRequest)
    ensures request == CompletionRequest(DefaultModel,
      BuildMessages(CompetitorQuery(company, industry), true, date, Some(CompetitiveAnalystPrompt)), true)
    ensures r == Ok(Some(StreamText(client.chat.stream(DefaultModel, request.messages))))
  {
    var query := CompetitorPrefix + company + IndustryLead + industry + CompetitorSuffix;
    r, request := ResearchWith(client, query, CompetitiveAnalystPrompt, date);
  }
}
