/**
 * The shared conversation state of one session (`SharedAgentContext`):
 * an append-only log of role-tagged entries, last-writer-wins labels for
 * the active agent and tool, four scratch fields nothing writes, and the
 * renderer that turns the log into text for the model.
 */
module SharedContext {
  import opened Wrappers
  import opened PyStr

  /** One `{"role": ..., "content": ...}` dictionary of the log. */
  datatype Entry = Entry(role: string, content: string)

  /** The whole context as a value: the fields of `SharedAgentContext`. */
  datatype ContextState = ContextState(
    storeLocation: Option<string>,
    storeId: Option<string>,
    demographicData: Option<map<string, string>>,
    stateCode: Option<string>,
    currentAgent: Option<string>,
    currentTool: Option<string>,
    history: seq<Entry>)

  /** `SharedAgentContext()`: every optional field unset, empty history. */
  const Fresh := ContextState(None, None, None, None, None, None, [])

  /** The state after `add_message(role, content)`. */
  function WithMessage(s: ContextState, role: string, content: string): ContextState {
    s.(history := s.history + [Entry(role, content)])
  }

  /** The state after `add_message` for each entry of `calls`, in order. */
  function WithMessages(s: ContextState, calls: seq<Entry>): ContextState
    decreases |calls|
  {
    if calls == [] then s
    else WithMessages(WithMessage(s, calls[0].role, calls[0].content), calls[1..])
  }

  /**
   * Successive `add_message` calls append exactly their entries, in call
   * order, after the existing ones and change no other field.
   */
  lemma {:induction false} WithMessagesAppends(s: ContextState, calls: seq<Entry>)
    ensures WithMessages(s, calls).history == s.history + calls
    ensures WithMessages(s, calls).(history := s.history) == s
    decreases |calls|
  {
    if calls != [] {
      var s' := WithMessage(s, calls[0].role, calls[0].content);
      WithMessagesAppends(s', calls[1..]);
      assert s.history + calls == s'.history + calls[1..];
    }
  }

  /** From a fresh context, n calls leave exactly n entries, the i-th from the i-th call. */
  lemma FreshWithMessages(calls: seq<Entry>)
    ensures |WithMessages(Fresh, calls).history| == |calls|
    ensures forall i :: 0 <= i < |calls| ==> WithMessages(Fresh, calls).history[i] == calls[i]
  {
    WithMessagesAppends(Fresh, calls);
  }

  /** The text `get_formatted_history` returns for an empty history. */
  const NoHistory := "No conversation history available."

  /** One entry rendered as `f"{role}: {content}"`. */
  function Render(e: Entry): string {
    e.role + ": " + e.content
  }

  /** The rendering of every entry, in log order. */
  function RenderAll(h: seq<Entry>): (r: seq<string>)
    ensures |r| == |h|
    ensures forall i :: 0 <= i < |h| ==> r[i] == Render(h[i])
  {
    if h == [] then [] else RenderAll(h[..|h| - 1]) + [Render(h[|h| - 1])]
  }

  /** `get_formatted_history()` of a log. */
  function Format(h: seq<Entry>): string {
    if h == [] then NoHistory else Join(RenderAll(h), "\n\n")
  }

  /** A rendered entry contains the `": "` separator. */
  lemma RenderHasColon(e: Entry)
    ensures Render(e)[|e.role|] == ':'
  {
  }

  /** The joined rendering of a non-empty log starts with its first entry's rendering. */
  lemma {:induction false} JoinStartsWithFirst(h: seq<Entry>)
    requires h != []
    ensures |Render(h[0])| <= |Join(RenderAll(h), "\n\n")|
    ensures Join(RenderAll(h), "\n\n")[..|Render(h[0])|] == Render(h[0])
    decreases |h|
  {
    if |h| > 1 {
      var init := h[..|h| - 1];
      JoinStartsWithFirst(init);
      assert init[0] == h[0];
      assert RenderAll(h)[..|h| - 1] == RenderAll(init);
    }
  }

  /**
   * The sentinel is returned exactly for the empty log: a non-empty log's
   * text starts with a rendered entry, which has a colon where the
   * sentinel has none. In particular the result is never the empty string.
   */
  lemma FormatSentinelIffEmpty(h: seq<Entry>)
    ensures Format(h) == NoHistory <==> h == []
    ensures Format(h) != ""
  {
    if h != [] {
      JoinStartsWithFirst(h);
      RenderHasColon(h[0]);
      var k := |h[0].role|;
      assert Format(h)[k] == ':';
      assert forall i :: 0 <= i < |NoHistory| ==> NoHistory[i] != ':';
    }
  }

  /** A one-entry log is rendered as `role: content` and nothing else. */
  lemma FormatSingle(e: Entry)
    ensures Format([e]) == e.role + ": " + e.content
  {
  }

  /**
   * Appending an entry to a non-empty log appends a blank line and that
   * entry's rendering to the text: earlier text is kept, in order.
   */
  lemma FormatAppend(h: seq<Entry>, e: Entry)
    requires h != []
    ensures Format(h + [e]) == Format(h) + "\n\n" + e.role + ": " + e.content
  {
    assert (h + [e])[..|h|] == h;
  }

  /** The text of a log ends with the rendering of its last entry. */
  lemma FormatEndsWithLast(h: seq<Entry>, e: Entry)
    ensures EndsWith(Format(h + [e]), e.role + ": " + e.content)
  {
    if h == [] {
      assert h + [e] == [e];
    } else {
      FormatAppend(h, e);
    }
  }

  /** The in-place object: `SharedAgentContext`. */
  class SharedAgentContext {
    var storeLocation: Option<string>
    var storeId: Option<string>
    var demographicData: Option<map<string, string>>
    var stateCode: Option<string>
    var currentAgent: Option<string>
    var currentTool: Option<string>
    var conversationHistory: seq<Entry>

    /** The current field values as one value. */
    function State(): ContextState
      reads this
    {
      ContextState(storeLocation, storeId, demographicData, stateCode,
                   currentAgent, currentTool, conversationHistory)
    }

    /** `SharedAgentContext()` with `__post_init__` supplying the empty list. */
    constructor ()
      ensures State() == Fresh
    {
      storeLocation, storeId, demographicData, stateCode := None, None, None, None;
      currentAgent, currentTool := None, None;
      conversationHistory := [];
    }

    /** `add_message`: one entry at the end, no other field touched. */
    method AddMessage(role: string, content: string)
      modifies this`conversationHistory
      ensures conversationHistory == old(conversationHistory) + [Entry(role, content)]
      ensures State() == WithMessage(old(State()), role, content)
    {
      conversationHistory := conversationHistory + [Entry(role, content)];
    }

    /** `get_formatted_history`: renders each entry in a loop, then joins. */
    method GetFormattedHistory() returns (text: string)
      ensures text == Format(conversationHistory)
    {
      if conversationHistory == [] {
        return NoHistory;
      }
      var formatted: seq<string> := [];
      var i := 0;
      while i < |conversationHistory|
        invariant 0 <= i <= |conversationHistory|
        invariant formatted == RenderAll(conversationHistory[..i])
      {
        var msg := conversationHistory[i];
        assert conversationHistory[..i + 1][..i] == conversationHistory[..i];
        formatted := formatted + [msg.role + ": " + msg.content];
        i := i + 1;
      }
      assert conversationHistory[..i] == conversationHistory;
      text := Join(formatted, "\n\n");
    }
  }
}
