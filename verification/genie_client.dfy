/**
 * The Genie client: start a conversation in a Genie space, poll the
 * message until it is COMPLETED or the deadline passes, then fetch the
 * query result of the first attachment.
 *
 * The Databricks workspace is an oracle: the reply to the start call, the
 * message as seen by the k-th poll, and the statement response of an
 * attachment. Time is counted in whole ticks (seconds); `get_message` and
 * the other calls take no time, so poll k is made at tick k * interval.
 */
module Genie {
  import opened Wrappers
  import opened PyStr

  /** What `start_conversation_and_wait` returns that the client uses. */
  datatype Started = Started(conversationId: string, messageId: string)

  datatype Attachment = Attachment(attachmentId: string)

  /** A polled message: `status.value` when a status is set, and the attachment list. */
  datatype GenieMessage = GenieMessage(status: Option<string>, attachments: Option<seq<Attachment>>)

  /** The dictionary `query_genie_space` returns. */
  datatype Reply =
    /** `statement_response.as_dict()` of the first attachment's query result. */
    | StatementResponse(fields: map<string, string>)
    /** `{"error": ...}`, returned rather than raised. */
    | SoftError(error: string)

  /** One call made on the workspace, or a sleep. */
  datatype Request =
    | StartConversation(spaceId: string, content: string)
    | GetMessage(spaceId: string, conversationId: string, messageId: string)
    | GetAttachmentResult(spaceId: string, conversationId: string, messageId: string, attachmentId: string)
    | Sleep(ticks: nat)

  /** The workspace's Genie API as seen by the client. */
  datatype Workspace = Workspace(
    startConversation: (string, string) -> Started,
    /** The message returned by the k-th `get_message` call (k from 0). */
    getMessage: (string, string, string, nat) -> GenieMessage,
    attachmentResult: (string, string, string, string) -> map<string, string>)

  const Completed := "COMPLETED"
  const NoAttachmentsError := "No attachments found in message."
  const StorePerformanceSpaceVar := "GENIE_SPACE_STORE_PERFORMANCE_ID"
  const ProductInventorySpaceVar := "GENIE_SPACE_PRODUCT_INV_ID"
  /** The defaults of `query_genie_space`: 60.0 and 2.0 seconds. */
  const DefaultTimeout := 60
  const DefaultPollInterval := 2

  /** A missing status is not COMPLETED. */
  predicate IsCompleted(m: GenieMessage) {
    m.status == Some(Completed)
  }

  /** `msg.attachments and len(msg.attachments) > 0`. */
  predicate HasAttachments(m: GenieMessage) {
    m.attachments.Some? && |m.attachments.value| > 0
  }

  /** Whether polling ends at the poll made at tick `elapsed`. */
  predicate StopsAt(m: GenieMessage, elapsed: int, timeout: int) {
    IsCompleted(m) || elapsed > timeout
  }

  /**
   * The number of polls made in all, given that `k` polls have been made
   * and none of them stopped the loop.
   */
  function PollsFrom(w: Workspace, space: string, conv: string, msg: string,
                     k: nat, timeout: int, interval: nat): (n: nat)
    requires interval > 0
    ensures n > k
    decreases if k * interval <= timeout then timeout - k * interval + 1 else 0
  {
    if StopsAt(w.getMessage(space, conv, msg, k), k * interval, timeout) then k + 1
    else
      assert (k + 1) * interval == k * interval + interval;
      PollsFrom(w, space, conv, msg, k + 1, timeout, interval)
  }

  /** `n` polls on one message, with a sleep of `interval` between consecutive polls. */
  function PollTrace(space: string, conv: string, msg: string, n: nat, interval: nat): seq<Request>
    decreases n
  {
    if n == 0 then []
    else if n == 1 then [GetMessage(space, conv, msg)]
    else PollTrace(space, conv, msg, n - 1, interval) + [Sleep(interval), GetMessage(space, conv, msg)]
  }

  /**
   * `query_genie_space(space, query, timeout, interval)`: the result or
   * the exception, the calls made, and the number of polls.
   */
  function Outcome(w: Workspace, space: string, query: string, timeout: int, interval: nat)
    : (Result<Reply>, seq<Request>, nat)
    requires interval > 0
  {
    var st := w.startConversation(space, query);
    var n := PollsFrom(w, space, st.conversationId, st.messageId, 0, timeout, interval);
    var last := w.getMessage(space, st.conversationId, st.messageId, n - 1);
    var polling := [StartConversation(space, query)] + PollTrace(space, st.conversationId, st.messageId, n, interval);
    if IsCompleted(last) then
      if HasAttachments(last) then
        var att := last.attachments.value[0].attachmentId;
        (Ok(StatementResponse(w.attachmentResult(space, st.conversationId, st.messageId, att))),
         polling + [GetAttachmentResult(space, st.conversationId, st.messageId, att)], n)
      else
        (Ok(SoftError(NoAttachmentsError)), polling, n)
    else
      (Err(TimeoutError(timeout)), polling, n)
  }

  /**
   * Polling stops at the first poll that sees COMPLETED or is made after
   * the deadline: every earlier poll saw another status and was made no
   * later than `timeout`.
   */
  lemma {:induction false} PollsFromStops(w: Workspace, space: string, conv: string, msg: string,
                                         k: nat, timeout: int, interval: nat)
    requires interval > 0
    ensures var n := PollsFrom(w, space, conv, msg, k, timeout, interval);
      && StopsAt(w.getMessage(space, conv, msg, n - 1), (n - 1) * interval, timeout)
      && forall j :: k <= j < n - 1 ==>
           !IsCompleted(w.getMessage(space, conv, msg, j)) && j * interval <= timeout
    decreases if k * interval <= timeout then timeout - k * interval + 1 else 0
  {
    if !StopsAt(w.getMessage(space, conv, msg, k), k * interval, timeout) {
      assert (k + 1) * interval == k * interval + interval;
      PollsFromStops(w, space, conv, msg, k + 1, timeout, interval);
    }
  }

  /** The stopping poll is unique: any count with the stopping property is `PollsFrom`'s. */
  lemma PollCountUnique(w: Workspace, space: string, conv: string, msg: string,
                        timeout: int, interval: nat, n: nat)
    requires interval > 0 && n >= 1
    requires StopsAt(w.getMessage(space, conv, msg, n - 1), (n - 1) * interval, timeout)
    requires forall j :: 0 <= j < n - 1 ==> !StopsAt(w.getMessage(space, conv, msg, j), j * interval, timeout)
    ensures n == PollsFrom(w, space, conv, msg, 0, timeout, interval)
  {
    var m := PollsFrom(w, space, conv, msg, 0, timeout, interval);
    PollsFromStops(w, space, conv, msg, 0, timeout, interval);
  }

  /**
   * The calls made: one start, then `n` polls of the same conversation
   * and message, a sleep of the poll interval between each two, and one
   * result fetch for the first attachment only when the last poll saw
   * COMPLETED with attachments.
   */
  lemma {:induction false} PollTraceShape(space: string, conv: string, msg: string, n: nat, interval: nat)
    requires n >= 1
    ensures |PollTrace(space, conv, msg, n, interval)| == 2 * n - 1
    ensures forall i :: 0 <= i < 2 * n - 1 ==>
      PollTrace(space, conv, msg, n, interval)[i]
        == if i % 2 == 0 then GetMessage(space, conv, msg) else Sleep(interval)
    decreases n
  {
    if n > 1 {
      PollTraceShape(space, conv, msg, n - 1, interval);
    }
  }

  /**
   * The four outcomes. A COMPLETED poll wins even when it is made after
   * the deadline (completion is tested first); with attachments the
   * result is the first attachment's, without them the soft error; a
   * TimeoutError is raised only by a poll made strictly after `timeout`
   * that did not see COMPLETED, and nothing follows it.
   */
  lemma OutcomeCases(w: Workspace, space: string, query: string, timeout: int, interval: nat)
    requires interval > 0
    ensures var (r, trace, n) := Outcome(w, space, query, timeout, interval);
      var st := w.startConversation(space, query);
      var last := w.getMessage(space, st.conversationId, st.messageId, n - 1);
      && n >= 1
      && trace[0] == StartConversation(space, query)
      && (forall j :: 0 <= j < n - 1 ==>
            !IsCompleted(w.getMessage(space, st.conversationId, st.messageId, j)) && j * interval <= timeout)
      && (IsCompleted(last) && HasAttachments(last) ==>
            r == Ok(StatementResponse(w.attachmentResult(space, st.conversationId, st.messageId,
                                                          last.attachments.value[0].attachmentId))))
      && (IsCompleted(last) && !HasAttachments(last) ==> r == Ok(SoftError(NoAttachmentsError)))
      && (r.Err? <==> !IsCompleted(last))
      && (r.Err? ==> r.error == TimeoutError(timeout) && (n - 1) * interval > timeout
                     && trace[|trace| - 1] == GetMessage(space, st.conversationId, st.messageId))
  {
    var st := w.startConversation(space, query);
    var n := PollsFrom(w, space, st.conversationId, st.messageId, 0, timeout, interval);
    PollsFromStops(w, space, st.conversationId, st.messageId, 0, timeout, interval);
    PollTraceShape(space, st.conversationId, st.messageId, n, interval);
  }

  /** `a * c < b * c` with `c > 0` gives `a < b`. */
  lemma MulCancel(a: int, b: int, c: int)
    requires c > 0 && a * c < b * c
    ensures a < b
  {
    assert b * c - a * c == (b - a) * c;
  }

  /**
   * A message that never completes is polled `timeout / interval + 2`
   * times before the TimeoutError (32 times with the defaults), and once
   * when the timeout is negative.
   */
  lemma TimeoutPollCount(w: Workspace, space: string, query: string, timeout: int, interval: nat)
    requires interval > 0
    requires Outcome(w, space, query, timeout, interval).0.Err?
    ensures timeout >= 0 ==> Outcome(w, space, query, timeout, interval).2 == timeout / interval + 2
    ensures timeout < 0 ==> Outcome(w, space, query, timeout, interval).2 == 1
  {
    OutcomeCases(w, space, query, timeout, interval);
    var n := Outcome(w, space, query, timeout, interval).2;
    var st := w.startConversation(space, query);
    if timeout >= 0 {
      var q := timeout / interval;
      assert q * interval <= timeout < (q + 1) * interval;
      MulCancel(q, n - 1, interval);
      assert n >= 2 by { assert 0 * interval == 0; }
      assert (n - 2) * interval <= timeout;
      MulCancel(n - 2, q + 1, interval);
    } else {
      assert 0 * interval == 0;
    }
  }

  /** With the defaults, a query whose message never completes makes 32 polls. */
  lemma DefaultTimeoutPolls(w: Workspace, space: string, query: string)
    requires Outcome(w, space, query, DefaultTimeout, DefaultPollInterval).0.Err?
    ensures Outcome(w, space, query, DefaultTimeout, DefaultPollInterval).2 == 32
  {
    TimeoutPollCount(w, space, query, DefaultTimeout, DefaultPollInterval);
  }

  /**
   * `query_store_performance` / `query_product_inventory`: the space id
   * is read from `varName`; unset or empty raises ValueError before any
   * call, otherwise the query goes to that space with the defaults.
   */
  function DomainOutcome(w: Workspace, env: map<string, string>, varName: string, query: string)
    : (Result<Reply>, seq<Request>, nat)
  {
    var spaceId := Getenv(env, varName);
    if !Truthy(spaceId) then (Err(ValueError(varName + " environment variable is not set")), [], 0)
    else Outcome(w, spaceId.value, query, DefaultTimeout, DefaultPollInterval)
  }

  /**
   * The guard: the ValueError is raised exactly when the variable is unset
   * or empty, and exactly then no call reaches the workspace.
   */
  lemma DomainGuard(w: Workspace, env: map<string, string>, varName: string, query: string)
    ensures var (r, trace, _) := DomainOutcome(w, env, varName, query);
      && (r == Err(ValueError(varName + " environment variable is not set")) <==> !Truthy(Getenv(env, varName)))
      && (trace == [] <==> !Truthy(Getenv(env, varName)))
      && (Truthy(Getenv(env, varName)) ==> trace[0] == StartConversation(env[varName], query))
  {
    if Truthy(Getenv(env, varName)) {
      OutcomeCases(w, env[varName], query, DefaultTimeout, DefaultPollInterval);
    }
  }

  /** `GenieClient`, holding its workspace client. */
  class GenieClient {
    const w: Workspace

    /** `GenieClient(workspace_client)` with a client supplied. */
    constructor (w: Workspace)
      ensures this.w == w
    {
      this.w := w;
    }

    /** `query_genie_space`: the start call, then the poll loop. */
    method QueryGenieSpace(spaceId: string, userQuery: string, timeout: int, pollInterval: nat)
      returns (r: Result<Reply>, trace: seq<Request>, polls: nat)
      requires pollInterval > 0
      ensures (r, trace, polls) == Outcome(w, spaceId, userQuery, timeout, pollInterval)
    {
      var message := w.startConversation(spaceId, userQuery);
      var conversationId := message.conversationId;
      var messageId := message.messageId;
      trace := [StartConversation(spaceId, userQuery)];
      ghost var total := PollsFrom(w, spaceId, conversationId, messageId, 0, timeout, pollInterval);
      var elapsed := 0;
      polls := 0;
      while true
        invariant elapsed == polls * pollInterval
        invariant polls > 0 ==> elapsed - pollInterval <= timeout
        invariant PollsFrom(w, spaceId, conversationId, messageId, polls, timeout, pollInterval) == total
        invariant trace == [StartConversation(spaceId, userQuery)]
          + PollTrace(spaceId, conversationId, messageId, polls, pollInterval)
          + (if polls > 0 then [Sleep(pollInterval)] else [])
        decreases timeout - elapsed + pollInterval
      {
        var msg := w.getMessage(spaceId, conversationId, messageId, polls);
        trace := trace + [GetMessage(spaceId, conversationId, messageId)];
        var status := msg.status;
        if status == Some(Completed) {
          polls := polls + 1;
          assert total == polls;
          assert trace == [StartConversation(spaceId, userQuery)]
            + PollTrace(spaceId, conversationId, messageId, polls, pollInterval);
          if msg.attachments.Some? && |msg.attachments.value| > 0 {
            var attachmentId := msg.attachments.value[0].attachmentId;
            var result := w.attachmentResult(spaceId, conversationId, messageId, attachmentId);
            trace := trace + [GetAttachmentResult(spaceId, conversationId, messageId, attachmentId)];
            return Ok(StatementResponse(result)), trace, polls;
          } else {
            return Ok(SoftError(NoAttachmentsError)), trace, polls;
          }
        }
        if elapsed > timeout {
          polls := polls + 1;
          assert total == polls;
          assert !IsCompleted(w.getMessage(spaceId, conversationId, messageId, polls - 1));
          assert trace == [StartConversation(spaceId, userQuery)]
            + PollTrace(spaceId, conversationId, messageId, polls, pollInterval);
          return Err(TimeoutError(timeout)), trace, polls;
        }
        trace := trace + [Sleep(pollInterval)];
        polls := polls + 1;
        elapsed := elapsed + pollInterval;
      }
    }

    /** `query_store_performance`. */
    method QueryStorePerformance(env: map<string, string>, userQuery: string)
      returns (r: Result<Reply>, trace: seq<Request>, polls: nat)
      ensures (r, trace, polls) == DomainOutcome(w, env, StorePerformanceSpaceVar, userQuery)
    {
      var spaceId := Getenv(env, StorePerformanceSpaceVar);
      if !Truthy(spaceId) {
        return Err(ValueError(StorePerformanceSpaceVar + " environment variable is not set")), [], 0;
      }
      r, trace, polls := QueryGenieSpace(spaceId.value, userQuery, DefaultTimeout, DefaultPollInterval);
    }

    /** `query_product_inventory`. */
    method QueryProductInventory(env: map<string, string>, userQuery: string)
      returns (r: Result<Reply>, trace: seq<Request>, polls: nat)
      ensures (r, trace, polls) == DomainOutcome(w, env, ProductInventorySpaceVar, userQuery)
    {
      var spaceId := Getenv(env, ProductInventorySpaceVar);
      if !Truthy(spaceId) {
        return Err(ValueError(ProductInventorySpaceVar + " environment variable is not set")), [], 0;
      }
      r, trace, polls := QueryGenieSpace(spaceId.value, userQuery, DefaultTimeout, DefaultPollInterval);
    }
  }
}
