/**
 * The bookkeeping of one chat turn shared by both `chat` entry points
 * (`core.py` and `main.py`): the guards, the reply fallback, the logs text,
 * the error text and the 20-message history cap.
 */
module ChatTurn {
  import opened Wrappers
  import opened Text
  import opened Assignments

  /** The number of messages a history keeps. */
  const MaxHistory := 20

  /** The number of characters of an exception message shown to the user. */
  const MaxErrorLength := 500

  const KeyWarning := "⚠️ Please enter a valid Gemini API Key."
  const BlankWarning := "⚠️ Please fill in the message."
  const InternalErrorPrefix := "❌ Internal error: "

  /** The UI's chat history, a list the caller owns and `core.py` appends to in place. */
  class ChatHistory {
    var turns: seq<Message>

    constructor (turns: seq<Message>)
      ensures this.turns == turns
    {
      this.turns := turns;
    }
  }

  /** What `chat` returns: the history to show and the logs text box. */
  datatype ChatReply = ChatReply(history: seq<Message>, logs: string)

  /** The `assigned_agents` of the initial state: a bare list, or an `AssignmentResponse` dict. */
  datatype AssignedAgents = AssignmentList(list: seq<Assignment>) | AssignmentResponse(assignments: seq<Assignment>)

  /** The state handed to the workflow. */
  datatype ChatState = ChatState(
    userMessage: string,
    chatHistory: seq<Message>,
    allowedAgents: seq<string>,
    assignedAgents: AssignedAgents,
    finalResponse: string,
    logs: seq<string>)

  /** The two keys `chat` reads from the final state: `final_response` (`None` when missing) and `logs`. */
  datatype WorkflowResult = WorkflowResult(finalResponse: Option<string>, logs: seq<string>)

  /** `workflow.invoke(state)`: the composed graph run, or the text of the exception it raised. */
  type Workflow = ChatState -> Result<WorkflowResult, string>

  /** `api_key` passes the guard: present and starting with `"AI"` (so not empty). */
  predicate KeyAccepted(apiKey: Option<string>) {
    apiKey.Some? && StartsWith(apiKey.value, "AI")
  }

  /** `user_message.strip()` is falsy. */
  predicate Blank(message: string) {
    Strip(message) == ""
  }

  /** `history or []`, with `None` for a missing history. */
  function HistoryOr(history: Option<seq<Message>>): seq<Message> {
    history.GetOr([])
  }

  /**
   * `f"❌ Internal error: {str(e)[:500]}"`: the prefix, then the first 500
   * characters of the exception text.
   */
  function InternalError(error: string): (m: string)
    ensures StartsWith(m, InternalErrorPrefix)
    ensures |m| <= |InternalErrorPrefix| + MaxErrorLength
    ensures |error| <= MaxErrorLength ==> m == InternalErrorPrefix + error
    ensures m[|InternalErrorPrefix|..] <= error
    ensures |error| > MaxErrorLength ==> m == InternalErrorPrefix + error[..MaxErrorLength]
  {
    InternalErrorPrefix + Take(error, MaxErrorLength)
  }

  /** `final_response or fallback`: the final response when truthy, else the fallback. */
  function ReplyText(finalResponse: Option<string>, fallback: string): (reply: string)
    ensures Truthy(finalResponse) ==> reply == finalResponse.value
    ensures !Truthy(finalResponse) ==> reply == fallback
    ensures fallback != "" ==> reply != ""
  {
    if finalResponse.Some? && finalResponse.value != "" then finalResponse.value else fallback
  }

  /** `"\n".join(logs)`. */
  function LogsText(logs: seq<string>): string {
    Join(logs, "\n")
  }

  /** `history[-20:]`: the latest 20 messages, in order, or all of them when there are fewer. */
  function CapHistory(h: seq<Message>): (r: seq<Message>)
    ensures |r| == if |h| <= MaxHistory then |h| else MaxHistory
    ensures r == h[|h| - |r|..]
  {
    if |h| <= MaxHistory then h else h[|h| - MaxHistory..]
  }

  /** The two messages a completed turn adds: the user's, then the assistant's. */
  function Turn(userMessage: string, reply: string): seq<Message> {
    [Message("user", userMessage), Message("assistant", reply)]
  }

  /** The history after a completed turn: the turn appended, then the cap applied. */
  function WithTurn(h: seq<Message>, userMessage: string, reply: string): seq<Message> {
    CapHistory(h + Turn(userMessage, reply))
  }

  /** A history of at most 20 messages whose last two are the user message and then the reply. */
  predicate EndsWithTurn(r: seq<Message>, userMessage: string, reply: string) {
    && 2 <= |r| <= MaxHistory
    && r[|r| - 2] == Message("user", userMessage)
    && r[|r| - 1] == Message("assistant", reply)
  }

  /**
   * A completed turn always ends the history with the user message and then
   * the reply, and never leaves more than 20 messages.
   */
  lemma WithTurnEndsWithTurn(h: seq<Message>, userMessage: string, reply: string)
    ensures EndsWithTurn(WithTurn(h, userMessage, reply), userMessage, reply)
  {
    var full := h + Turn(userMessage, reply);
    var r := WithTurn(h, userMessage, reply);
    assert r == full[|full| - |r|..];
    assert r[|r| - 1] == full[|full| - 1];
    assert r[|r| - 2] == full[|full| - 2];
  }

  /** Past the cap only the oldest messages are dropped: the rest of the old history comes first, in order. */
  lemma WithTurnDropsOldest(h: seq<Message>, userMessage: string, reply: string)
    requires |h| + 2 > MaxHistory
    ensures WithTurn(h, userMessage, reply)[..MaxHistory - 2] == h[|h| + 2 - MaxHistory..]
  {
    var r := WithTurn(h, userMessage, reply);
    var full := h + Turn(userMessage, reply);
    assert r == full[|full| - MaxHistory..];
    assert forall k :: 0 <= k < MaxHistory - 2 ==> r[k] == h[|h| + 2 - MaxHistory + k];
  }

  /** While there is room nothing is dropped. */
  lemma WithTurnKeepsAll(h: seq<Message>, userMessage: string, reply: string)
    requires |h| + 2 <= MaxHistory
    ensures WithTurn(h, userMessage, reply) == h + Turn(userMessage, reply)
  {
  }

  /** Capping an already capped history changes nothing. */
  lemma CapHistoryIdempotent(h: seq<Message>)
    ensures CapHistory(CapHistory(h)) == CapHistory(h)
  {
  }

  /**
   * The two guards, in order: a rejected key, then a blank message. Either
   * answers with `history or []` and its warning; `None` means both passed.
   */
  function Guard(message: string, history: Option<seq<Message>>, apiKey: Option<string>): Option<ChatReply> {
    if !KeyAccepted(apiKey) then Some(ChatReply(HistoryOr(history), KeyWarning))
    else if Blank(message) then Some(ChatReply(HistoryOr(history), BlankWarning))
    else None
  }

  /**
   * The workflow runs exactly when the key is accepted and the message is
   * not blank; otherwise the reply is `history or []` with the warning of the
   * first guard that failed.
   */
  lemma GuardSpec(message: string, history: Option<seq<Message>>, apiKey: Option<string>)
    ensures Guard(message, history, apiKey).None? <==> KeyAccepted(apiKey) && !Blank(message)
    ensures Guard(message, history, apiKey).Some? ==> Guard(message, history, apiKey).value.history == HistoryOr(history)
    ensures !KeyAccepted(apiKey) ==> Guard(message, history, apiKey) == Some(ChatReply(HistoryOr(history), KeyWarning))
    ensures KeyAccepted(apiKey) && Blank(message) ==> Guard(message, history, apiKey) == Some(ChatReply(HistoryOr(history), BlankWarning))
  {
  }
}
