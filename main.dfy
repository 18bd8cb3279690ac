/**
 * `chat` of `main.py`: the same guards as `core.py`, a workflow state whose
 * `assigned_agents` is an `AssignmentResponse` dict, and the turn appended
 * to a COPY of the history, so the caller's list is never changed.
 */
module MainChat {
  import opened Wrappers
  import opened Text
  import opened Assignments
  import opened ChatTurn

  /** The reply when the workflow produced no final response. */
  const EnglishFallback := "Sorry, I did not understand your question. Please try again."

  /** The keys of `AGENT_REGISTRY`, in their order. */
  const RegistryAgents: seq<string> := ["intake_agent", CafeBotName, DatabaseAgentName, "aggregator_agent"]

  /**
   * The initial state: the copied history, the registry's names,
   * `{"assignments": []}`, an empty final response and no logs.
   */
  function InitialState(message: string, chatHistory: seq<Message>): (state: ChatState)
    ensures state.userMessage == message && state.chatHistory == chatHistory
    ensures state.allowedAgents == RegistryAgents
    ensures state.assignedAgents == AssignmentResponse([])
    ensures state.finalResponse == "" && state.logs == []
  {
    ChatState(message, chatHistory, RegistryAgents, AssignmentResponse([]), "", [])
  }

  /** The reply of a successful run. */
  function BotReply(result: WorkflowResult): string {
    ReplyText(result.finalResponse, EnglishFallback)
  }

  /** What `chat` returns; `history` is `None` when the caller passed none. */
  function Outcome(message: string, history: Option<seq<Message>>, apiKey: Option<string>, workflow: Workflow): ChatReply {
    var guard := Guard(message, history, apiKey);
    if guard.Some? then guard.value
    else
      var chatHistory := HistoryOr(history);
      var result := workflow(InitialState(message, chatHistory));
      if result.Failure? then ChatReply(HistoryOr(history), InternalError(result.error))
      else ChatReply(WithTurn(chatHistory, message, BotReply(result.value)), LogsText(result.value.logs))
  }

  /**
   * `chat(user_message, history, api_key)`. It modifies nothing: the turn is
   * appended to the copy `chat_history`, which is then capped and returned.
   */
  method Chat(message: string, history: ChatHistory?, apiKey: Option<string>, workflow: Workflow)
    returns (reply: ChatReply)
    ensures reply == Outcome(message, if history == null then None else Some(history.turns), apiKey, workflow)
  {
    var given := if history == null then None else Some(history.turns);
    var guard := Guard(message, given, apiKey);
    if guard.Some? {
      return guard.value;
    }
    var chatHistory := HistoryOr(given);
    var result := workflow(InitialState(message, chatHistory));
    if result.Failure? {
      return ChatReply(HistoryOr(given), InternalError(result.error));
    }
    var botReply := BotReply(result.value);
    var logs := LogsText(result.value.logs);
    var copy := chatHistory + [Message("user", message)];
    copy := copy + [Message("assistant", botReply)];
    assert copy == chatHistory + Turn(message, botReply);
    reply := ChatReply(CapHistory(copy), logs);
  }

  /**
   * A rejected key or a blank message answers with `history or []` and the
   * warning, whatever the workflow would have done: it is never run.
   */
  lemma GuardsSkipWorkflow(message: string, history: Option<seq<Message>>, apiKey: Option<string>, w1: Workflow, w2: Workflow)
    requires !KeyAccepted(apiKey) || Blank(message)
    ensures Outcome(message, history, apiKey, w1) == Outcome(message, history, apiKey, w2)
    ensures !KeyAccepted(apiKey) ==> Outcome(message, history, apiKey, w1) == ChatReply(HistoryOr(history), KeyWarning)
    ensures KeyAccepted(apiKey) ==> Outcome(message, history, apiKey, w1) == ChatReply(HistoryOr(history), BlankWarning)
  {
  }

  /** A failing run answers with `history or []` and at most 500 characters of the error. */
  lemma FailureKeepsHistory(message: string, history: Option<seq<Message>>, apiKey: Option<string>, workflow: Workflow)
    requires KeyAccepted(apiKey) && !Blank(message)
    requires workflow(InitialState(message, HistoryOr(history))).Failure?
    ensures var e := workflow(InitialState(message, HistoryOr(history))).error;
      Outcome(message, history, apiKey, workflow) == ChatReply(HistoryOr(history), InternalError(e))
  {
  }

  /** A successful run answers with the turn added to the copied history, and the run's logs. */
  lemma SuccessOutcome(message: string, history: Option<seq<Message>>, apiKey: Option<string>, workflow: Workflow)
    requires KeyAccepted(apiKey) && !Blank(message)
    requires workflow(InitialState(message, HistoryOr(history))).Success?
    ensures var result := workflow(InitialState(message, HistoryOr(history))).value;
      Outcome(message, history, apiKey, workflow) ==
        ChatReply(WithTurn(HistoryOr(history), message, BotReply(result)), LogsText(result.logs))
  {
    assert Guard(message, history, apiKey) == None;
  }

  /**
   * A successful run, with or without a history from the caller: the
   * history ends with the user message and then the reply (the final
   * response, or the fallback when it is falsy, by `ReplyText`), keeps at
   * most 20 messages, and the logs are the run's logs joined by line breaks.
   */
  lemma SuccessAppendsTurn(message: string, history: Option<seq<Message>>, apiKey: Option<string>, workflow: Workflow)
    requires KeyAccepted(apiKey) && !Blank(message)
    requires workflow(InitialState(message, HistoryOr(history))).Success?
    ensures Outcome(message, history, apiKey, workflow).logs ==
      Join(workflow(InitialState(message, HistoryOr(history))).value.logs, "\n")
    ensures EndsWithTurn(Outcome(message, history, apiKey, workflow).history, message,
      BotReply(workflow(InitialState(message, HistoryOr(history))).value))
  {
    var hist := HistoryOr(history);
    var result := workflow(InitialState(message, hist)).value;
    SuccessOutcome(message, history, apiKey, workflow);
    WithTurnEndsWithTurn(hist, message, BotReply(result));
  }

  /** A successful run on a history with room for the turn drops nothing: the turn is simply appended. */
  lemma SuccessKeepsShortHistory(message: string, history: Option<seq<Message>>, apiKey: Option<string>, workflow: Workflow)
    requires KeyAccepted(apiKey) && !Blank(message)
    requires workflow(InitialState(message, HistoryOr(history))).Success?
    requires |HistoryOr(history)| + 2 <= MaxHistory
    ensures var result := workflow(InitialState(message, HistoryOr(history))).value;
      Outcome(message, history, apiKey, workflow).history == HistoryOr(history) + Turn(message, BotReply(result))
  {
    var hist := HistoryOr(history);
    var result := workflow(InitialState(message, hist)).value;
    SuccessOutcome(message, history, apiKey, workflow);
    WithTurnKeepsAll(hist, message, BotReply(result));
  }
}
