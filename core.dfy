/**
 * The handler node closures of `core.py`'s `make_agents`: each looks up its
 * question, runs its agent once, writes the agent's result into the shared
 * assignments and reports the agent's logs as one line.
 */
module CoreNodes {
  import opened Wrappers
  import opened Assignments
  import opened Ports
  import CafeBotConfig
  import CafeBotAgent
  import DatabaseAgent

  /**
   * The `landscape_cafe_bot` node: the agent gets the command of the first
   * `landscape_cafe_bot` assignment (or `""`), its result goes into every
   * such assignment, the others are untouched, and the update is exactly
   * one log line rendering the agent's log list. The agent is built afresh
   * from the retriever and the chat model with its default prompt and `top_k`.
   */
  method CafeBotNode(entries: array<Assignment>, rag: Retriever, llm: Llm, now: string, show: Show)
    returns (logs: seq<string>)
    modifies entries
    ensures var bot := CafeBotConfig.NewCafeBot(rag, llm, None, None);
      var reply := CafeBotAgent.Process(bot, FirstCommand(old(entries[..]), CafeBotName), now);
      && entries[..] == WithResult(old(entries[..]), CafeBotName, reply.result)
      && logs == [show.strings(reply.logs)]
  {
    var question := FindFirstCommand(entries, CafeBotName);
    var bot := CafeBotConfig.NewCafeBot(rag, llm, None, None);
    var reply := CafeBotAgent.Process(bot, question, now);
    WriteResult(entries, CafeBotName, reply.result);
    logs := [show.strings(reply.logs)];
  }

  /**
   * The `coffee_db_agent` node: the same shape, with the command of the
   * first `coffee_db_agent` assignment and the database agent.
   */
  method DatabaseNode(entries: array<Assignment>, db: Database, llm: Llm, now: string, show: Show)
    returns (logs: seq<string>)
    modifies entries
    ensures var reply := DatabaseAgent.Process(db, llm, show, FirstCommand(old(entries[..]), DatabaseAgentName), now);
      && entries[..] == WithResult(old(entries[..]), DatabaseAgentName, reply.result)
      && logs == [show.strings(reply.logs)]
  {
    var command := FindFirstCommand(entries, DatabaseAgentName);
    var reply := DatabaseAgent.Process(db, llm, show, command, now);
    WriteResult(entries, DatabaseAgentName, reply.result);
    logs := [show.strings(reply.logs)];
  }
}

/**
 * `chat` of `core.py`: the guards, one workflow run over a copy of the
 * history, and then the turn appended to the CALLER's history in place.
 */
module CoreChat {
  import opened Wrappers
  import opened Text
  import opened Assignments
  import opened ChatTurn

  /** The reply when the workflow produced no final response. */
  const ThaiFallback := "ขออภัย ฉันไม่เข้าใจคำถาม กรุณาลองใหม่อีกครั้ง"

  /** `str(e)` of the `AttributeError` raised by `None.append(...)`. */
  const NoneAppendError := "'NoneType' object has no attribute 'append'"

  /** The initial state: the copied history, the `ALLOWED_AGENTS` keys, an empty assignment list. */
  function InitialState(message: string, chatHistory: seq<Message>): (state: ChatState)
    ensures state.userMessage == message && state.chatHistory == chatHistory
    ensures state.allowedAgents == RegisteredAgents
    ensures state.assignedAgents == AssignmentList([])
    ensures state.finalResponse == "" && state.logs == []
  {
    ChatState(message, chatHistory, RegisteredAgents, AssignmentList([]), "", [])
  }

  /** The reply of a successful run. */
  function BotReply(result: WorkflowResult): string {
    ReplyText(result.finalResponse, ThaiFallback)
  }

  /**
   * What `chat` returns, as written; `history` is `None` when the caller
   * passed none. A successful run then calls `history.append` on `None`,
   * which raises and is turned into the internal-error reply.
   */
  function Outcome(message: string, history: Option<seq<Message>>, apiKey: Option<string>, workflow: Workflow): ChatReply {
    var guard := Guard(message, history, apiKey);
    if guard.Some? then guard.value
    else
      var result := workflow(InitialState(message, HistoryOr(history)));
      if result.Failure? then ChatReply(HistoryOr(history), InternalError(result.error))
      else if history.None? then ChatReply([], InternalError(NoneAppendError))
      else ChatReply(WithTurn(history.value, message, BotReply(result.value)), LogsText(result.value.logs))
  }

  /** Whether `chat` appends the turn to the caller's list. */
  predicate Appends(message: string, history: Option<seq<Message>>, apiKey: Option<string>, workflow: Workflow) {
    && Guard(message, history, apiKey).None?
    && workflow(InitialState(message, HistoryOr(history))).Success?
    && history.Some?
  }

  /**
   * `chat(user_message, history, api_key)`. The caller's history is
   * appended to in place exactly when both guards pass, the run succeeds and
   * there is a history; the returned history is the capped copy of it.
   */
  method Chat(message: string, history: ChatHistory?, apiKey: Option<string>, workflow: Workflow)
    returns (reply: ChatReply)
    modifies history
    ensures var h := if history == null then None else Some(old(history.turns));
      reply == Outcome(message, h, apiKey, workflow)
    ensures history != null ==>
      var h := Some(old(history.turns));
      history.turns == if Appends(message, h, apiKey, workflow)
        then old(history.turns) + Turn(message, BotReply(workflow(InitialState(message, old(history.turns))).value))
        else old(history.turns)
  {
    var given := if history == null then None else Some(history.turns);
    var guard := Guard(message, given, apiKey);
    if guard.Some? {
      assert !Appends(message, given, apiKey, workflow);
      return guard.value;
    }
    var chatHistory := HistoryOr(given);
    var result := workflow(InitialState(message, chatHistory));
    if result.Failure? {
      assert !Appends(message, given, apiKey, workflow);
      return ChatReply(chatHistory, InternalError(result.error));
    }
    var botReply := BotReply(result.value);
    var logs := LogsText(result.value.logs);
    if history == null {
      return ChatReply([], InternalError(NoneAppendError));
    }
    assert Appends(message, given, apiKey, workflow);
    history.turns := history.turns + [Message("user", message)];
    history.turns := history.turns + [Message("assistant", botReply)];
    assert history.turns == chatHistory + Turn(message, botReply);
    reply := ChatReply(CapHistory(history.turns), logs);
    assert reply == Outcome(message, given, apiKey, workflow);
  }

  /**
   * A rejected key or a blank message answers with `history or []` and the
   * warning, whatever the workflow would have done: it is never run.
   */
  lemma GuardsSkipWorkflow(message: string, history: Option<seq<Message>>, apiKey: Option<string>, w1: Workflow, w2: Workflow)
    requires !KeyAccepted(apiKey) || Blank(message)
    ensures Outcome(message, history, apiKey, w1) == Outcome(message, history, apiKey, w2)
    ensures !KeyAccepted(apiKey) ==> Outcome(message, history, apiKey, w1) == ChatReply(HistoryOr(history), KeyWarning)
    ensures KeyAccepted(apiKey) ==> Outcome(message, history, apiKey, w1) == ChatReply(HistoryOr(history), BlankWarning)
  {
  }

  /** A failing run answers with `history or []` and at most 500 characters of the error. */
  lemma FailureKeepsHistory(message: string, history: Option<seq<Message>>, apiKey: Option<string>, workflow: Workflow)
    requires KeyAccepted(apiKey) && !Blank(message)
    requires workflow(InitialState(message, HistoryOr(history))).Failure?
    ensures var e := workflow(InitialState(message, HistoryOr(history))).error;
      Outcome(message, history, apiKey, workflow) == ChatReply(HistoryOr(history), InternalError(e))
  {
  }

  /**
   * A successful run with a history: the reply is the final response, or
   * the fallback when it is falsy; the history is the capped history with
   * the turn, so it ends with the user message and the reply and has at most
   * 20 messages; the logs are joined by line breaks.
   */
  lemma SuccessAppendsTurn(message: string, history: seq<Message>, apiKey: Option<string>, workflow: Workflow)
    requires KeyAccepted(apiKey) && !Blank(message)
    requires workflow(InitialState(message, history)).Success?
    ensures Outcome(message, Some(history), apiKey, workflow) ==
      ChatReply(WithTurn(history, message, BotReply(workflow(InitialState(message, history)).value)),
        LogsText(workflow(InitialState(message, history)).value.logs))
    ensures EndsWithTurn(Outcome(message, Some(history), apiKey, workflow).history, message,
      BotReply(workflow(InitialState(message, history)).value))
  {
    var result := workflow(InitialState(message, history)).value;
    assert Guard(message, Some(history), apiKey) == None;
    WithTurnEndsWithTurn(history, message, BotReply(result));
  }

  /**
   * As written, a caller that passes no history loses a successful answer:
   * the run completes, then the append on `None` fails and the user sees an
   * internal error and an empty history instead of the reply.
   */
  lemma NoHistoryLosesReply(message: string, apiKey: Option<string>, workflow: Workflow)
    requires KeyAccepted(apiKey) && !Blank(message)
    requires workflow(InitialState(message, [])).Success?
    ensures Outcome(message, None, apiKey, workflow) == ChatReply([], InternalError(NoneAppendError))
    ensures Outcome(message, None, apiKey, workflow).history == []
  {
  }

  /** The same turn as `chat` was evidently meant to take: the turn goes onto the copy `chat_history`. */
  function FixedOutcome(message: string, history: Option<seq<Message>>, apiKey: Option<string>, workflow: Workflow): ChatReply {
    var guard := Guard(message, history, apiKey);
    if guard.Some? then guard.value
    else
      var chatHistory := HistoryOr(history);
      var result := workflow(InitialState(message, chatHistory));
      if result.Failure? then ChatReply(HistoryOr(history), InternalError(result.error))
      else ChatReply(WithTurn(chatHistory, message, BotReply(result.value)), LogsText(result.value.logs))
  }

  /**
   * Appending to the copy, every successful run ends the returned history
   * with the turn, with or without a history from the caller, and agrees
   * with the code as written wherever that does not fail.
   */
  lemma FixedKeepsReply(message: string, history: Option<seq<Message>>, apiKey: Option<string>, workflow: Workflow)
    requires KeyAccepted(apiKey) && !Blank(message)
    requires workflow(InitialState(message, HistoryOr(history))).Success?
    ensures EndsWithTurn(FixedOutcome(message, history, apiKey, workflow).history, message,
      BotReply(workflow(InitialState(message, HistoryOr(history))).value))
    ensures history.Some? ==> FixedOutcome(message, history, apiKey, workflow) == Outcome(message, history, apiKey, workflow)
  {
    var result := workflow(InitialState(message, HistoryOr(history))).value;
    assert Guard(message, history, apiKey) == None;
    var reply := ChatReply(WithTurn(HistoryOr(history), message, BotReply(result)), LogsText(result.logs));
    assert FixedOutcome(message, history, apiKey, workflow) == reply;
    WithTurnEndsWithTurn(HistoryOr(history), message, BotReply(result));
    if history.Some? {
      assert Outcome(message, history, apiKey, workflow) == reply;
    }
  }
}
