/**
 * The knowledge agent `LanscapeCafeBot`, shared by both of its versions:
 * its configuration (retriever, chat model, `top_k`, system prompt) and the
 * two-message prompt it sends to the chat model.
 */
module CafeBotConfig {
  import opened Wrappers
  import opened Assignments
  import opened Ports

  /** The number of passages retrieved when none is configured. */
  const DefaultTopK := 8

  /** The system prompt used when none, or an empty one, is configured. */
  const DefaultSystemPrompt := "You are a helpful product support AI.\n"
    + "- Answer user questions only using the reference context provided.\n"
    + "- If the answer is not in the context, tell user that you do not have enough information.\n"
    + "- Respond with clear and polite language. You may use emojis to enhance your response.\n"
    + "- Do not include opinions, further explanations, or follow-up questions in your replies.\n"
    + "- Always use the same language as the user."

  /** A configured knowledge agent: `self.rag`, `self.gemini`, `self.top_k`, `self.system_prompt`. */
  datatype CafeBot = CafeBot(rag: Retriever, gemini: Llm, topK: int, systemPrompt: string)

  /**
   * The constructor: `topK` is `None` when the argument is omitted, and a
   * falsy system prompt (`None` or `""`) falls back to the default, so the
   * configured prompt is never empty.
   */
  function NewCafeBot(rag: Retriever, gemini: Llm, systemPrompt: Option<string>, topK: Option<int>): (bot: CafeBot)
    ensures bot.rag == rag && bot.gemini == gemini
    ensures bot.topK == if topK.Some? then topK.value else DefaultTopK
    ensures systemPrompt.Some? && systemPrompt.value != "" ==> bot.systemPrompt == systemPrompt.value
    ensures systemPrompt.None? || systemPrompt.value == "" ==> bot.systemPrompt == DefaultSystemPrompt
    ensures bot.systemPrompt != ""
  {
    var prompt := if systemPrompt.Some? && systemPrompt.value != "" then systemPrompt.value else DefaultSystemPrompt;
    CafeBot(rag, gemini, if topK.Some? then topK.value else DefaultTopK, prompt)
  }

  /** The user turn: the retrieved context first, then the question. */
  function UserPrompt(context: string, question: string): string {
    "Reference context:\n" + context + "\n\nUser question: " + question
  }

  /** What the chat model receives: the system prompt, then the user turn. */
  function CafeMessages(bot: CafeBot, context: string, question: string): seq<Message> {
    [Message("system", bot.systemPrompt), Message("user", UserPrompt(context, question))]
  }

  /**
   * The system prompt comes first and the user turn second; the user turn
   * opens with the retrieved context and closes with the question.
   */
  lemma CafeMessagesShape(bot: CafeBot, context: string, question: string)
    ensures |CafeMessages(bot, context, question)| == 2
    ensures CafeMessages(bot, context, question)[0] == Message("system", bot.systemPrompt)
    ensures CafeMessages(bot, context, question)[1].role == "user"
    ensures "Reference context:\n" + context <= CafeMessages(bot, context, question)[1].content
    ensures var content := CafeMessages(bot, context, question)[1].content;
      var tail := "\n\nUser question: " + question;
      |tail| <= |content| && content[|content| - |tail|..] == tail
  {
    var head := "Reference context:\n" + context;
    var tail := "\n\nUser question: " + question;
    assert UserPrompt(context, question) == head + tail;
  }

  const RetrievalFailedMarker := "❌ Failed to retrieve reference context: "
  const GeminiFailedMarker := "❌ Gemini LLM Error: "
}

/** `LanscapeCafeBot.process(question)` of `AG01_cafe_bot.py`: a question answered from retrieved context. */
module CafeBotAgent {
  import opened Wrappers
  import opened Text
  import opened Assignments
  import opened Ports
  import opened LogFormat
  import opened CafeBotConfig

  function RetrievedLog(now: string): string {
    Stamped(now, "[ProductAgent] RAG context retrieved.")
  }

  function RetrievalFailedLog(now: string, error: string): string {
    Stamped(now, "[ProductAgent][ERROR] Failed to retrieve context: " + error)
  }

  function AnsweredLog(now: string): string {
    Stamped(now, "[ProductAgent] Gemini answered.")
  }

  function GeminiFailedLog(now: string, error: string): string {
    Stamped(now, "[ProductAgent][ERROR] Gemini LLM failed: " + error)
  }

  /**
   * One question. A failing retrieval gives its marker and the model is not
   * consulted; otherwise the model gets the system prompt and the
   * context-then-question turn, and its answer, or its failure marker, is
   * the result. The log lines always pass through `format_logs`.
   */
  function Process(bot: CafeBot, question: string, now: string): (r: AgentReply)
    ensures var context := bot.rag(question, bot.topK);
      context.Failure? ==> r.result == RetrievalFailedMarker + context.error
    ensures var context := bot.rag(question, bot.topK);
      context.Success? ==>
        var answer := bot.gemini(CafeMessages(bot, context.value, question));
        && (answer.Failure? ==> r.result == GeminiFailedMarker + answer.error)
        && (answer.Success? ==> r.result == answer.value)
    ensures forall k :: 0 <= k < |r.logs| ==> Clean(r.logs[k])
  {
    var context := bot.rag(question, bot.topK);
    if context.Failure? then
      AgentReply(RetrievalFailedMarker + context.error, FormatLogs([RetrievalFailedLog(now, context.error)]))
    else
      var answer := bot.gemini(CafeMessages(bot, context.value, question));
      if answer.Failure? then
        AgentReply(GeminiFailedMarker + answer.error, FormatLogs([RetrievedLog(now), GeminiFailedLog(now, answer.error)]))
      else
        AgentReply(answer.value, FormatLogs([RetrievedLog(now), AnsweredLog(now)]))
  }

  /** A failed retrieval logs its error alone, kept by `format_logs`. */
  lemma RetrievalFailedLogs(bot: CafeBot, question: string, now: string)
    requires bot.rag(question, bot.topK).Failure?
    ensures Process(bot, question, now).logs == [Strip(RetrievalFailedLog(now, bot.rag(question, bot.topK).error))]
  {
    var log := RetrievalFailedLog(now, bot.rag(question, bot.topK).error);
    assert Process(bot, question, now).logs == FormatLogs([log]);
    FormatOne(log);
  }

  /** The retrieval line has no outer whitespace. */
  lemma RetrievedLogFixed(now: string)
    ensures Strip(RetrievedLog(now)) == RetrievedLog(now)
  {
    StampedFixed(now, "[ProductAgent] RAG context retrieved.");
  }

  /** The answered line has no outer whitespace. */
  lemma AnsweredLogFixed(now: string)
    ensures Strip(AnsweredLog(now)) == AnsweredLog(now)
  {
    StampedFixed(now, "[ProductAgent] Gemini answered.");
  }

  /** A failed model call logs the retrieval line, then the model error. */
  lemma GeminiFailedLogs(bot: CafeBot, question: string, now: string)
    requires bot.rag(question, bot.topK).Success?
    requires bot.gemini(CafeMessages(bot, bot.rag(question, bot.topK).value, question)).Failure?
    ensures var error := bot.gemini(CafeMessages(bot, bot.rag(question, bot.topK).value, question)).error;
      Process(bot, question, now).logs == [RetrievedLog(now), Strip(GeminiFailedLog(now, error))]
  {
    var error := bot.gemini(CafeMessages(bot, bot.rag(question, bot.topK).value, question)).error;
    assert Process(bot, question, now).logs == FormatLogs([RetrievedLog(now), GeminiFailedLog(now, error)]);
    FormatTwo(RetrievedLog(now), GeminiFailedLog(now, error));
    RetrievedLogFixed(now);
  }

  /** An answered question logs the retrieval line and the answered line, both unchanged. */
  lemma AnsweredLogs(bot: CafeBot, question: string, now: string)
    requires bot.rag(question, bot.topK).Success?
    requires bot.gemini(CafeMessages(bot, bot.rag(question, bot.topK).value, question)).Success?
    ensures Process(bot, question, now).logs == [RetrievedLog(now), AnsweredLog(now)]
  {
    assert Process(bot, question, now).logs == FormatLogs([RetrievedLog(now), AnsweredLog(now)]);
    FormatTwo(RetrievedLog(now), AnsweredLog(now));
    RetrievedLogFixed(now);
    AnsweredLogFixed(now);
  }

  /** A failed retrieval never reaches the model: the reply is the same whatever the model would say. */
  lemma NoContextNoModelCall(bot: CafeBot, gemini: Llm, question: string, now: string)
    requires bot.rag(question, bot.topK).Failure?
    ensures Process(bot, question, now) == Process(bot.(gemini := gemini), question, now)
  {
  }
}

/**
 * `LanscapeCafeBot.process(state)` of `agents/cafe_bot.py`: the knowledge
 * handler that reads its question from the shared assignments and writes
 * its answer back into them.
 */
module CafeBotHandler {
  import opened Wrappers
  import opened Text
  import opened Assignments
  import opened Ports
  import opened LogFormat
  import opened CafeBotConfig

  function ReceivedLog(now: string, question: string): string {
    Stamped(now, "[CafeBot] Received question: '" + question + "'")
  }

  function RetrievedLog(now: string, contextLength: nat): string {
    Stamped(now, "[CafeBot] RAG context retrieved. Context length: " + NatToString(contextLength))
  }

  function RetrievalFailedLog(now: string, error: string): string {
    Stamped(now, "[CafeBot][ERROR] Failed to retrieve context: " + error)
  }

  function AnsweredLog(now: string, answerLength: nat): string {
    Stamped(now, "[CafeBot] Gemini LLM returned answer. Length: " + NatToString(answerLength))
  }

  function GeminiFailedLog(now: string, error: string): string {
    Stamped(now, "[CafeBot][ERROR] Gemini LLM failed: " + error)
  }

  function DoneLog(now: string): string {
    Stamped(now, "[CafeBot] Result set in assigned_agents.")
  }

  /**
   * One handler run over the shared assignments. The question is the
   * command of the first `landscape_cafe_bot` assignment, or `""`. A failing
   * retrieval or model call returns its marker as `result` and leaves every
   * assignment as it was; a successful answer goes into every
   * `landscape_cafe_bot` assignment, the others are untouched, and only the
   * four log lines are returned.
   */
  method Process(entries: array<Assignment>, bot: CafeBot, now: string) returns (r: HandlerUpdate)
    modifies entries
    ensures var question := FirstCommand(old(entries[..]), CafeBotName);
      var context := bot.rag(question, bot.topK);
      context.Failure? ==>
        && entries[..] == old(entries[..])
        && r == HandlerUpdate(Some(RetrievalFailedMarker + context.error),
          [ReceivedLog(now, question), RetrievalFailedLog(now, context.error)])
    ensures var question := FirstCommand(old(entries[..]), CafeBotName);
      var context := bot.rag(question, bot.topK);
      context.Success? && bot.gemini(CafeMessages(bot, context.value, question)).Failure? ==>
        var error := bot.gemini(CafeMessages(bot, context.value, question)).error;
        && entries[..] == old(entries[..])
        && r == HandlerUpdate(Some(GeminiFailedMarker + error),
          [ReceivedLog(now, question), RetrievedLog(now, |context.value|), GeminiFailedLog(now, error)])
    ensures var question := FirstCommand(old(entries[..]), CafeBotName);
      var context := bot.rag(question, bot.topK);
      context.Success? && bot.gemini(CafeMessages(bot, context.value, question)).Success? ==>
        var answer := bot.gemini(CafeMessages(bot, context.value, question)).value;
        && entries[..] == WithResult(old(entries[..]), CafeBotName, answer)
        && r == HandlerUpdate(None,
          [ReceivedLog(now, question), RetrievedLog(now, |context.value|), AnsweredLog(now, |answer|), DoneLog(now)])
  {
    var question := FindFirstCommand(entries, CafeBotName);
    var context := bot.rag(question, bot.topK);
    if context.Failure? {
      return HandlerUpdate(Some(RetrievalFailedMarker + context.error),
        [ReceivedLog(now, question), RetrievalFailedLog(now, context.error)]);
    }
    var answer := bot.gemini(CafeMessages(bot, context.value, question));
    if answer.Failure? {
      return HandlerUpdate(Some(GeminiFailedMarker + answer.error),
        [ReceivedLog(now, question), RetrievedLog(now, |context.value|), GeminiFailedLog(now, answer.error)]);
    }
    WriteResult(entries, CafeBotName, answer.value);
    r := HandlerUpdate(None,
      [ReceivedLog(now, question), RetrievedLog(now, |context.value|), AnsweredLog(now, |answer.value|), DoneLog(now)]);
  }
}
