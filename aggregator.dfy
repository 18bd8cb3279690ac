/**
 * `AggregatorAgent` of `AG03_aggregator_agent.py`: the fan-in step that
 * turns the handlers' results into the final reply, trying in order: wait
 * while any result is missing, pass a single non-database result through,
 * summarise a single database result, or summarise all results together.
 */
module Aggregator {
  import opened Wrappers
  import opened Text
  import opened Assignments
  import opened Ports
  import opened LogFormat

  /** What `process` returns: `final_response` when it decides one, and its logs. */
  datatype AggregatorUpdate = AggregatorUpdate(finalResponse: Option<string>, logs: seq<string>)

  /** One `(label, text)` pair of `agent_outputs`. */
  datatype AgentOutput = AgentOutput(agent: string, text: string)

  /** The fixed opening of the database summary prompt. */
  const DatabasePreamble := "You are a helpful and friendly assistant. Organize and present the following database table for the user in a clear, concise, and visually appealing summary. "
    + "Use bullet points, short tables, or lists if helpful, and add emojis to enhance readability where appropriate. "
    + "Focus only on answering the user's request; do not add extra information. "
    + "If the table is empty, reply with a polite message that no data was found. "
    + "Always answer in the exact same language as the user's question.\n\n"

  /** The fixed opening of the multi-agent summary prompt. */
  const MultiAgentPreamble := "You are a helpful and friendly assistant. The following are responses from multiple support agents to the same user query. "
    + "Please combine, reorganize, and summarize all relevant information into a single, concise, and easy-to-read reply for the user. "
    + "Remove any duplicate or redundant details. Use a friendly tone, and you may add emojis to make the message more engaging. "
    + "If there are conflicting answers, use the most accurate or comprehensive information.\n\n"
    + "Always answer in the exact same language as the user's question.\n"

  /** The database summary prompt: the preamble, the question, then the table text. */
  function DatabaseSummaryPrompt(tableText: string, userMessage: string): string {
    DatabasePreamble + "User question: " + userMessage + "\n" + "Database output:\n" + tableText + "\n"
  }

  /** `summarize_database_output(table_text, user_message)`: one user message to the model. */
  function SummarizeDatabaseOutput(llm: Llm, tableText: string, userMessage: string): Result<string, string> {
    llm([Message("user", DatabaseSummaryPrompt(tableText, userMessage))])
  }

  /** A line without a break, followed by text that starts with one, splits back apart. */
  lemma BreakSplits(u1: string, r1: string, u2: string, r2: string)
    requires '\n' !in u1 && '\n' !in u2
    requires |r1| > 0 && r1[0] == '\n' && |r2| > 0 && r2[0] == '\n'
    requires u1 + r1 == u2 + r2
    ensures u1 == u2 && r1 == r2
  {
    assert u1 + r1 == u1 + ['\n'] + r1[1..];
    assert u2 + r2 == u2 + ['\n'] + r2[1..];
    SplitFirstPiece(u1, '\n', r1[1..]);
    SplitFirstPiece(u2, '\n', r2[1..]);
    assert u1 == (u1 + r1)[..|u1|] && u2 == (u2 + r2)[..|u2|];
    assert r1 == (u1 + r1)[|u1|..] && r2 == (u2 + r2)[|u2|..];
  }

  /** Text after a shared head is determined by the whole. */
  lemma DropHead(h: string, x: string, y: string)
    requires h + x == h + y
    ensures x == y
  {
    assert x == (h + x)[|h|..];
    assert y == (h + y)[|h|..];
  }

  /** The database prompt regrouped as the fixed head, the question, then the rest. */
  lemma PromptRegroup(pre: string, u: string, t: string)
    ensures pre + "User question: " + u + "\n" + "Database output:\n" + t + "\n"
      == (pre + "User question: ") + (u + ("\nDatabase output:\n" + (t + "\n")))
  {
  }

  /** A one-line question and the table text after it are recoverable from any preamble followed by them. */
  lemma QuestionTableSplit(pre: string, t1: string, u1: string, t2: string, u2: string)
    requires '\n' !in u1 && '\n' !in u2
    requires pre + "User question: " + u1 + "\n" + "Database output:\n" + t1 + "\n"
      == pre + "User question: " + u2 + "\n" + "Database output:\n" + t2 + "\n"
    ensures t1 == t2 && u1 == u2
  {
    var mid := "\nDatabase output:\n";
    PromptRegroup(pre, u1, t1);
    PromptRegroup(pre, u2, t2);
    DropHead(pre + "User question: ", u1 + (mid + (t1 + "\n")), u2 + (mid + (t2 + "\n")));
    BreakSplits(u1, mid + (t1 + "\n"), u2, mid + (t2 + "\n"));
    DropHead(mid, t1 + "\n", t2 + "\n");
    assert t1 == (t1 + "\n")[..|t1|];
    assert t2 == (t2 + "\n")[..|t2|];
  }

  /**
   * The model can tell the question and the table apart: a one-line question
   * and the table text are both determined by the database summary prompt.
   */
  lemma DatabaseSummaryPromptReadBack(t1: string, u1: string, t2: string, u2: string)
    requires '\n' !in u1 && '\n' !in u2
    requires DatabaseSummaryPrompt(t1, u1) == DatabaseSummaryPrompt(t2, u2)
    ensures t1 == t2 && u1 == u2
  {
    QuestionTableSplit(DatabasePreamble, t1, u1, t2, u2);
  }

  /** The prompt of `summarize_multiple_agents` before any output line. */
  function MultiAgentHeader(userMessage: string): string {
    MultiAgentPreamble + "User question: " + userMessage + "\n" + "Agent outputs:\n"
  }

  /** `f"[{label}]: {text}"`, one output line without its line break. */
  function OutputLine(o: AgentOutput): string {
    "[" + o.agent + "]: " + o.text
  }

  /** The output lines, each followed by a line break, in order. */
  function OutputLines(outputs: seq<AgentOutput>): string {
    if outputs == [] then "" else OutputLine(outputs[0]) + "\n" + OutputLines(outputs[1..])
  }

  /** The full multi-agent prompt: the header, then one line per output. */
  function MultiAgentPrompt(outputs: seq<AgentOutput>, userMessage: string): string {
    MultiAgentHeader(userMessage) + OutputLines(outputs)
  }

  /** Appending an output appends its line. */
  lemma {:induction false} OutputLinesSnoc(outputs: seq<AgentOutput>, o: AgentOutput)
    ensures OutputLines(outputs + [o]) == OutputLines(outputs) + (OutputLine(o) + "\n")
  {
    if outputs != [] {
      assert (outputs + [o])[1..] == outputs[1..] + [o];
      OutputLinesSnoc(outputs[1..], o);
    }
  }

  /**
   * Reading the output section back line by line gives exactly one
   * `[label]: text` line per output, in order, then the empty remainder
   * after the last line break, when no label or text holds a line break.
   */
  lemma {:induction false} OutputLinesReadBack(outputs: seq<AgentOutput>)
    requires forall i :: 0 <= i < |outputs| ==> '\n' !in outputs[i].agent && '\n' !in outputs[i].text
    ensures SplitOn(OutputLines(outputs), '\n') ==
      seq(|outputs|, i requires 0 <= i < |outputs| => OutputLine(outputs[i])) + [""]
  {
    if outputs != [] {
      var line := OutputLine(outputs[0]);
      assert '\n' !in line by {
        assert line == "[" + outputs[0].agent + "]: " + outputs[0].text;
      }
      OutputLinesReadBack(outputs[1..]);
      SplitFirstPiece(line, '\n', OutputLines(outputs[1..]));
      assert line + "\n" + OutputLines(outputs[1..]) == line + ['\n'] + OutputLines(outputs[1..]);
    }
  }

  /** The `+=` loop of `summarize_multiple_agents`: one line per output, in order, after `prompt`. */
  method AppendOutputLines(prompt: string, outputs: seq<AgentOutput>) returns (full: string)
    ensures full == prompt + OutputLines(outputs)
  {
    full := prompt;
    for i := 0 to |outputs|
      invariant full == prompt + OutputLines(outputs[..i])
    {
      OutputLinesSnoc(outputs[..i], outputs[i]);
      assert outputs[..i + 1] == outputs[..i] + [outputs[i]];
      full := full + (OutputLine(outputs[i]) + "\n");
    }
    assert outputs[..|outputs|] == outputs;
  }

  /**
   * `summarize_multiple_agents(agent_outputs, user_message)`: the header,
   * then one line per output, sent to the model as one user message.
   */
  method SummarizeMultipleAgents(llm: Llm, outputs: seq<AgentOutput>, userMessage: string)
    returns (summary: Result<string, string>)
    ensures summary == llm([Message("user", MultiAgentPrompt(outputs, userMessage))])
  {
    var prompt := AppendOutputLines(MultiAgentHeader(userMessage), outputs);
    summary := llm([Message("user", prompt)]);
  }

  /** The names of the agents whose result is still falsy, in order (`waiting`). */
  function Waiting(s: seq<Assignment>): (names: seq<string>)
    ensures |names| <= |s|
  {
    if s == [] then []
    else
      var init := Waiting(s[..|s| - 1]);
      if Truthy(s[|s| - 1].result) then init else init + [s[|s| - 1].agent]
  }

  /** Nobody is waiting exactly when every result is truthy. */
  lemma {:induction false} WaitingEmpty(s: seq<Assignment>)
    ensures Waiting(s) == [] <==> forall i :: 0 <= i < |s| ==> Truthy(s[i].result)
  {
    if s != [] {
      WaitingEmpty(s[..|s| - 1]);
      assert forall i :: 0 <= i < |s| - 1 ==> s[..|s| - 1][i] == s[i];
    }
  }

  /** An assignment's own contribution: its agent's name exactly when its result is falsy. */
  lemma WaitingOne(x: Assignment)
    ensures Waiting([x]) == if Truthy(x.result) then [] else [x.agent]
  {
    assert [x][..0] == [];
  }

  /** The waiting list of two runs of assignments is their two lists, in order. */
  lemma {:induction false} WaitingAppend(a: seq<Assignment>, b: seq<Assignment>)
    ensures Waiting(a + b) == Waiting(a) + Waiting(b)
  {
    if b == [] {
      assert a + b == a;
    } else {
      var init := b[..|b| - 1];
      assert (a + b)[..|a + b| - 1] == a + init;
      assert (a + b)[|a + b| - 1] == b[|b| - 1];
      WaitingAppend(a, init);
    }
  }

  /** Every assignment whose result is falsy has its agent's name on the list. */
  lemma {:induction false} WaitingComplete(s: seq<Assignment>, i: int)
    requires 0 <= i < |s| && !Truthy(s[i].result)
    ensures s[i].agent in Waiting(s)
  {
    if i < |s| - 1 {
      assert s[..|s| - 1][i] == s[i];
      WaitingComplete(s[..|s| - 1], i);
    }
  }

  /** Every name on the list is the agent of an assignment whose result is falsy. */
  lemma {:induction false} WaitingSound(s: seq<Assignment>, name: string)
    requires name in Waiting(s)
    ensures exists i :: 0 <= i < |s| && !Truthy(s[i].result) && s[i].agent == name
  {
    var init := s[..|s| - 1];
    if name in Waiting(init) {
      WaitingSound(init, name);
      var i :| 0 <= i < |init| && !Truthy(init[i].result) && init[i].agent == name;
      assert s[i] == init[i];
    } else {
      assert !Truthy(s[|s| - 1].result) && s[|s| - 1].agent == name;
    }
  }

  /** The `(agent, result)` pairs of the assignments with a truthy result, in order. */
  function AgentOutputs(s: seq<Assignment>): (outputs: seq<AgentOutput>)
    ensures |outputs| <= |s|
  {
    if s == [] then []
    else
      var init := AgentOutputs(s[..|s| - 1]);
      var last := s[|s| - 1];
      if Truthy(last.result) then init + [AgentOutput(last.agent, last.result.value)] else init
  }

  /**
   * Once nobody is waiting, every assignment contributes its pair: the
   * output list has one pair per assignment, in assignment order.
   */
  lemma {:induction false} AllOutputsWhenNoneWaiting(s: seq<Assignment>)
    requires Waiting(s) == []
    ensures |AgentOutputs(s)| == |s|
    ensures forall i :: 0 <= i < |s| ==>
      s[i].result.Some? && AgentOutputs(s)[i] == AgentOutput(s[i].agent, s[i].result.value)
  {
    WaitingEmpty(s);
    if s != [] {
      var init := s[..|s| - 1];
      assert forall i :: 0 <= i < |init| ==> init[i] == s[i];
      WaitingEmpty(init);
      AllOutputsWhenNoneWaiting(init);
    }
  }

  /** The `agent_outputs` loop of `process`: collect the pair of every assignment with a truthy result. */
  method CollectOutputs(s: seq<Assignment>) returns (outputs: seq<AgentOutput>)
    ensures outputs == AgentOutputs(s)
  {
    outputs := [];
    for i := 0 to |s|
      invariant outputs == AgentOutputs(s[..i])
    {
      assert s[..i + 1][..i] == s[..i];
      if Truthy(s[i].result) {
        outputs := outputs + [AgentOutput(s[i].agent, s[i].result.value)];
      }
    }
    assert s[..|s|] == s;
  }

  function WaitingLog(now: string, shownWaiting: string): string {
    Stamped(now, "[AGGREGATOR]: Waiting for " + shownWaiting + " ...")
  }

  function PassThroughLog(now: string): string {
    Stamped(now, "[AGGREGATOR]: Single agent, pass through.")
  }

  function DatabaseSummaryLog(now: string): string {
    Stamped(now, "[AGGREGATOR]: Summarized database output.")
  }

  function MultiAgentLog(now: string): string {
    Stamped(now, "[AGGREGATOR]: Summarized multi-agent output.")
  }

  /**
   * `process(state)` over `assigned_agents` and `user_message`. While any
   * result is falsy only a waiting line is returned. A single non-database
   * result is the reply as it is and the model is not consulted; a single
   * database result is summarised once, unstripped; any other count (zero
   * included) summarises all pairs once and strips the summary. A failing
   * model call propagates; every other return carries exactly one log line.
   */
  method Process(s: seq<Assignment>, userMessage: string, llm: Llm, now: string, show: Show)
    returns (r: Result<AggregatorUpdate, string>)
    ensures Waiting(s) != [] ==> r == Success(AggregatorUpdate(None, [WaitingLog(now, show.strings(Waiting(s)))]))
    ensures Waiting(s) == [] && |s| == 1 && s[0].agent != DatabaseAgentName ==>
      r == Success(AggregatorUpdate(s[0].result, [PassThroughLog(now)]))
    ensures Waiting(s) == [] && |s| == 1 && s[0].agent == DatabaseAgentName ==>
      var summary := SummarizeDatabaseOutput(llm, s[0].result.GetOr(""), userMessage);
      r == if summary.Failure? then Failure(summary.error)
           else Success(AggregatorUpdate(Some(summary.value), [DatabaseSummaryLog(now)]))
    ensures Waiting(s) == [] && |s| != 1 ==>
      var summary := llm([Message("user", MultiAgentPrompt(AgentOutputs(s), userMessage))]);
      r == if summary.Failure? then Failure(summary.error)
           else Success(AggregatorUpdate(Some(Strip(summary.value)), [MultiAgentLog(now)]))
    ensures r.Success? ==> |r.value.logs| == 1
    ensures r.Success? && r.value.finalResponse.Some? ==> Waiting(s) == []
  {
    var waiting := Waiting(s);
    if waiting != [] {
      return Success(AggregatorUpdate(None, [WaitingLog(now, show.strings(waiting))]));
    }
    if |s| == 1 {
      var agent := s[0].agent;
      var result := s[0].result.GetOr("");
      if agent != DatabaseAgentName {
        WaitingEmpty(s);
        return Success(AggregatorUpdate(Some(result), [PassThroughLog(now)]));
      }
      var summary := SummarizeDatabaseOutput(llm, result, userMessage);
      if summary.Failure? {
        return Failure(summary.error);
      }
      return Success(AggregatorUpdate(Some(summary.value), [DatabaseSummaryLog(now)]));
    }
    var outputs := CollectOutputs(s);
    var summary := SummarizeMultipleAgents(llm, outputs, userMessage);
    if summary.Failure? {
      return Failure(summary.error);
    }
    r := Success(AggregatorUpdate(Some(Strip(summary.value)), [MultiAgentLog(now)]));
  }

  /** With no assignments nobody is waiting and the summary covers an empty output list. */
  lemma NoAssignmentsSummarisedEmpty(userMessage: string)
    ensures Waiting([]) == [] && AgentOutputs([]) == []
    ensures MultiAgentPrompt(AgentOutputs([]), userMessage) == MultiAgentHeader(userMessage)
  {
  }
}
