/**
 * The shared data of one orchestration run: chat messages, agent
 * assignments, the registered agent names, and the two list walks every
 * handler node performs on the shared assignment list — reading the
 * command of the first assignment addressed to it, and writing its result
 * into every assignment addressed to it.
 */
module Assignments {
  import opened Wrappers

  /** One chat turn or prompt entry: a `{"role": ..., "content": ...}` dict. */
  datatype Message = Message(role: string, content: string)

  /**
   * One unit of delegated work: `{agent, command, result, finish}`.
   * `result` is `None` until a handler writes it.
   */
  datatype Assignment = Assignment(agent: string, command: string, result: Option<string>, finish: bool)

  /** What the knowledge and database agents of the top-level modules return from `process`: `{"result", "logs"}`. */
  datatype AgentReply = AgentReply(result: string, logs: seq<string>)

  /**
   * What a handler of the `agents` package returns from `process`: a dict
   * with `result` on an early failure, or with only `logs` after it has
   * written its result into the shared assignments.
   */
  datatype HandlerUpdate = HandlerUpdate(result: Option<string>, logs: seq<string>)

  const CafeBotName := "landscape_cafe_bot"
  const DatabaseAgentName := "coffee_db_agent"
  /** The sentinel agent name that ends the workflow with a direct reply. */
  const EndName := "END"

  /** The keys of the agent registry, in its order. */
  const RegisteredAgents: seq<string> := [CafeBotName, DatabaseAgentName, EndName]

  /** Python truthiness of a result: `None` and `""` are both falsy. */
  predicate Truthy(result: Option<string>) {
    result.Some? && result.value != ""
  }

  /** The agent names of the assignments, in order (`[a["agent"] for a in assignments]`). */
  function AgentNames(s: seq<Assignment>): (names: seq<string>)
    ensures |names| == |s|
    ensures forall i :: 0 <= i < |s| ==> names[i] == s[i].agent
  {
    seq(|s|, i requires 0 <= i < |s| => s[i].agent)
  }

  /**
   * The command of the first assignment addressed to `agent`, or `""` when
   * there is none.
   */
  function FirstCommand(s: seq<Assignment>, agent: string): (cmd: string)
    ensures (forall i :: 0 <= i < |s| ==> s[i].agent != agent) ==> cmd == ""
    ensures (exists i :: 0 <= i < |s| && s[i].agent == agent) ==>
      exists i :: 0 <= i < |s| && s[i].agent == agent && cmd == s[i].command &&
        forall j :: 0 <= j < i ==> s[j].agent != agent
  {
    if s == [] then ""
    else if s[0].agent == agent then s[0].command
    else
      var rest := FirstCommand(s[1..], agent);
      assert forall i :: 0 < i < |s| ==> s[i] == s[1..][i - 1];
      rest
  }

  /**
   * The first-match loop of every handler node: walk the shared list and
   * stop at the first assignment addressed to `agent`.
   */
  method FindFirstCommand(entries: array<Assignment>, agent: string) returns (cmd: string)
    ensures cmd == FirstCommand(entries[..], agent)
  {
    cmd := "";
    var i := 0;
    while i < entries.Length
      invariant 0 <= i <= entries.Length
      invariant forall j :: 0 <= j < i ==> entries[j].agent != agent
    {
      if entries[i].agent == agent {
        cmd := entries[i].command;
        FirstCommandAt(entries[..], agent, i);
        return;
      }
      i := i + 1;
    }
  }

  /** When entry `i` is the first addressed to `agent`, its command is the first command. */
  lemma FirstCommandAt(s: seq<Assignment>, agent: string, i: nat)
    requires i < |s| && s[i].agent == agent
    requires forall j :: 0 <= j < i ==> s[j].agent != agent
    ensures FirstCommand(s, agent) == s[i].command
  {
    var cmd := FirstCommand(s, agent);
    var k :| 0 <= k < |s| && s[k].agent == agent && cmd == s[k].command &&
      forall j :: 0 <= j < k ==> s[j].agent != agent;
    assert k == i;
  }

  /**
   * The list after a handler has written `result` into every assignment
   * addressed to `agent`; the assignments of other agents are untouched.
   */
  function WithResult(s: seq<Assignment>, agent: string, result: string): (t: seq<Assignment>)
    ensures |t| == |s|
    ensures forall i :: 0 <= i < |s| && s[i].agent == agent ==> t[i] == s[i].(result := Some(result))
    ensures forall i :: 0 <= i < |s| && s[i].agent != agent ==> t[i] == s[i]
  {
    seq(|s|, i requires 0 <= i < |s| => if s[i].agent == agent then s[i].(result := Some(result)) else s[i])
  }

  /**
   * The write-back loop of every handler node: `a["result"] = result` for
   * each dict in the shared list whose agent matches. The list keeps its
   * length and order; only matching entries change, and only their result.
   */
  method WriteResult(entries: array<Assignment>, agent: string, result: string)
    modifies entries
    ensures entries[..] == WithResult(old(entries[..]), agent, result)
  {
    for i := 0 to entries.Length
      invariant forall j :: 0 <= j < i ==> entries[j] == WithResult(old(entries[..]), agent, result)[j]
      invariant forall j :: i <= j < entries.Length ==> entries[j] == old(entries[j])
    {
      if entries[i].agent == agent {
        entries[i] := entries[i].(result := Some(result));
      }
    }
  }

  /** Writing a result back changes no agent name, command or finish flag. */
  lemma {:induction false} WithResultKeepsRouting(s: seq<Assignment>, agent: string, result: string)
    ensures AgentNames(WithResult(s, agent, result)) == AgentNames(s)
    ensures FirstCommand(WithResult(s, agent, result), agent) == FirstCommand(s, agent)
    ensures forall i :: 0 <= i < |s| ==>
      && WithResult(s, agent, result)[i].command == s[i].command
      && WithResult(s, agent, result)[i].finish == s[i].finish
  {
    var t := WithResult(s, agent, result);
    if s != [] {
      assert t[1..] == WithResult(s[1..], agent, result);
      WithResultKeepsRouting(s[1..], agent, result);
    }
  }

  /** Writing the same result twice is the same as writing it once. */
  lemma WithResultIdempotent(s: seq<Assignment>, agent: string, result: string)
    ensures WithResult(WithResult(s, agent, result), agent, result) == WithResult(s, agent, result)
  {
  }
}

/** The external collaborators, as functions that return a value or fail with the exception's text. */
module Ports {
  import opened Wrappers
  import opened Assignments

  /** A chat model call: `llm.invoke(messages)`, unwrapped to its text. */
  type Llm = seq<Message> -> Result<string, string>

  /** The structured-output classifier: `gemini_with_output.invoke(prompt)`; `None` when the reply has no `"assignments"` key. */
  type Classifier = seq<Message> -> Result<Option<seq<Assignment>>, string>

  /** The knowledge store: `rag.query(question, top_k=k)`. */
  type Retriever = (string, int) -> Result<string, string>

  /** One row of a query result, as its cells. */
  type Row = seq<string>

  /** `pd.read_sql_query(sql, conn)` on a fresh connection: the rows, or the error text. */
  type SqlRunner = string -> Result<seq<Row>, string>

  /**
   * What the SQLite side of a database agent yields: the configured path,
   * whether `check_connection` succeeds, the `get_schema_overview` text, and
   * the query runner.
   */
  datatype Database = Database(path: string, connected: bool, schema: string, run: SqlRunner)

  /** Python's `repr` of a list of strings or of a list of assignment dicts, and `df.to_string(index=False)`. */
  datatype Show = Show(
    strings: seq<string> -> string,
    assignments: seq<Assignment> -> string,
    table: seq<Row> -> string)
}
