/** `CoffeeDatabaseAgent.process(command)` of `AG02_database_agent.py`: a request answered from SQLite. */
module DatabaseAgent {
  import opened Wrappers
  import opened Text
  import opened Assignments
  import opened Ports
  import opened LogFormat
  import opened SqlExtraction

  const ConnectionFailed := "❌ Database connection failed."
  const LlmErrorMarker := "❌ [LLM Error]: "

  function ConnectionLog(now: string, path: string): string {
    Stamped(now, "[DatabaseAgent] ERROR: Cannot connect to database (" + path + ")")
  }

  function SchemaLog(now: string, schema: string): string {
    Stamped(now, "[DatabaseAgent] Schema: " + schema)
  }

  function SqlLog(now: string, sql: string): string {
    Stamped(now, "[DatabaseAgent] SQL: " + sql)
  }

  function LlmErrorLog(now: string, error: string): string {
    Stamped(now, "[DatabaseAgent] LLM Error: " + error)
  }

  function DoneLog(now: string): string {
    Stamped(now, "[DatabaseAgent] Done.")
  }

  /**
   * One request. Without a connection the reply is the connection marker.
   * Otherwise the model is asked for SQL: a failing call gives the LLM error
   * marker, a reply gives the query stage's result text (rows, no data, or
   * DB error). The log lines always pass through `format_logs`.
   */
  function Process(db: Database, llm: Llm, show: Show, command: string, now: string): (r: AgentReply)
    ensures !db.connected ==> r.result == ConnectionFailed
    ensures db.connected ==>
      var sql := LlmToSql(llm, command, db.schema);
      && (sql.Failure? ==> r.result == LlmErrorMarker + sql.error)
      && (sql.Success? ==> r.result == QueryOutcome(QueryDatabase(sql.value, db.run), sql.value, show))
    ensures forall k :: 0 <= k < |r.logs| ==> Clean(r.logs[k])
  {
    if !db.connected then
      AgentReply(ConnectionFailed, FormatLogs([ConnectionLog(now, db.path)]))
    else
      var sql := LlmToSql(llm, command, db.schema);
      if sql.Failure? then
        AgentReply(LlmErrorMarker + sql.error, FormatLogs([SchemaLog(now, db.schema), LlmErrorLog(now, sql.error)]))
      else
        AgentReply(QueryOutcome(QueryDatabase(sql.value, db.run), sql.value, show),
          FormatLogs([SchemaLog(now, db.schema), SqlLog(now, sql.value), DoneLog(now)]))
  }

  /** The connection line has no outer whitespace. */
  lemma ConnectionLogFixed(now: string, path: string)
    ensures Strip(ConnectionLog(now, path)) == ConnectionLog(now, path)
  {
    StampedFixed(now, "[DatabaseAgent] ERROR: Cannot connect to database (" + path + ")");
  }

  /** The `Done.` line has no outer whitespace. */
  lemma DoneLogFixed(now: string)
    ensures Strip(DoneLog(now)) == DoneLog(now)
  {
    StampedFixed(now, "[DatabaseAgent] Done.");
  }

  /** Without a connection the connection error is logged alone, unchanged. */
  lemma ConnectionFailedLogs(db: Database, llm: Llm, show: Show, command: string, now: string)
    requires !db.connected
    ensures Process(db, llm, show, command, now).logs == [ConnectionLog(now, db.path)]
  {
    assert Process(db, llm, show, command, now).logs == FormatLogs([ConnectionLog(now, db.path)]);
    FormatOne(ConnectionLog(now, db.path));
    ConnectionLogFixed(now, db.path);
  }

  /** A failing model call logs the schema line, then the LLM error. */
  lemma LlmFailedLogs(db: Database, llm: Llm, show: Show, command: string, now: string)
    requires db.connected && LlmToSql(llm, command, db.schema).Failure?
    ensures var error := LlmToSql(llm, command, db.schema).error;
      Process(db, llm, show, command, now).logs == [Strip(SchemaLog(now, db.schema)), Strip(LlmErrorLog(now, error))]
  {
    var error := LlmToSql(llm, command, db.schema).error;
    assert Process(db, llm, show, command, now).logs == FormatLogs([SchemaLog(now, db.schema), LlmErrorLog(now, error)]);
    FormatTwo(SchemaLog(now, db.schema), LlmErrorLog(now, error));
  }

  /** Once there is SQL, the schema line, the SQL line and `Done.` are logged. */
  lemma QueriedLogs(db: Database, llm: Llm, show: Show, command: string, now: string)
    requires db.connected && LlmToSql(llm, command, db.schema).Success?
    ensures var sql := LlmToSql(llm, command, db.schema).value;
      Process(db, llm, show, command, now).logs == [Strip(SchemaLog(now, db.schema)), Strip(SqlLog(now, sql)), DoneLog(now)]
  {
    var sql := LlmToSql(llm, command, db.schema).value;
    assert Process(db, llm, show, command, now).logs == FormatLogs([SchemaLog(now, db.schema), SqlLog(now, sql), DoneLog(now)]);
    FormatThree(SchemaLog(now, db.schema), SqlLog(now, sql), DoneLog(now));
    DoneLogFixed(now);
  }

  /** Without a connection the model is never consulted: the reply is the same whatever it would say. */
  lemma NoConnectionNoModelCall(db: Database, llm1: Llm, llm2: Llm, show: Show, command: string, now: string)
    requires !db.connected
    ensures Process(db, llm1, show, command, now) == Process(db, llm2, show, command, now)
  {
  }

  /** A `NO_SQL` answer in any case is reported as a DB error naming the refusal, and the database is never queried. */
  lemma NoSqlReported(db: Database, llm: Llm, show: Show, command: string, now: string)
    requires db.connected
    requires var sql := LlmToSql(llm, command, db.schema); sql.Success? && UpperEquals(sql.value, "NO_SQL")
    ensures var sql := LlmToSql(llm, command, db.schema);
      Process(db, llm, show, command, now).result == "❌ [DB Error]: " + NoSqlMessage + "\n(SQL: " + sql.value + ")"
  {
  }
}

/**
 * `CoffeeDatabaseAgent.process(state)` of `agents/database_agent.py`: the
 * database handler that reads its command from the shared assignments and
 * writes its result back into them.
 */
module DatabaseHandler {
  import opened Wrappers
  import opened Text
  import opened Assignments
  import opened Ports
  import opened LogFormat
  import opened SqlExtraction

  const ConnectionFailed := "❌ Database connection failed."
  const LlmErrorMarker := "❌ [LLM Error]: "

  function ReceivedLog(now: string, command: string): string {
    Stamped(now, "[DatabaseAgent] Received command: '" + command + "'")
  }

  function ConnectionLog(now: string, path: string): string {
    Stamped(now, "[DatabaseAgent][ERROR] Cannot connect to database (" + path + ")")
  }

  function SchemaLog(now: string, schema: string): string {
    Stamped(now, "[DatabaseAgent] Schema overview: " + schema)
  }

  function SqlLog(now: string, sql: string): string {
    Stamped(now, "[DatabaseAgent] LLM generated SQL: " + sql)
  }

  function LlmErrorLog(now: string, error: string): string {
    Stamped(now, "[DatabaseAgent][ERROR] LLM to SQL failed: " + error)
  }

  /** The line logged after the query stage: the row count kept, or the query error. */
  function QueryLog(now: string, rows: Result<seq<Row>, string>): string {
    match rows
    case Success(table) => Stamped(now, "[DatabaseAgent] Query executed successfully. Rows: " + NatToString(|table|))
    case Failure(e) => Stamped(now, "[DatabaseAgent][ERROR] Query execution failed: " + e)
  }

  function DoneLog(now: string): string {
    Stamped(now, "[DatabaseAgent] Done. Result set in assigned_agents.")
  }

  /**
   * One handler run over the shared assignments (`state["assigned_agents"]`,
   * empty when the key is missing). The command is that of the first
   * `coffee_db_agent` assignment, or `""`. A connection failure or a failing
   * model call returns a `result` and leaves every assignment as it was;
   * once the query stage is reached, its result text goes into every
   * `coffee_db_agent` assignment, the others are untouched, and only the
   * five log lines are returned, from the received command to `Done.`.
   */
  method Process(entries: array<Assignment>, db: Database, llm: Llm, show: Show, now: string)
    returns (r: HandlerUpdate)
    modifies entries
    ensures var command := FirstCommand(old(entries[..]), DatabaseAgentName);
      !db.connected ==>
        entries[..] == old(entries[..]) && r == HandlerUpdate(Some(ConnectionFailed), [ConnectionLog(now, db.path)])
    ensures var command := FirstCommand(old(entries[..]), DatabaseAgentName);
      var sql := LlmToSql(llm, command, db.schema);
      db.connected && sql.Failure? ==>
        && entries[..] == old(entries[..])
        && r == HandlerUpdate(Some(LlmErrorMarker + sql.error),
          [ReceivedLog(now, command), SchemaLog(now, db.schema), LlmErrorLog(now, sql.error)])
    ensures var command := FirstCommand(old(entries[..]), DatabaseAgentName);
      var sql := LlmToSql(llm, command, db.schema);
      db.connected && sql.Success? ==>
        var rows := QueryDatabase(sql.value, db.run);
        && entries[..] == WithResult(old(entries[..]), DatabaseAgentName, QueryOutcome(rows, sql.value, show))
        && r == HandlerUpdate(None, [ReceivedLog(now, command), SchemaLog(now, db.schema),
          SqlLog(now, sql.value), QueryLog(now, rows), DoneLog(now)])
  {
    var command := FindFirstCommand(entries, DatabaseAgentName);
    if !db.connected {
      return HandlerUpdate(Some(ConnectionFailed), [ConnectionLog(now, db.path)]);
    }
    var sql := LlmToSql(llm, command, db.schema);
    if sql.Failure? {
      return HandlerUpdate(Some(LlmErrorMarker + sql.error),
        [ReceivedLog(now, command), SchemaLog(now, db.schema), LlmErrorLog(now, sql.error)]);
    }
    var rows := QueryDatabase(sql.value, db.run);
    var result := QueryOutcome(rows, sql.value, show);
    var logs := [ReceivedLog(now, command), SchemaLog(now, db.schema), SqlLog(now, sql.value),
      QueryLog(now, rows), DoneLog(now)];
    WriteResult(entries, DatabaseAgentName, result);
    r := HandlerUpdate(None, logs);
  }
}
