/**
 * Turning a chat model's reply into one SQL statement (`llm_to_sql`), and
 * running it under the `NO_SQL` guard and the row cap (`query_database`).
 * Both database agents share this code: the regular-expression search for a
 * `sql` code block is modelled exactly, with Python's case-insensitive
 * matching and `\s` as `str.isspace`.
 */
module SqlExtraction {
  import opened Wrappers
  import opened Text
  import opened Assignments
  import opened Ports

  const Fence := "```"

  /** A code fence starts at index `k`. */
  predicate IsFence(s: string, k: nat) {
    k + 3 <= |s| && s[k..k + 3] == Fence
  }

  /** A `sql` block opener starts at index `k`: a fence followed by `sql` in any case. */
  predicate IsSqlOpener(s: string, k: nat) {
    IsFence(s, k) && k + 6 <= |s| && UpperEquals(s[k + 3..k + 6], "SQL")
  }

  /**
   * The pattern `` ```sql\s*(.*?)``` `` has a match in `s`: an opener with a
   * fence somewhere after its six characters (`.*?` spans line breaks).
   */
  ghost predicate HasSqlBlock(s: string) {
    exists p: nat, q: nat :: IsSqlOpener(s, p) && p + 6 <= q && IsFence(s, q)
  }

  /** The first fence at or after `from`. */
  function FirstFenceFrom(s: string, from: nat): (k: Option<nat>)
    ensures k.Some? ==>
      from <= k.value && IsFence(s, k.value) && forall j: nat :: from <= j < k.value ==> !IsFence(s, j)
    ensures k.None? ==> forall j: nat :: from <= j ==> !IsFence(s, j)
    decreases |s| - from
  {
    if from + 3 > |s| then None
    else if IsFence(s, from) then Some(from)
    else FirstFenceFrom(s, from + 1)
  }

  /** The first `sql` block opener at or after `from`. */
  function FirstOpenerFrom(s: string, from: nat): (k: Option<nat>)
    ensures k.Some? ==>
      from <= k.value && IsSqlOpener(s, k.value) && forall j: nat :: from <= j < k.value ==> !IsSqlOpener(s, j)
    ensures k.None? ==> forall j: nat :: from <= j ==> !IsSqlOpener(s, j)
    decreases |s| - from
  {
    if from + 6 > |s| then None
    else if IsSqlOpener(s, from) then Some(from)
    else FirstOpenerFrom(s, from + 1)
  }

  /**
   * Where the greedy `\s*` stops before the closing fence at `to`: the first
   * index at or after `from` that is not whitespace, or `to`. A fence does
   * not start with whitespace, so the run never reaches past it.
   */
  function SkipSpace(s: string, from: nat, to: nat): (g: nat)
    requires from <= to <= |s|
    ensures from <= g <= to
    ensures AllSpace(s[from..g])
    ensures g == to || !IsSpace(s[g])
    decreases (to as int) - (from as int)
  {
    if from < to && IsSpace(s[from]) then SkipSpace(s, from + 1, to) else from
  }

  /**
   * The SQL that `llm_to_sql` extracts from the model's reply text, trying
   * in order: a `sql` code block (the stripped group of the first match), a
   * reply that both starts and ends with a fence (`sql[3:-3].strip()`, empty
   * when the reply is shorter than six characters), a reply whose upper-case
   * form starts with `SQL:` (the stripped rest), and otherwise the reply
   * itself, unstripped.
   */
  function ExtractSql(text: string): (sql: string)
    ensures |sql| <= |text|
  {
    var opener := FirstOpenerFrom(text, 0);
    var fence := if opener.Some? then FirstFenceFrom(text, opener.value + 6) else None;
    if fence.Some? then
      var g := SkipSpace(text, opener.value + 6, fence.value);
      Strip(text[g..fence.value])
    else if StartsWith(text, Fence) && EndsWith(text, Fence) then
      if |text| >= 6 then Strip(text[3..|text| - 3]) else ""
    else if UpperStartsWith(text, "SQL:") then Strip(text[4..])
    else text
  }

  /** The first fence at or after `from` is `q` when `q` is a fence and none lies between. */
  lemma FirstFenceIs(s: string, from: nat, q: nat)
    requires from <= q && IsFence(s, q) && forall j: nat :: from <= j < q ==> !IsFence(s, j)
    ensures FirstFenceFrom(s, from) == Some(q)
  {
  }

  /** The first opener is `p` when `p` is an opener and none lies before it. */
  lemma FirstOpenerIs(s: string, p: nat)
    requires IsSqlOpener(s, p) && forall j: nat :: j < p ==> !IsSqlOpener(s, j)
    ensures FirstOpenerFrom(s, 0) == Some(p)
  {
  }

  /** Once the opener and the fence are found, the first branch is taken. */
  lemma MatchedBranch(text: string, p: nat, q: nat)
    requires FirstOpenerFrom(text, 0) == Some(p) && FirstFenceFrom(text, p + 6) == Some(q)
    ensures ExtractSql(text) == Strip(text[SkipSpace(text, p + 6, q)..q])
  {
    var opener := FirstOpenerFrom(text, 0);
    var fence := if opener.Some? then FirstFenceFrom(text, opener.value + 6) else None;
    assert fence == Some(q);
  }

  /** Within `s[a..q]`, a whitespace run `s[a..g]` does not change the stripped text. */
  lemma StripAfterSpaceIn(s: string, a: nat, g: nat, q: nat)
    requires a <= g <= q <= |s| && AllSpace(s[a..g])
    ensures Strip(s[g..q]) == Strip(s[a..q])
  {
    var between := s[a..q];
    assert between[g - a..] == s[g..q];
    assert between[..g - a] == s[a..g];
    StripAfterSpace(between, g - a);
  }

  /**
   * A `sql` block wins over every other shape: the result is the text
   * between the first opener and the next fence after it, stripped.
   */
  lemma ExtractSqlBlock(text: string, p: nat, q: nat)
    requires IsSqlOpener(text, p) && forall j: nat :: j < p ==> !IsSqlOpener(text, j)
    requires p + 6 <= q && IsFence(text, q) && forall j: nat :: p + 6 <= j < q ==> !IsFence(text, j)
    ensures ExtractSql(text) == Strip(text[p + 6..q])
  {
    FirstOpenerIs(text, p);
    FirstFenceIs(text, p + 6, q);
    var g := SkipSpace(text, p + 6, q);
    MatchedBranch(text, p, q);
    StripAfterSpaceIn(text, p + 6, g, q);
  }

  /** A reply without a `sql` block that is wrapped in bare fences loses them, and is stripped. */
  lemma ExtractBareFence(text: string)
    requires !HasSqlBlock(text)
    requires StartsWith(text, Fence) && EndsWith(text, Fence)
    ensures ExtractSql(text) == if |text| >= 6 then Strip(text[3..|text| - 3]) else ""
  {
    NoBlockNoMatch(text);
  }

  /** A reply without a `sql` block or bare fences that starts with `SQL:` (any case) loses the prefix, and is stripped. */
  lemma ExtractPrefixed(text: string)
    requires !HasSqlBlock(text)
    requires !(StartsWith(text, Fence) && EndsWith(text, Fence))
    requires UpperStartsWith(text, "SQL:")
    ensures ExtractSql(text) == Strip(text[4..])
  {
    NoBlockNoMatch(text);
  }

  /** Any other reply is taken as it is, without stripping. */
  lemma ExtractUnchanged(text: string)
    requires !HasSqlBlock(text)
    requires !(StartsWith(text, Fence) && EndsWith(text, Fence))
    requires !UpperStartsWith(text, "SQL:")
    ensures ExtractSql(text) == text
  {
    NoBlockNoMatch(text);
  }

  /** Without a `sql` block the first branch is not taken. */
  lemma NoBlockNoMatch(text: string)
    requires !HasSqlBlock(text)
    ensures var opener := FirstOpenerFrom(text, 0);
      opener.None? || FirstFenceFrom(text, opener.value + 6).None?
  {
    var opener := FirstOpenerFrom(text, 0);
    if opener.Some? {
      var fence := FirstFenceFrom(text, opener.value + 6);
      if fence.Some? {
        assert IsSqlOpener(text, opener.value) && opener.value + 6 <= fence.value && IsFence(text, fence.value);
        assert HasSqlBlock(text);
      }
    }
  }

  /** A string without backticks contains no fence. */
  lemma NoBacktickNoFence(s: string, k: nat)
    requires '`' !in s
    ensures !IsFence(s, k)
  {
    if k + 3 <= |s| {
      assert s[k..k + 3][0] == s[k];
    }
  }

  /** A text without backticks has no `sql` block and does not start with a fence. */
  lemma NoBacktickNoBlock(text: string)
    requires '`' !in text
    ensures !HasSqlBlock(text) && !StartsWith(text, Fence)
  {
    forall k: nat ensures !IsFence(text, k) {
      NoBacktickNoFence(text, k);
    }
    assert !IsFence(text, 0);
  }

  /** The fenced text has its opener at 0 and its only closing fence right after the statement. */
  lemma SqlBlockShape(statement: string)
    requires '`' !in statement
    ensures var text := "```sql\n" + statement + "```";
      var q := 7 + |statement|;
      && IsSqlOpener(text, 0) && IsFence(text, q) && (forall j: nat :: 6 <= j < q ==> !IsFence(text, j))
      && text[6..q] == ['\n'] + statement
  {
    var text := "```sql\n" + statement + "```";
    var q := 7 + |statement|;
    assert text[6..q] == ['\n'] + statement;
    assert text[..3] == Fence && text[3..6] == "sql";
    assert text[q..q + 3] == Fence;
    forall j: nat | 6 <= j < q ensures !IsFence(text, j) {
      if j + 3 <= |text| {
        assert text[j..j + 3][0] == text[j];
        if j > 6 {
          assert text[j] == statement[j - 7];
        }
      }
    }
  }

  /** One leading whitespace character does not change the stripped text. */
  lemma StripAfterOneSpace(c: char, statement: string)
    requires IsSpace(c)
    ensures Strip([c] + statement) == Strip(statement)
  {
    var t := [c] + statement;
    assert t[..1] == [c];
    StripAfterSpace(t, 1);
    assert t[1..] == statement;
  }

  /** A reply whose first opener is at `p` and whose next fence closes right after `"\n" + statement`. */
  lemma ExtractOpenedAt(text: string, p: nat, statement: string)
    requires IsSqlOpener(text, p) && forall j: nat :: j < p ==> !IsSqlOpener(text, j)
    requires p + 7 + |statement| <= |text| && IsFence(text, p + 7 + |statement|)
    requires forall j: nat :: p + 6 <= j < p + 7 + |statement| ==> !IsFence(text, j)
    requires text[p + 6..p + 7 + |statement|] == ['\n'] + statement
    ensures ExtractSql(text) == Strip(statement)
  {
    ExtractSqlBlock(text, p, p + 7 + |statement|);
    StripAfterOneSpace('\n', statement);
  }

  /** Round trip: a statement wrapped in a `sql` block is extracted, stripped. */
  lemma ExtractFromSqlBlock(statement: string)
    requires '`' !in statement
    ensures ExtractSql("```sql\n" + statement + "```") == Strip(statement)
  {
    SqlBlockShape(statement);
    ExtractOpenedAt("```sql\n" + statement + "```", 0, statement);
  }

  /** The prefixed text has no backticks, starts with `SQL:` and continues with a space and the statement. */
  lemma PrefixShape(statement: string)
    requires '`' !in statement
    ensures var text := "SQL: " + statement;
      && '`' !in text && UpperStartsWith(text, "SQL:") && text[4..] == [' '] + statement
  {
    var text := "SQL: " + statement;
    forall i | 0 <= i < |text| ensures text[i] != '`' {
      if i >= 5 {
        assert text[i] == statement[i - 5];
      }
    }
    assert text[..4] == "SQL:";
    assert text[4..] == [' '] + statement;
  }

  /** Round trip: a statement after an `SQL:` prefix is extracted, stripped. */
  lemma ExtractFromPrefix(statement: string)
    requires '`' !in statement
    ensures ExtractSql("SQL: " + statement) == Strip(statement)
  {
    var text := "SQL: " + statement;
    PrefixShape(statement);
    NoBacktickNoBlock(text);
    ExtractPrefixed(text);
    StripAfterOneSpace(' ', statement);
  }

  /** A reply that is plain SQL, without backticks or an `SQL:` prefix, is taken as it is. */
  lemma ExtractPlain(statement: string)
    requires '`' !in statement
    requires !UpperStartsWith(statement, "SQL:")
    ensures ExtractSql(statement) == statement
  {
    NoBacktickNoBlock(statement);
    ExtractUnchanged(statement);
  }

  /** The fixed opening of the SQL-generation prompt. */
  const SqlInstruction := "You are a database specialist agent. Given the schema and user request, generate a single, safe SQL SELECT statement. "
    + "If you cannot answer with available tables/columns, reply NO_SQL.\n"

  /** The instruction sent to the model: schema overview, then the request, then `SQL:`. */
  function SqlPrompt(command: string, schema: string): string {
    SqlInstruction + "Database schema overview:\n" + schema + "\n"
    + "User request: " + command + "\nSQL:"
  }

  /**
   * `llm_to_sql(command, schema)`: one user message holding the prompt; a
   * failing call propagates, a reply goes through the extraction.
   */
  function LlmToSql(llm: Llm, command: string, schema: string): (sql: Result<string, string>)
    ensures var reply := llm([Message("user", SqlPrompt(command, schema))]);
      && (reply.Failure? <==> sql.Failure?)
      && (reply.Failure? ==> sql.error == reply.error)
      && (reply.Success? ==> |sql.value| <= |reply.value|)
      && (reply.Success? ==> sql.value == ExtractSql(reply.value))
  {
    var reply := llm([Message("user", SqlPrompt(command, schema))]);
    if reply.Failure? then Failure(reply.error) else Success(ExtractSql(reply.value))
  }

  /** The row cap of `query_database`. */
  const MaxRows := 15
  /** The text of the `ValueError` raised for a `NO_SQL` reply. */
  const NoSqlMessage := "Cannot answer this question with the given schema."

  /**
   * `query_database(sql)`: `NO_SQL` in any case is refused before any
   * connection is made; otherwise the query runs and at most the first 15
   * rows are kept, and a failing query propagates its error.
   */
  function QueryDatabase(sql: string, run: SqlRunner): (rows: Result<seq<Row>, string>)
    ensures UpperEquals(sql, "NO_SQL") ==> rows == Failure(NoSqlMessage)
    ensures !UpperEquals(sql, "NO_SQL") ==> (rows.Failure? <==> run(sql).Failure?)
    ensures !UpperEquals(sql, "NO_SQL") && rows.Failure? ==> rows.error == run(sql).error
    ensures rows.Success? ==>
      && run(sql).Success?
      && rows.value <= run(sql).value
      && |rows.value| == if |run(sql).value| <= MaxRows then |run(sql).value| else MaxRows
  {
    if UpperEquals(sql, "NO_SQL") then Failure(NoSqlMessage)
    else
      var result := run(sql);
      if result.Failure? then Failure(result.error) else Success(Take(result.value, MaxRows))
  }

  /** The `NO_SQL` refusal does not depend on the database at all. */
  lemma NoSqlNeverQueries(sql: string, run1: SqlRunner, run2: SqlRunner)
    requires UpperEquals(sql, "NO_SQL")
    ensures QueryDatabase(sql, run1) == QueryDatabase(sql, run2)
  {
  }

  /** Every case spelling of `NO_SQL` is refused, `"no_sql"` and `"No_Sql"` as much as `"NO_SQL"`. */
  lemma NoSqlAnyCase(run: SqlRunner)
    ensures QueryDatabase("no_sql", run) == Failure(NoSqlMessage)
    ensures QueryDatabase("No_Sql", run) == Failure(NoSqlMessage)
    ensures QueryDatabase("NO_SQL", run) == Failure(NoSqlMessage)
  {
  }

  const NoDataMessage := "No data found for your request."

  /**
   * The `result` text for the outcome of the query stage, the same in both
   * database agents: the rendered table under `Query result:`, the no-data
   * notice, or the DB error marker followed by the offending SQL.
   */
  function QueryOutcome(rows: Result<seq<Row>, string>, sql: string, show: Show): (result: string)
    ensures rows.Success? && rows.value == [] ==> result == NoDataMessage
    ensures rows.Success? && rows.value != [] ==> StartsWith(result, "Query result:\n")
    ensures rows.Success? && rows.value != [] ==> result[|"Query result:\n"|..] == show.table(rows.value)
    ensures rows.Failure? ==> StartsWith(result, "❌ [DB Error]: " + rows.error) && EndsWith(result, "\n(SQL: " + sql + ")")
    ensures rows.Failure? ==> |result| == |"❌ [DB Error]: " + rows.error| + |"\n(SQL: " + sql + ")"|
  {
    match rows
    case Success(table) =>
      if table == [] then NoDataMessage else "Query result:\n" + show.table(table)
    case Failure(e) => "❌ [DB Error]: " + e + "\n(SQL: " + sql + ")"
  }
}
