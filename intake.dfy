/**
 * The intake classification contract shared by both intake agents: the
 * prompt message list, the capability list shown to the classifier,
 * exhaustive validation of the assigned agent names, and the choice of the
 * direct reply among the assignments flagged `finish`.
 */
module Intake {
  import opened Wrappers
  import opened Text
  import opened Assignments

  /** What an intake agent's `process` returns: the new `assigned_agents`, `final_response` and `logs`. */
  datatype IntakeUpdate = IntakeUpdate(assignedAgents: seq<Assignment>, finalResponse: string, logs: seq<string>)

  /**
   * `build_messages(system_prompt, history, user_message)`: the stripped
   * system prompt, then the history verbatim, then the stripped user
   * message. The emptiness tests look at the unstripped text, so a
   * whitespace-only prompt or message still yields an entry, with empty content.
   */
  function BuildMessages(systemPrompt: string, history: seq<Message>, userMessage: string): (msgs: seq<Message>)
    ensures var lead := if systemPrompt != "" then 1 else 0;
      var tail := if userMessage != "" then 1 else 0;
      && |msgs| == lead + |history| + tail
      && msgs[lead..lead + |history|] == history
      && (systemPrompt != "" ==> msgs[0] == Message("system", Strip(systemPrompt)))
      && (userMessage != "" ==> msgs[|msgs| - 1] == Message("user", Strip(userMessage)))
  {
    var withSystem := if systemPrompt != "" then [Message("system", Strip(systemPrompt))] else [];
    var withHistory := withSystem + history;
    if userMessage != "" then withHistory + [Message("user", Strip(userMessage))] else withHistory
  }

  /** One registry entry as the capability list needs it: the agent name and its capability text. */
  datatype AgentCapability = AgentCapability(name: string, capability: string)

  /** `f"- {k}: {v['capability']}"`. */
  function CapabilityLine(e: AgentCapability): string {
    "- " + e.name + ": " + e.capability
  }

  /** `get_agent_capabilities(allowed_agents)`: one line per registry entry, in registry order, joined by `"\n"`. */
  function AgentCapabilities(registry: seq<AgentCapability>): string {
    Join(seq(|registry|, i requires 0 <= i < |registry| => CapabilityLine(registry[i])), "\n")
  }

  /**
   * Reading the capability text back line by line gives exactly one
   * `"- name: capability"` line per entry, in order, when no name or
   * capability contains a line break; an empty registry renders as `""`.
   */
  lemma AgentCapabilitiesLines(registry: seq<AgentCapability>)
    requires forall i :: 0 <= i < |registry| ==> '\n' !in registry[i].name && '\n' !in registry[i].capability
    ensures registry == [] ==> AgentCapabilities(registry) == ""
    ensures registry != [] ==>
      var lines := SplitOn(AgentCapabilities(registry), '\n');
      |lines| == |registry| &&
      forall i :: 0 <= i < |registry| ==> lines[i] == "- " + registry[i].name + ": " + registry[i].capability
  {
    if registry != [] {
      var lines := seq(|registry|, i requires 0 <= i < |registry| => CapabilityLine(registry[i]));
      forall k | 0 <= k < |lines| ensures '\n' !in lines[k] {
        assert lines[k] == "- " + registry[k].name + ": " + registry[k].capability;
      }
      SplitJoin(lines, '\n');
    }
  }

  /** The line `validate_assignments` of `AG00_intake_agent.py` reports per unknown agent. */
  const OfficerUnknownPrefix := "[validate_assignments] Unknown agent: "
  /** The line `validate_assignments` of `agents/intake_agent.py` reports per unknown agent. */
  const AgentUnknownPrefix := "[IntakeAgent] Unknown agent assigned: "

  /** Every assignment names a registry key. */
  predicate AllAllowed(s: seq<Assignment>, allowed: seq<string>) {
    forall i :: 0 <= i < |s| ==> s[i].agent in allowed
  }

  /** Assignment `i` is flagged `finish` and no later one is. */
  predicate IsLastFinish(s: seq<Assignment>, i: int) {
    0 <= i < |s| && s[i].finish && forall j :: i < j < |s| ==> !s[j].finish
  }

  /** Some assignment is flagged `finish`. */
  predicate AnyFinished(s: seq<Assignment>) {
    exists i :: 0 <= i < |s| && s[i].finish
  }

  /**
   * The validation report: one line `prefix + name` for every assignment
   * whose agent is not a registry key, in assignment order.
   */
  function UnknownAgentLines(s: seq<Assignment>, allowed: seq<string>, prefix: string): (lines: seq<string>)
    ensures |lines| <= |s|
  {
    if s == [] then []
    else
      var init := UnknownAgentLines(s[..|s| - 1], allowed, prefix);
      var last := s[|s| - 1];
      if last.agent in allowed then init else init + [prefix + last.agent]
  }

  /** The report is empty exactly when every agent is allowed. */
  lemma {:induction false} UnknownAgentLinesEmpty(s: seq<Assignment>, allowed: seq<string>, prefix: string)
    ensures UnknownAgentLines(s, allowed, prefix) == [] <==> AllAllowed(s, allowed)
  {
    if s != [] {
      var init := s[..|s| - 1];
      UnknownAgentLinesEmpty(init, allowed, prefix);
      assert forall i :: 0 <= i < |init| ==> init[i] == s[i];
    }
  }

  /** Every unknown agent has its line in the report. */
  lemma {:induction false} UnknownAgentLinesComplete(s: seq<Assignment>, allowed: seq<string>, prefix: string)
    ensures forall i :: 0 <= i < |s| && s[i].agent !in allowed ==> prefix + s[i].agent in UnknownAgentLines(s, allowed, prefix)
  {
    if s != [] {
      var init := s[..|s| - 1];
      UnknownAgentLinesComplete(init, allowed, prefix);
      var lines := UnknownAgentLines(s, allowed, prefix);
      forall i | 0 <= i < |s| && s[i].agent !in allowed ensures prefix + s[i].agent in lines {
        if i < |init| {
          assert init[i] == s[i];
        }
      }
    }
  }

  /** Every line of the report names an unknown agent. */
  lemma {:induction false} UnknownAgentLinesSound(s: seq<Assignment>, allowed: seq<string>, prefix: string)
    ensures forall k :: 0 <= k < |UnknownAgentLines(s, allowed, prefix)| ==>
      exists i :: 0 <= i < |s| && s[i].agent !in allowed && UnknownAgentLines(s, allowed, prefix)[k] == prefix + s[i].agent
  {
    if s != [] {
      var init := s[..|s| - 1];
      UnknownAgentLinesSound(init, allowed, prefix);
      var before := UnknownAgentLines(init, allowed, prefix);
      var lines := UnknownAgentLines(s, allowed, prefix);
      forall k | 0 <= k < |lines|
        ensures exists i :: 0 <= i < |s| && s[i].agent !in allowed && lines[k] == prefix + s[i].agent
      {
        if k < |before| {
          var i :| 0 <= i < |init| && init[i].agent !in allowed && before[k] == prefix + init[i].agent;
          assert init[i] == s[i];
          assert lines[k] == before[k];
        } else {
          var last := |s| - 1;
          assert s[last].agent !in allowed && lines == before + [prefix + s[last].agent];
          assert lines[k] == prefix + s[last].agent;
        }
      }
    } else {
      assert UnknownAgentLines(s, allowed, prefix) == [];
    }
  }

  /**
   * The three together: the report is empty exactly when every agent is
   * allowed, it has a line for every unknown agent, and each of its lines
   * names an unknown agent.
   */
  lemma UnknownAgentLinesSpec(s: seq<Assignment>, allowed: seq<string>, prefix: string)
    ensures UnknownAgentLines(s, allowed, prefix) == [] <==> AllAllowed(s, allowed)
    ensures forall i :: 0 <= i < |s| && s[i].agent !in allowed ==> prefix + s[i].agent in UnknownAgentLines(s, allowed, prefix)
    ensures forall k :: 0 <= k < |UnknownAgentLines(s, allowed, prefix)| ==>
      exists i :: 0 <= i < |s| && s[i].agent !in allowed && UnknownAgentLines(s, allowed, prefix)[k] == prefix + s[i].agent
  {
    UnknownAgentLinesEmpty(s, allowed, prefix);
    UnknownAgentLinesComplete(s, allowed, prefix);
    UnknownAgentLinesSound(s, allowed, prefix);
  }

  /** The report of a concatenation is the concatenation of the reports: lines keep assignment order. */
  lemma {:induction false} UnknownAgentLinesAppend(a: seq<Assignment>, b: seq<Assignment>, allowed: seq<string>, prefix: string)
    ensures UnknownAgentLines(a + b, allowed, prefix) == UnknownAgentLines(a, allowed, prefix) + UnknownAgentLines(b, allowed, prefix)
    decreases |b|
  {
    if b == [] {
      assert a + b == a;
    } else {
      assert (a + b)[..|a + b| - 1] == a + b[..|b| - 1];
      UnknownAgentLinesAppend(a, b[..|b| - 1], allowed, prefix);
    }
  }

  /**
   * `validate_assignments(assignments, allowed_agents)`: the loop collects a
   * line for every unknown agent and, if there is any, raises with the lines
   * joined by `"\n"`; `None` means it returned normally.
   */
  method ValidateAssignments(s: seq<Assignment>, allowed: seq<string>, prefix: string) returns (error: Option<string>)
    ensures error.None? <==> AllAllowed(s, allowed)
    ensures error.Some? ==> error.value == Join(UnknownAgentLines(s, allowed, prefix), "\n")
  {
    var errors: seq<string> := [];
    for i := 0 to |s|
      invariant errors == UnknownAgentLines(s[..i], allowed, prefix)
    {
      assert s[..i + 1][..i] == s[..i];
      if s[i].agent !in allowed {
        errors := errors + [prefix + s[i].agent];
      }
    }
    assert s[..|s|] == s;
    UnknownAgentLinesSpec(s, allowed, prefix);
    if errors != [] {
      error := Some(Join(errors, "\n"));
    } else {
      error := None;
    }
  }

  /**
   * The raised message reads back as exactly one line per unknown agent,
   * in order, when neither the prefix nor those names contain a line break.
   */
  lemma ValidationMessageLines(s: seq<Assignment>, allowed: seq<string>, prefix: string)
    requires exists i :: 0 <= i < |s| && s[i].agent !in allowed
    requires '\n' !in prefix
    requires forall i :: 0 <= i < |s| && s[i].agent !in allowed ==> '\n' !in s[i].agent
    ensures SplitOn(Join(UnknownAgentLines(s, allowed, prefix), "\n"), '\n') == UnknownAgentLines(s, allowed, prefix)
  {
    var lines := UnknownAgentLines(s, allowed, prefix);
    UnknownAgentLinesSpec(s, allowed, prefix);
    forall k | 0 <= k < |lines| ensures '\n' !in lines[k] {
      var i :| 0 <= i < |s| && s[i].agent !in allowed && lines[k] == prefix + s[i].agent;
    }
    SplitJoin(lines, '\n');
  }

  /**
   * The direct reply chosen among the assignments flagged `finish`: the
   * command of the last such assignment, or `""` when none is flagged.
   */
  function LastFinishCommand(s: seq<Assignment>): (cmd: string)
    ensures !AnyFinished(s) ==> cmd == ""
    ensures AnyFinished(s) ==> exists i :: IsLastFinish(s, i) && cmd == s[i].command
  {
    if s == [] then ""
    else if s[|s| - 1].finish then
      assert IsLastFinish(s, |s| - 1);
      s[|s| - 1].command
    else
      var init := s[..|s| - 1];
      assert forall i :: 0 <= i < |init| ==> init[i] == s[i];
      assert AnyFinished(s) ==> AnyFinished(init);
      assert forall i :: IsLastFinish(init, i) ==> IsLastFinish(s, i);
      LastFinishCommand(init)
  }

  /**
   * The `final_response` loop of both intake agents: when any assignment is
   * flagged `finish`, walk the list and overwrite the reply with the command
   * of every flagged assignment, so the last one wins.
   */
  method SelectFinalResponse(s: seq<Assignment>) returns (finalResponse: string)
    ensures finalResponse == LastFinishCommand(s)
  {
    var isFinished := AnyFinished(s);
    finalResponse := "";
    if isFinished {
      for i := 0 to |s|
        invariant finalResponse == LastFinishCommand(s[..i])
      {
        assert s[..i + 1][..i] == s[..i];
        if s[i].finish {
          finalResponse := s[i].command;
        }
      }
      assert s[..|s|] == s;
    }
  }
}

/** `IntakeAgent.process` of `AG00_intake_agent.py`: classification without error recovery. */
module IntakeOfficer {
  import opened Wrappers
  import opened Text
  import opened Assignments
  import opened Ports
  import opened Intake

  /** `f"[{now}] [IntakeOfficer] input={user_message} assignments={assignments}"`. */
  function OfficerLog(now: string, userMessage: string, shownAssignments: string): string {
    "[" + now + "] [IntakeOfficer] input=" + userMessage + " assignments=" + shownAssignments
  }

  /**
   * One classification pass. `systemPrompt` is the formatted intake prompt,
   * `allowed` the keys of the registry. A failing classifier call and a
   * failing validation both propagate out as the raised text; otherwise the
   * assignments are passed on unchanged, the reply is the command of the
   * last `finish` assignment (or `""`), and there is exactly one log entry.
   */
  method Process(systemPrompt: string, userMessage: string, history: seq<Message>, allowed: seq<string>,
                 classify: Classifier, now: string, show: Show)
    returns (r: Result<IntakeUpdate, string>)
    ensures var reply := classify(BuildMessages(systemPrompt, history, userMessage));
      reply.Failure? ==> r == Failure(reply.error)
    ensures var reply := classify(BuildMessages(systemPrompt, history, userMessage));
      reply.Success? ==>
        var s := reply.value.GetOr([]);
        if AllAllowed(s, allowed)
        then r == Success(IntakeUpdate(s, LastFinishCommand(s), [OfficerLog(now, userMessage, show.assignments(s))]))
        else r == Failure(Join(UnknownAgentLines(s, allowed, OfficerUnknownPrefix), "\n"))
    ensures r.Success? ==> |r.value.logs| == 1
  {
    var prompt := BuildMessages(systemPrompt, history, userMessage);
    var reply := classify(prompt);
    if reply.Failure? {
      return Failure(reply.error);
    }
    var assignments := reply.value.GetOr([]);
    var error := ValidateAssignments(assignments, allowed, OfficerUnknownPrefix);
    if error.Some? {
      return Failure(error.value);
    }
    var finalResponse := SelectFinalResponse(assignments);
    var logMsg := OfficerLog(now, userMessage, show.assignments(assignments));
    r := Success(IntakeUpdate(assignments, finalResponse, [logMsg]));
  }
}

/** `IntakeAgent.process` of `agents/intake_agent.py`: classification that recovers from failure. */
module IntakeAgent {
  import opened Wrappers
  import opened Text
  import opened Assignments
  import opened Ports
  import opened Intake

  function ReceivedLog(now: string, userMessage: string): string {
    "[" + now + "] [IntakeAgent] Received user message: '" + userMessage + "'"
  }

  function PromptLog(now: string, historyCount: nat): string {
    "[" + now + "] [IntakeAgent] Built prompt for LLM. History count: " + NatToString(historyCount)
  }

  function ReturnedLog(now: string, shownAssignments: string): string {
    "[" + now + "] [IntakeAgent] LLM returned assignments: " + shownAssignments
  }

  function FailedLog(now: string, error: string): string {
    "[" + now + "] [IntakeAgent][ERROR] LLM or assignment validation failed: " + error
  }

  function FinishedLog(now: string, finalResponse: string): string {
    "[" + now + "] [IntakeAgent] Conversation finished. Final response: '" + finalResponse + "'"
  }

  function SentLog(now: string, shownNames: string): string {
    "[" + now + "] [IntakeAgent] Assignments sent to next agent(s): " + shownNames
  }

  /**
   * One classification pass that never raises. A failing classifier call or
   * a failing validation clears the assignments and the reply and logs the
   * error; otherwise the assignments pass on unchanged and the reply is the
   * command of the last `finish` assignment (or `""`).
   */
  method Process(systemPrompt: string, userMessage: string, history: seq<Message>, allowed: seq<string>,
                 classify: Classifier, now: string, show: Show)
    returns (r: IntakeUpdate)
    ensures var reply := classify(BuildMessages(systemPrompt, history, userMessage));
      var opening := [ReceivedLog(now, userMessage), PromptLog(now, |history|)];
      && (reply.Failure? ==> r == IntakeUpdate([], "", opening + [FailedLog(now, reply.error)]))
      && (reply.Success? ==>
        var s := reply.value.GetOr([]);
        var returned := ReturnedLog(now, show.assignments(s));
        var closing := if AnyFinished(s) then FinishedLog(now, LastFinishCommand(s))
          else SentLog(now, show.strings(AgentNames(s)));
        if !AllAllowed(s, allowed)
        then r == IntakeUpdate([], "", opening + [returned,
          FailedLog(now, Join(UnknownAgentLines(s, allowed, AgentUnknownPrefix), "\n"))])
        else r == IntakeUpdate(s, LastFinishCommand(s), opening + [returned, closing]))
    ensures r.finalResponse != "" ==> AnyFinished(r.assignedAgents)
  {
    var opening := [ReceivedLog(now, userMessage), PromptLog(now, |history|)];
    var prompt := BuildMessages(systemPrompt, history, userMessage);
    var reply := classify(prompt);
    if reply.Failure? {
      return IntakeUpdate([], "", opening + [FailedLog(now, reply.error)]);
    }
    var assignments := reply.value.GetOr([]);
    var returned := ReturnedLog(now, show.assignments(assignments));
    var error := ValidateAssignments(assignments, allowed, AgentUnknownPrefix);
    if error.Some? {
      return IntakeUpdate([], "", opening + [returned, FailedLog(now, error.value)]);
    }
    var isFinished := AnyFinished(assignments);
    var finalResponse := SelectFinalResponse(assignments);
    var closing;
    if isFinished {
      closing := FinishedLog(now, finalResponse);
    } else {
      closing := SentLog(now, show.strings(AgentNames(assignments)));
    }
    r := IntakeUpdate(assignments, finalResponse, opening + [returned, closing]);
  }
}
