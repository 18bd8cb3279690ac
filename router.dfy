/**
 * The routing decision taken after intake: end the run when the sentinel
 * agent was assigned, otherwise fan out to every assigned agent name.
 */
module Router {
  import opened Wrappers
  import opened Assignments

  /** The route that ends the workflow without running any handler. */
  const FinishRoute := "finish"

  /**
   * `intake_router(state)`: `assignedAgents` is the state's `assigned_agents`,
   * `None` when the key is missing. With an `END` assignment anywhere the
   * route is exactly `["finish"]`; otherwise it is every agent name, in
   * assignment order, duplicates kept.
   */
  function IntakeRouter(assignedAgents: Option<seq<Assignment>>): (route: seq<string>)
    ensures var s := assignedAgents.GetOr([]);
      (exists i :: 0 <= i < |s| && s[i].agent == EndName) ==> route == [FinishRoute]
    ensures var s := assignedAgents.GetOr([]);
      (forall i :: 0 <= i < |s| ==> s[i].agent != EndName) ==>
        |route| == |s| && forall i :: 0 <= i < |s| ==> route[i] == s[i].agent
    ensures EndName !in route
  {
    var names := AgentNames(assignedAgents.GetOr([]));
    if EndName in names then [FinishRoute] else names
  }

  /** A missing or empty assignment list routes nowhere. */
  lemma RouteOfNothing()
    ensures IntakeRouter(None) == []
    ensures IntakeRouter(Some([])) == []
  {
  }

  /**
   * Only the `agent` fields are consulted: two lists with the same agent
   * names, whatever their commands, results and finish flags, route alike.
   */
  lemma RouteDependsOnlyOnAgents(s: seq<Assignment>, t: seq<Assignment>)
    requires |s| == |t|
    requires forall i :: 0 <= i < |s| ==> s[i].agent == t[i].agent
    ensures IntakeRouter(Some(s)) == IntakeRouter(Some(t))
  {
    assert AgentNames(s) == AgentNames(t);
  }

  /** A handler's write-back cannot change the route. */
  lemma RouteUnchangedByWriteBack(s: seq<Assignment>, agent: string, result: string)
    ensures IntakeRouter(Some(WithResult(s, agent, result))) == IntakeRouter(Some(s))
  {
    WithResultKeepsRouting(s, agent, result);
  }

  /**
   * Every fan-out target is an assigned agent, and every assigned agent is
   * a fan-out target, unless the run finishes.
   */
  lemma RouteTargetsAreAssigned(s: seq<Assignment>)
    ensures var route := IntakeRouter(Some(s));
      route == [FinishRoute] || forall name :: name in route <==> exists i :: 0 <= i < |s| && s[i].agent == name
  {
  }
}
