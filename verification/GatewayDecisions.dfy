/**
 * A deployed gateway, with the policy evaluation of this repository: which calls it writes upstream, read
 * off the name and the arguments of the call itself.
 */
module GatewayDecisions {
  import opened Basics
  import opened Json
  import opened Models
  import opened Evaluator
  import opened Decisions
  import opened Approval
  import opened Grants
  import opened Gateway
  import opened GatewayRuns
  import opened GatewayTheorems
  import opened GatewayForwarding
  import Response

  predicate NameIsListed(lib: Library, name: string, policy: Policy) {
    NameHit(lib, name, PatternsOf(policy.rules, "mcp_tools", "allow_names"))
  }

  /** A call that someone has to authorise: something cautions about it, or the default does. */
  ghost predicate NeedsReview(lib: Library, name: string, a: Object, task: bool, policy: Policy) {
    CautionedCall(lib, name, a, task, policy.rules) || (!NameIsListed(lib, name, policy) && policy.default == Warn)
  }

  // A good call in a ready session goes upstream if and only if the upstream takes it, no deny rule hits
  // its name or one of its arguments, and it is let through: without a review when nothing cautions about it
  // and it is listed or allowed by default; and otherwise when it is not a task, its request can be built, and
  // an operator's line or a live grant authorises it.
  lemma DeployedCallIsForwardedIff(c: Config, lib: Library, sc: Response.Scanner, policy: Policy, s: State, t: Turn,
                                   m: Object, name: string, a: Object, task: bool)
    requires Deployed(c, lib, sc, policy) && AdmittedCall(c, s, t.line) && c.parse(t.line) == Some(m)
    requires ReadsAs(m, name, a, task) && GoodArguments(lib, a)
    ensures c.evaluate(m).Ok?
    ensures ShowsForwarded(s.log, Stepped(c, s, t).log)
            <==> t.upstreamTakes && !DeniedCall(lib, name, a, policy.rules)
                 && if NeedsReview(lib, name, a, task, policy)
                    then !task && RequestFits(c, m, c.evaluate(m).value) && s.provider.Some?
                         && Authorised(s.provider.value, ScopeOfCall(c, m, c.evaluate(m).value), t.callMoment)
                    else NameIsListed(lib, name, policy) || policy.default == Allow
  {
    McpDecisionIff(lib, m, policy, name, a, task);
    McpAcceptedIff(lib, m, policy, name, a, task);
    var result := c.evaluate(m).value;
    CallIsForwardedIff(c, s, t);
    OnlyTasksAreNonApprovable(lib, m, policy);
    if result.evaluation.decision == Warn {
      WarnedCallLetThroughIff(c, s.provider, m, result, t.callMoment);
    }
  }

  // In every run, every tools/call written upstream reads as a call with good arguments that no deny rule
  // hits and that is not a task.
  lemma ForwardedCallsBreakNoDenyRule(c: Config, lib: Library, sc: Response.Scanner, policy: Policy,
                                      present: bool, closed: bool, turns: seq<Turn>, i: nat)
    returns (name: string, a: Object)
    requires Deployed(c, lib, sc, policy) && i < |LogOf(c, present, closed, turns)|
    requires LogOf(c, present, closed, turns)[i].Forwarded? && Method(LogOf(c, present, closed, turns)[i].message) == TOOLS_CALL
    ensures ReadsAs(LogOf(c, present, closed, turns)[i].message, name, a, false) && GoodArguments(lib, a)
    ensures !DeniedCall(lib, name, a, policy.rules)
  {
    var m := LogOf(c, present, closed, turns)[i].message;
    ForwardedCallsWerePermitted(c, lib, sc, policy, present, closed, turns, i);
    var task;
    name, a, task := AcceptedReadsAs(lib, m, policy);
    McpAcceptedIff(lib, m, policy, name, a, task);
    McpDecisionIff(lib, m, policy, name, a, task);
  }
}
