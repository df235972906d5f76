/**
 * Exactly when the gateway lets something through: which calls it writes upstream, which of them carry
 * unclassified arguments, and which responses it releases.
 */
module GatewayForwarding {
  import opened Basics
  import opened Json
  import opened Models
  import opened Evaluator
  import opened Approval
  import opened Grants
  import opened Gateway
  import opened GatewayRuns
  import opened GatewayTheorems
  import Response

  // ----- what a round adds to the streams -----------------------------------------------------------------

  /** `more` continues `log` without a write upstream. */
  predicate QuietlyExtends(log: seq<Event>, more: seq<Event>) {
    log <= more && forall i :: |log| <= i < |more| ==> !more[i].Forwarded?
  }

  predicate ShowsForwarded(log: seq<Event>, more: seq<Event>) {
    exists i :: |log| <= i < |more| && more[i].Forwarded?
  }

  lemma QuietStep(log: seq<Event>, e: Event)
    requires !e.Forwarded?
    ensures QuietlyExtends(log, log + [e])
  {
  }

  lemma QuietTwice(a: seq<Event>, b: seq<Event>, c: seq<Event>)
    requires QuietlyExtends(a, b) && QuietlyExtends(b, c)
    ensures QuietlyExtends(a, c)
  {
    forall i | |a| <= i < |c| ensures !c[i].Forwarded? {
      assert i < |b| ==> c[i] == b[i];
    }
  }

  lemma QuietShows(a: seq<Event>, b: seq<Event>, more: seq<Event>)
    requires a <= b && QuietlyExtends(b, more)
    ensures ShowsForwarded(a, more) <==> ShowsForwarded(a, b)
  {
    if ShowsForwarded(a, b) {
      var i :| |a| <= i < |b| && b[i].Forwarded?;
      assert more[i].Forwarded?;
    }
    if ShowsForwarded(a, more) {
      var i :| |a| <= i < |more| && more[i].Forwarded?;
      assert i < |b| && b[i].Forwarded?;
    }
  }

  lemma SentIsQuiet(c: Config, s: State, e: Event, write: Write)
    requires !e.Forwarded?
    ensures QuietlyExtends(s.log, Sent(c, s, e, write).0.log)
  {
    QuietStep(s.log, e);
  }

  lemma JudgedResponseIsQuiet(c: Config, s: State, verdict: Verdict, m: Object, response: Object, decision: Decision, t: Turn)
    ensures QuietlyExtends(s.log, JudgedResponse(c, s, verdict, m, response, decision, t).0.log)
  {
    SentIsQuiet(c, s, Relayed(m, response), t.client);
    SentIsQuiet(c, s, Withheld(m, response, decision), t.client);
  }

  lemma PostFlightIsQuiet(c: Config, s: State, m: Object, response: Object, scan: ScanReport, moment: Moment)
    ensures QuietlyExtends(s.log, PostFlightJudged(c, s, m, response, scan, moment).0.log)
  {
    if scan.outcome != Clean && s.provider.Some? && ResponseRequest(c, m, scan).Ok? {
      QuietStep(s.log, Asked(OfResponse(m, response, scan), AskAbout(s.provider.value, ResponseRequest(c, m, scan).value, moment)));
    }
  }

  lemma AnsweredIsQuiet(c: Config, s: State, m: Object, t: Turn)
    ensures QuietlyExtends(s.log, Answered(c, s, m, t).0.log)
  {
    var response := CorrelatedResponse(c, t.reply, Id(m));
    if response.Some? {
      SentIsQuiet(c, s, Relayed(m, response.value), t.client);
      if Method(m) == TOOLS_CALL && c.scan(m, response.value).Ok? {
        var scan := c.scan(m, response.value).value;
        var judged := PostFlightJudged(c, s, m, response.value, scan, t.responseMoment);
        PostFlightIsQuiet(c, s, m, response.value, scan, t.responseMoment);
        JudgedResponseIsQuiet(c, judged.0, judged.1, m, response.value, scan.decision, t);
        QuietTwice(s.log, judged.0.log, JudgedResponse(c, judged.0, judged.1, m, response.value, scan.decision, t).0.log);
      }
    }
  }

  lemma PassedRequest(c: Config, s: State, m: Object, t: Turn)
    requires t.upstreamTakes && "id" in m
    ensures Passed(c, s, m, t) == Answered(c, SentUpstream(s, t.line, m), m, t)
  {
  }

  lemma PassedNotification(c: Config, s: State, m: Object, t: Turn)
    requires t.upstreamTakes && "id" !in m
    ensures Passed(c, s, m, t).0.log == SentUpstream(s, t.line, m).log
  {
  }

  lemma PassedShows(c: Config, s: State, m: Object, t: Turn)
    ensures s.log <= Passed(c, s, m, t).0.log
    ensures ShowsForwarded(s.log, Passed(c, s, m, t).0.log) <==> t.upstreamTakes
  {
    if t.upstreamTakes {
      var sent := SentUpstream(s, t.line, m);
      assert sent.log[|s.log|].Forwarded?;
      if "id" in m {
        PassedRequest(c, s, m, t);
        AnsweredIsQuiet(c, sent, m, t);
        QuietShows(s.log, sent.log, Answered(c, sent, m, t).0.log);
      } else {
        PassedNotification(c, s, m, t);
      }
    }
  }

  lemma PreFlightIsQuiet(c: Config, s: State, m: Object, result: GatewayResult, moment: Moment)
    ensures QuietlyExtends(s.log, PreFlight(c, s, m, result, moment).0.log)
  {
    if s.provider.Some? && CallRequest(c, m, result).Ok? {
      QuietStep(s.log, Asked(OfCall(m, result), AskAbout(s.provider.value, CallRequest(c, m, result).value, moment)));
    }
  }

  lemma EndedIsQuiet(c: Config, s: State, signal: Signal, t: Turn)
    ensures QuietlyExtends(s.log, Ended(c, s, signal, t).log)
  {
    QuietStep(s.log, Failed(ErrorId(c, t.line)));
  }

  // ----- which calls are forwarded -----------------------------------------------------------------------------

  /** The call is allowed, or it is a warning and someone authorises it. */
  predicate LetThrough(c: Config, provider: Option<ProviderState>, m: Object, result: GatewayResult, moment: Moment) {
    match result.evaluation.decision
    case Allow => true
    case Warn =>
      && provider.Some? && CallRequest(c, m, result).Ok?
      && OutcomeOf(provider.value, CallRequest(c, m, result).value, moment).approved
    case Deny => false
  }

  lemma PassIff(c: Config, s: State, m: Object, result: GatewayResult, moment: Moment)
    ensures PreFlight(c, s, m, result, moment).1 == Pass <==> LetThrough(c, s.provider, m, result, moment)
  {
  }

  lemma CallDecidedShows(c: Config, s: State, m: Object, result: GatewayResult, t: Turn)
    ensures s.log <= CallDecided(c, s, m, result, t).0.log
    ensures ShowsForwarded(s.log, CallDecided(c, s, m, result, t).0.log)
            <==> LetThrough(c, s.provider, m, result, t.callMoment) && t.upstreamTakes
  {
    var judged := PreFlight(c, s, m, result, t.callMoment);
    var s' := CallDecided(c, s, m, result, t).0;
    PassIff(c, s, m, result, t.callMoment);
    PreFlightIsQuiet(c, s, m, result, t.callMoment);
    match judged.1 {
      case Pass =>
        PassedShows(c, judged.0, m, t);
        ShowsAfterQuiet(s.log, judged.0.log, s'.log);
      case Hold =>
        SentIsQuiet(c, judged.0.(summary := judged.0.summary.(blocked := judged.0.summary.blocked + 1)),
                    Blocked(m, result.evaluation.decision), t.client);
        QuietTwice(s.log, judged.0.log, s'.log);
      case Fault =>
    }
  }

  lemma ShowsAfterQuiet(a: seq<Event>, b: seq<Event>, more: seq<Event>)
    requires QuietlyExtends(a, b) && b <= more
    ensures a <= more && (ShowsForwarded(a, more) <==> ShowsForwarded(b, more))
  {
    forall i | |a| <= i < |b| ensures !more[i].Forwarded? {
      assert more[i] == b[i];
    }
  }

  // A tools/call that a ready session admits is written upstream if and only if the upstream takes the
  // line and the call is allowed, or is a warning that an operator or a live grant authorises.
  lemma CallIsForwardedIff(c: Config, s: State, t: Turn)
    requires AdmittedCall(c, s, t.line) && c.evaluate(c.parse(t.line).value).Ok?
    ensures var m, log' := c.parse(t.line).value, Stepped(c, s, t).log;
            && s.log <= log'
            && (ShowsForwarded(s.log, log')
                <==> LetThrough(c, s.provider, m, c.evaluate(m).value, t.callMoment) && t.upstreamTakes)
  {
    var m := c.parse(t.line).value;
    var heard := Admitted(Logged(s, Received(t.line)), m);
    var handled := CallDecided(c, heard, m, c.evaluate(m).value, t);
    QuietStep(s.log, Received(t.line));
    CallDecidedShows(c, heard, m, c.evaluate(m).value, t);
    ShowsAfterQuiet(s.log, heard.log, handled.0.log);
    EndedIsQuiet(c, handled.0, handled.1, t);
    QuietShows(s.log, handled.0.log, Ended(c, handled.0, handled.1, t).log);
  }

  // ----- unclassified arguments ---------------------------------------------------------------------------------

  /** Everything an approval request needs besides an approvable warning. */
  predicate RequestFits(c: Config, m: Object, result: GatewayResult) {
    && GoodTimeout(c.timeout) && c.upstream.Digest? && c.policyHash.Digest?
    && c.encodable(SemanticRequest(m)) && c.encodable(Str(result.call.name))
  }

  predicate ApprovesOnce(line: string) {
    Words(StripLowerLine(line)) == ["approve"]
  }

  /** A grant within its bounds. */
  predicate GrantsUses(line: string) {
    var parts := Words(StripLowerLine(line));
    |parts| == 3 && parts[0] == "grant" && PyInt(parts[1]).Some? && PyInt(parts[2]).Some?
    && 1 <= PyInt(parts[1]).value <= MAX_GRANT_TTL_SECONDS && 1 <= PyInt(parts[2]).value <= MAX_GRANT_USES
  }

  /** A line that approves: `approve`, or a grant within its bounds. */
  predicate ApprovingLine(line: string) {
    ApprovesOnce(line) || GrantsUses(line)
  }

  /** A live grant of the scope, or else an approving line at an open prompt. */
  predicate Authorised(p: ProviderState, scope: Json, moment: Moment) {
    Live(p.store, scope, moment.now)
    || (!p.closed && moment.line.Some? && ApprovingLine(moment.line.value))
  }

  // Any request is authorised if and only if a live grant covers it, or the prompt is open and the operator
  // approves it once, or grants uses of it and the request allows grants.
  lemma AuthorizedIff(p: ProviderState, request: Request, moment: Moment)
    requires request.requestFingerprint.Digest?
    ensures OutcomeOf(p, request, moment).approved
            <==> Live(p.store, request.scopeFingerprint, moment.now)
                 || (!p.closed && moment.line.Some?
                     && (ApprovesOnce(moment.line.value) || (GrantsUses(moment.line.value) && request.grantAllowed)))
    ensures OutcomeOf(p, request, moment).source == SessionGrant <==> Live(p.store, request.scopeFingerprint, moment.now)
  {
    if moment.line.Some? {
      OnlyExactLinesApprove(moment.line.value, request.requestFingerprint);
    }
  }

  lemma ApprovedIff(p: ProviderState, request: Request, moment: Moment)
    requires request.requestFingerprint.Digest? && request.grantAllowed
    ensures OutcomeOf(p, request, moment).approved <==> Authorised(p, request.scopeFingerprint, moment)
  {
    AuthorizedIff(p, request, moment);
  }

  lemma NamedRule(lib: Library, s: Subject, patterns: seq<string>, rule: string, effect: Effect)
    requires rule != "" && rule[0] != TASKS_UNSUPPORTED[0]
    ensures !NonApprovable(Found(lib, s, patterns, rule, effect))
  {
    if r :| r in Found(lib, s, patterns, rule, effect) && r.rule == TASKS_UNSUPPORTED {
      FoundMember(lib, s, patterns, rule, effect, r);
    }
  }

  lemma NonApprovableAppend(a: seq<Reason>, b: seq<Reason>)
    ensures NonApprovable(a + b) <==> NonApprovable(a) || NonApprovable(b)
  {
    if NonApprovable(a) {
      var r :| r in a && r.rule == TASKS_UNSUPPORTED;
      assert r in a + b;
    }
    if NonApprovable(b) {
      var r :| r in b && r.rule == TASKS_UNSUPPORTED;
      assert r in a + b;
    }
  }

  lemma ActionsAreApprovable(lib: Library, action: Action, rules: Rules)
    ensures !NonApprovable(ActionReasons(lib, action, rules))
  {
    assert TASKS_UNSUPPORTED[0] == 'g';
    match action {
      case Shell(command) =>
        var s := TextSubject(command);
        NamedRule(lib, s, PatternsOf(rules, "shell", "deny_patterns"), "shell.deny_patterns", DenyEffect);
        NamedRule(lib, s, PatternsOf(rules, "shell", "warn_patterns"), "shell.warn_patterns", WarnEffect);
        NonApprovableAppend(Found(lib, s, PatternsOf(rules, "shell", "deny_patterns"), "shell.deny_patterns", DenyEffect),
                            Found(lib, s, PatternsOf(rules, "shell", "warn_patterns"), "shell.warn_patterns", WarnEffect));
      case File(path) =>
        var s := PathSubject(path);
        NamedRule(lib, s, PatternsOf(rules, "files", "deny_paths"), "files.deny_paths", DenyEffect);
        NamedRule(lib, s, PatternsOf(rules, "files", "warn_paths"), "files.warn_paths", WarnEffect);
        NonApprovableAppend(Found(lib, s, PatternsOf(rules, "files", "deny_paths"), "files.deny_paths", DenyEffect),
                            Found(lib, s, PatternsOf(rules, "files", "warn_paths"), "files.warn_paths", WarnEffect));
      case Network(target) =>
        var s := DomainSubject(HostOf(lib, target));
        NamedRule(lib, s, PatternsOf(rules, "network", "deny_domains"), "network.deny_domains", DenyEffect);
    }
  }

  lemma {:induction false} AllActionsAreApprovable(lib: Library, actions: seq<Action>, rules: Rules)
    ensures !NonApprovable(AllActionReasons(lib, actions, rules))
  {
    if actions != [] {
      var init, last := actions[..|actions| - 1], actions[|actions| - 1];
      AllActionsAreApprovable(lib, init, rules);
      ActionsAreApprovable(lib, last, rules);
      NonApprovableAppend(AllActionReasons(lib, init, rules), ActionReasons(lib, last, rules));
    }
  }

  lemma ToolNamesAreApprovable(lib: Library, name: string, rules: Rules)
    ensures !NonApprovable(ToolNameReasons(lib, name, rules))
  {
    assert TASKS_UNSUPPORTED[0] == 'g';
    NamedRule(lib, NameSubject(name), PatternsOf(rules, "mcp_tools", "deny_names"), "mcp_tools.deny_names", DenyEffect);
    NamedRule(lib, TextSubject(name), PatternsOf(rules, "mcp_tools", "warn_if_name_contains"),
              "mcp_tools.warn_if_name_contains", WarnEffect);
  }

  lemma MarksAreApprovableIff(call: ToolCall)
    ensures NonApprovable(GatewayMarks(call)) <==> call.taskAugmented
  {
    var task := Reason(TASKS_UNSUPPORTED, WarnEffect, "task");
    assert call.taskAugmented ==> GatewayMarks(call)[0] == task;
    assert ARGUMENTS_UNCLASSIFIED[8] != TASKS_UNSUPPORTED[8];
  }

  /** The non-approvable mark is there exactly on task-augmented calls. */
  lemma OnlyTasksAreNonApprovable(lib: Library, request: Object, policy: Policy)
    requires McpEvaluated(lib, request, policy).Ok?
    ensures var r := McpEvaluated(lib, request, policy).value;
            NonApprovable(r.evaluation.reasons) <==> r.call.taskAugmented
  {
    var call := ParseMcpToolCall(request).value;
    var actions := CapabilityActions(call).value;
    ToolNamesAreApprovable(lib, call.name, policy.rules);
    MarksAreApprovableIff(call);
    AllActionsAreApprovable(lib, actions, policy.rules);
    NonApprovableAppend(ToolNameReasons(lib, call.name, policy.rules), GatewayMarks(call));
    NonApprovableAppend(ToolNameReasons(lib, call.name, policy.rules) + GatewayMarks(call),
                        AllActionReasons(lib, actions, policy.rules));
  }

  function ScopeOfCall(c: Config, m: Object, result: GatewayResult): Json {
    Fingerprint("approval-scope-v1", CallScope(m, result.call, result.capabilities, c.upstream, c.policyHash))
  }

  lemma WarnedCallLetThroughIff(c: Config, provider: Option<ProviderState>, m: Object, result: GatewayResult, moment: Moment)
    requires result.evaluation.decision == Warn
    ensures LetThrough(c, provider, m, result, moment)
            <==> !NonApprovable(result.evaluation.reasons) && RequestFits(c, m, result)
                 && provider.Some? && Authorised(provider.value, ScopeOfCall(c, m, result), moment)
  {
    if provider.Some? && CallRequest(c, m, result).Ok? {
      CallRequestScope(c, m, result);
      ApprovedIff(provider.value, CallRequest(c, m, result).value, moment);
    }
  }

  // The documents list unclassified requests among those that never reach the upstream. In the code they
  // are warnings: one is forwarded if and only if no deny rule hits it, it is not task-augmented, its
  // approval request can be built, and an operator's line or a live grant authorises it.
  lemma UnclassifiedIsForwardedIff(c: Config, lib: Library, sc: Response.Scanner, policy: Policy, s: State, t: Turn)
    requires Deployed(c, lib, sc, policy) && AdmittedCall(c, s, t.line) && t.upstreamTakes
    requires c.evaluate(c.parse(t.line).value).Ok? && Unclassified(c.evaluate(c.parse(t.line).value).value.call)
    ensures var m := c.parse(t.line).value;
            var result := c.evaluate(m).value;
            ShowsForwarded(s.log, Stepped(c, s, t).log)
            <==> !Blocks(result.evaluation.reasons) && !result.call.taskAugmented && RequestFits(c, m, result)
                 && s.provider.Some? && Authorised(s.provider.value, ScopeOfCall(c, m, result), t.callMoment)
  {
    var m := c.parse(t.line).value;
    CallIsForwardedIff(c, s, t);
    UnclassifiedCallsAreNeverAllowed(lib, m, policy);
    OnlyTasksAreNonApprovable(lib, m, policy);
    if c.evaluate(m).value.evaluation.decision == Warn {
      WarnedCallLetThroughIff(c, s.provider, m, c.evaluate(m).value, t.callMoment);
    }
  }

  // ----- which suspicious responses are released ----------------------------------------------------------------

  /** The same response to equal params scans to the same report, and so has the same release scope. */
  lemma SameResponseSameScope(c: Config, lib: Library, sc: Response.Scanner, policy: Policy, m1: Object, m2: Object, response: Object)
    requires Deployed(c, lib, sc, policy) && SameParams(m1, m2)
    requires c.scan(m1, response).Ok? && c.scan(m2, response).Ok?
    ensures c.scan(m1, response) == c.scan(m2, response)
    ensures ResponseRequest(c, m1, c.scan(m1, response).value) == ResponseRequest(c, m2, c.scan(m2, response).value)
  {
    assert Get(m1, "params") == Get(m2, "params");
    var d1, d2 := Response.ResponseResult(sc, m1, response), Response.ResponseResult(sc, m2, response);
    assert d1.tool == d2.tool && d1.content == d2.content && d1.resultId == d2.resultId;
    assert Response.FindingsOf(sc, d1) == Response.FindingsOf(sc, d2);
  }

  /** An authorisation leaves the grants of other scopes alone. */
  lemma OtherScopesStay(p: ProviderState, request: Request, moment: Moment, scope: Json, now: real)
    requires scope != request.scopeFingerprint
    ensures Live(AfterAuthorize(p, request, moment).store, scope, now) <==> Live(p.store, scope, now)
  {
  }

  lemma LiveAcrossPreFlight(c: Config, s: State, m: Object, result: GatewayResult, moment: Moment, scope: Json, now: real)
    requires s.provider.Some? && Live(s.provider.value.store, scope, now)
    requires forall call :: scope != Fingerprint("approval-scope-v1", call)
    ensures var p := PreFlight(c, s, m, result, moment).0.provider; p.Some? && Live(p.value.store, scope, now)
  {
    if result.evaluation.decision == Warn && CallRequest(c, m, result).Ok? {
      CallRequestScope(c, m, result);
      OtherScopesStay(s.provider.value, CallRequest(c, m, result).value, moment, scope, now);
    }
  }

  /** What a live release grant makes of a response that is not clean. */
  lemma LiveGrantPasses(c: Config, s: State, m: Object, response: Object, scan: ScanReport, moment: Moment)
    requires s.provider.Some? && scan.outcome != Clean && ResponseRequest(c, m, scan).Ok?
    requires Live(s.provider.value.store, ResponseRequest(c, m, scan).value.scopeFingerprint, moment.now)
    ensures var judged := PostFlightJudged(c, s, m, response, scan, moment);
            judged.1 == Pass && judged.0.log == s.log + [Asked(OfResponse(m, response, scan),
              Ask(ResponseRequest(c, m, scan).value, moment, Outcome(true, SessionGrant)))]
  {
  }

  /** A round that forwards a call whose correlated response scans to `scan`. */
  predicate Answers(c: Config, s: State, t: Turn, m: Object, response: Object, scan: ScanReport) {
    && AdmittedCall(c, s, t.line) && c.parse(t.line) == Some(m) && c.evaluate(m).Ok?
    && LetThrough(c, s.provider, m, c.evaluate(m).value, t.callMoment) && t.upstreamTakes
    && CorrelatedResponse(c, t.reply, Id(m)) == Some(response) && c.scan(m, response) == Ok(scan)
  }

  /** The state of such a round right after the call was written upstream. */
  function Upstreamed(c: Config, s: State, t: Turn, m: Object, result: GatewayResult): State {
    SentUpstream(PreFlight(c, Admitted(Logged(s, Received(t.line)), m), m, result, t.callMoment).0, t.line, m)
  }

  lemma LetThroughRound(c: Config, s: State, t: Turn, m: Object, result: GatewayResult)
    requires AdmittedCall(c, s, t.line) && c.parse(t.line) == Some(m) && c.evaluate(m) == Ok(result)
    requires LetThrough(c, s.provider, m, result, t.callMoment) && t.upstreamTakes
    ensures Handled(c, Logged(s, Received(t.line)), t) == Answered(c, Upstreamed(c, s, t, m, result), m, t)
  {
    var heard := Admitted(Logged(s, Received(t.line)), m);
    PassIff(c, heard, m, result, t.callMoment);
    PassedRequest(c, PreFlight(c, heard, m, result, t.callMoment).0, m, t);
  }

  lemma ScannedAnswer(c: Config, s: State, t: Turn, m: Object, response: Object, scan: ScanReport)
    requires Method(m) == TOOLS_CALL
    requires CorrelatedResponse(c, t.reply, Id(m)) == Some(response) && c.scan(m, response) == Ok(scan)
    ensures var judged := PostFlightJudged(c, s, m, response, scan, t.responseMoment);
            Answered(c, s, m, t) == JudgedResponse(c, judged.0, judged.1, m, response, scan.decision, t)
  {
    assert TOOLS_CALL != Str("initialize") by {
      assert "tools/call"[0] != "initialize"[0];
    }
  }

  lemma AnsweringRound(c: Config, s: State, t: Turn, m: Object, response: Object, scan: ScanReport) returns (sent: State, handled: (State, Signal))
    requires Answers(c, s, t, m, response, scan)
    ensures sent == Upstreamed(c, s, t, m, c.evaluate(m).value)
    ensures var judged := PostFlightJudged(c, sent, m, response, scan, t.responseMoment);
            handled == JudgedResponse(c, judged.0, judged.1, m, response, scan.decision, t)
    ensures Stepped(c, s, t) == Ended(c, handled.0, handled.1, t)
  {
    LetThroughRound(c, s, t, m, c.evaluate(m).value);
    sent := Upstreamed(c, s, t, m, c.evaluate(m).value);
    ScannedAnswer(c, sent, t, m, response, scan);
    handled := Answered(c, sent, m, t);
  }

  // The other direction of ResponseGrantsBind: while a grant for the release of a response is live, the
  // identical response to a call with equal params goes to the client without any new answer.
  lemma LiveGrantReleases(c: Config, lib: Library, sc: Response.Scanner, policy: Policy, s: State, t: Turn,
                          granted: Object, m: Object, response: Object, scan: ScanReport)
    requires Deployed(c, lib, sc, policy) && Answers(c, s, t, m, response, scan) && t.client == Written
    requires SameParams(granted, m) && c.scan(granted, response).Ok? && scan.outcome != Clean
    requires ResponseRequest(c, granted, c.scan(granted, response).value).Ok? && s.provider.Some?
    requires Live(s.provider.value.store,
                  ResponseRequest(c, granted, c.scan(granted, response).value).value.scopeFingerprint, t.responseMoment.now)
    ensures var log' := Stepped(c, s, t).log;
            var request := ResponseRequest(c, m, scan);
            && |log'| > 2 && log'[|log'| - 1] == Relayed(m, response) && request.Ok?
            && log'[|log'| - 2] == Asked(OfResponse(m, response, scan),
                                         Ask(request.value, t.responseMoment, Outcome(true, SessionGrant)))
  {
    SameResponseSameScope(c, lib, sc, policy, granted, m, response);
    ResponseRequestScope(c, m, scan);
    var scope := ResponseRequest(c, m, scan).value.scopeFingerprint;
    forall call ensures scope != Fingerprint("approval-scope-v1", call) {
      ScopesAreSeparate(call, ResultScope(m, scan, c.upstream, c.policyHash));
    }
    LiveAcrossPreFlight(c, Admitted(Logged(s, Received(t.line)), m), m, c.evaluate(m).value, t.callMoment, scope, t.responseMoment.now);
    ScannedIsWritable(c, lib, sc, policy, m, response);
    var sent, handled := AnsweringRound(c, s, t, m, response, scan);
    LiveGrantPasses(c, sent, m, response, scan, t.responseMoment);
    DeliveredLast(c, PostFlightJudged(c, sent, m, response, scan, t.responseMoment).0, m, response, t.client);
  }

  /** A response that was scanned has been fingerprinted, so it can be encoded. */
  lemma ScannedIsWritable(c: Config, lib: Library, sc: Response.Scanner, policy: Policy, m: Object, response: Object)
    requires Deployed(c, lib, sc, policy) && !(c.scan(m, response).Err? && c.scan(m, response).error == Unfit)
    ensures Writable(c, response)
  {
  }

  lemma DeliveredLast(c: Config, s: State, m: Object, response: Object, write: Write)
    requires write == Written && Writable(c, response)
    ensures Delivered(c, s, m, response, write).1 == Normal
    ensures Delivered(c, s, m, response, write).0.log == s.log + [Relayed(m, response)]
  {
  }
}
