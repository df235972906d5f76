/**
 * What every run of the gateway guarantees, read off its log: the lifecycle, which calls reach the
 * upstream, which responses reach the client, and what a session grant can ever authorise.
 */
module GatewayTheorems {
  import opened Basics
  import opened Json
  import opened Models
  import opened Evaluator
  import opened Approval
  import opened Grants
  import opened Gateway
  import opened GatewayRuns
  import Response

  function LogOf(c: Config, present: bool, closed: bool, turns: seq<Turn>): seq<Event> {
    Run(c, FreshProvider(present, closed), turns).log
  }

  lemma {:induction false} LawfulAt(c: Config, log: seq<Event>, i: nat)
    requires Lawful(c, log) && i < |log|
    ensures Lawful(c, log[..i]) && LawfulEvent(c, log[..i], log[i])
  {
    if i < |log| - 1 {
      assert log[..|log| - 1][..i] == log[..i];
      LawfulAt(c, log[..|log| - 1], i);
    }
  }

  lemma RunLawfulAt(c: Config, present: bool, closed: bool, turns: seq<Turn>, i: nat) returns (log: seq<Event>)
    requires i < |LogOf(c, present, closed, turns)|
    ensures log == LogOf(c, present, closed, turns) && Lawful(c, log) && LawfulEvent(c, log[..i], log[i])
  {
    EveryRunIsSound(c, present, closed, turns);
    log := LogOf(c, present, closed, turns);
    LawfulAt(c, log, i);
  }

  // ----- the lifecycle -----------------------------------------------------------------------------------

  function PhaseRank(p: Phase): nat {
    match p
    case New => 0
    case Initialized => 1
    case Ready => 2
  }

  /** One event moves the phase at most one step forward. */
  lemma PhaseStep(c: Config, log: seq<Event>, i: nat)
    requires Lawful(c, log) && i < |log|
    ensures var before, after := PhaseOf(log[..i]), PhaseOf(log[..i + 1]);
            || after == before
            || (before == New && after == Initialized && log[i].Relayed? && Method(log[i].message) == Str("initialize"))
            || (before == Initialized && after == Ready && log[i].Forwarded?
                && Method(log[i].message) == Str("notifications/initialized"))
  {
    assert log[..i + 1][..i] == log[..i];
    LawfulAt(c, log, i);
    if log[i].Relayed? && Method(log[i].message) == Str("initialize") {
      assert JustForwarded(log[..i], log[i].message);
      LawfulAt(c, log, i - 1);
      assert log[..i][..i - 1] == log[..i - 1];
    }
  }

  lemma {:induction false} PhaseOnlyMovesForward(c: Config, log: seq<Event>, i: nat, j: nat)
    requires Lawful(c, log) && i <= j <= |log|
    ensures PhaseRank(PhaseOf(log[..i])) <= PhaseRank(PhaseOf(log[..j]))
    decreases j
  {
    if i < j {
      PhaseOnlyMovesForward(c, log, i, j - 1);
      PhaseStep(c, log, j - 1);
    }
  }

  /** A phase other than the first was reached by the one event that leads to it. */
  lemma {:induction false} PhaseWasReached(c: Config, log: seq<Event>, n: nat) returns (k: int)
    requires Lawful(c, log) && n <= |log| && PhaseOf(log[..n]) != New
    ensures 0 <= k < n && PhaseRank(PhaseOf(log[..k])) + 1 == PhaseRank(PhaseOf(log[..n]))
    ensures if PhaseOf(log[..n]) == Ready
            then log[k].Forwarded? && Method(log[k].message) == Str("notifications/initialized")
            else log[k].Relayed? && Method(log[k].message) == Str("initialize")
  {
    PhaseStep(c, log, n - 1);
    k := n - 1;
    if PhaseOf(log[..n - 1]) == PhaseOf(log[..n]) {
      k := PhaseWasReached(c, log, n - 1);
    }
  }

  /** A request for the handshake: protocol revision, capabilities and client information. */
  predicate InitializeRequest(m: Object) {
    && Get(m, "method") == Str("initialize") && "id" in m && Get(m, "params").Obj?
    && var params := Get(m, "params").fields;
       Get(params, "protocolVersion") == Str("2025-11-25") && Get(params, "capabilities").Obj? && Get(params, "clientInfo").Obj?
  }

  /** An answer to it: the same revision and the upstream's capabilities. */
  predicate InitializeAnswer(response: Object) {
    && Get(response, "result").Obj?
    && var result := Get(response, "result").fields;
       Get(result, "protocolVersion") == Str("2025-11-25") && Get(result, "capabilities").Obj?
  }

  lemma InitializeAnswerIff(response: Object)
    ensures InitializeAnswer(response) <==> GoodInitializeResponse(response)
  {
  }

  lemma GoodInitializeIs(m: Object, phase: Phase)
    requires GoodControl(m, phase) && Method(m) == Str("initialize")
    ensures InitializeRequest(m) && phase == New
  {
  }

  /** The handshake of a session: request and answer agree on the protocol revision. */
  predicate Handshake(c: Config, log: seq<Event>, j: int) {
    && 0 < j < |log| && log[j - 1].Forwarded? && log[j].Relayed? && log[j].message == log[j - 1].message
    && c.parse(log[j - 1].line) == Some(log[j].message)
    && InitializeRequest(log[j].message) && InitializeAnswer(log[j].response)
  }

  lemma RelayedInitialize(c: Config, log: seq<Event>, j: nat)
    requires Lawful(c, log) && j < |log| && log[j].Relayed? && Method(log[j].message) == Str("initialize")
    ensures Handshake(c, log, j)
  {
    var m := log[j].message;
    assert "tools/call"[0] == 't' && "initialize"[0] == 'i';
    LawfulAt(c, log, j);
    assert JustForwarded(log[..j], m);
    LawfulAt(c, log, j - 1);
    GoodInitializeIs(m, PhaseOf(log[..j - 1]));
    InitializeAnswerIff(log[j].response);
  }

  /**
   * Before any tools/call or tools/list is written upstream, an initialize request with the protocol
   * revision, capabilities and client information was forwarded, an answer with that revision and
   * capabilities was relayed for it, and after that the initialized notification was forwarded.
   */
  lemma ToolsNeedTheWholeLifecycle(c: Config, present: bool, closed: bool, turns: seq<Turn>, i: nat) returns (j: int, k: int)
    requires i < |LogOf(c, present, closed, turns)|
    requires var e := LogOf(c, present, closed, turns)[i];
             e.Forwarded? && (Method(e.message) == TOOLS_CALL || Method(e.message) == Str("tools/list"))
    ensures var log := LogOf(c, present, closed, turns);
            && 0 <= j < k < i && Handshake(c, log, j)
            && log[k].Forwarded? && Method(log[k].message) == Str("notifications/initialized")
  {
    var log := RunLawfulAt(c, present, closed, turns, i);
    k := PhaseWasReached(c, log, i);
    j := PhaseWasReached(c, log, k);
    RelayedInitialize(c, log, j);
  }

  // ----- calls and responses ------------------------------------------------------------------------------

  /** The functions a deployment passes: the MCP evaluation and the response scan of this repository. */
  ghost predicate Deployed(c: Config, lib: Library, sc: Response.Scanner, policy: Policy) {
    && (forall m: Object :: c.evaluate(m) == McpEvaluated(lib, m, policy))
    && (forall m: Object, r: Object :: c.scan(m, r) == Response.ResponseScanned(sc, m, r))
    && (forall j: Json :: c.encodable(j) == sc.encodable(j))
  }

  lemma NoTaskCalls(c: Config, lib: Library, sc: Response.Scanner, policy: Policy, m: Object)
    requires Deployed(c, lib, sc, policy) && c.evaluate(m).Ok?
    requires c.evaluate(m).value.evaluation.decision == Allow || CallRequest(c, m, c.evaluate(m).value).Ok?
    ensures !c.evaluate(m).value.call.taskAugmented
  {
    if c.evaluate(m).value.call.taskAugmented {
      TaskCallsAreNeverAllowed(lib, m, policy);
    }
  }

  /** What must stand in the log before the call at position `i`. */
  predicate PermittedAt(c: Config, log: seq<Event>, i: nat)
    requires i < |log| && log[i].Forwarded?
  {
    var m := log[i].message;
    && PhaseOf(log[..i]) == Ready && c.parse(log[i].line) == Some(m) && c.evaluate(m).Ok?
    && match c.evaluate(m).value.evaluation.decision
       case Allow => i > 0 && log[i - 1] == Received(log[i].line)
       case Warn =>
         && i > 1 && log[i - 2] == Received(log[i].line) && log[i - 1].Asked?
         && log[i - 1].question == OfCall(m, c.evaluate(m).value)
         && CallRequest(c, m, c.evaluate(m).value) == Ok(log[i - 1].ask.request)
         && log[i - 1].ask.outcome.approved
       case Deny => false
  }

  lemma LawfulCallsArePermitted(c: Config, log: seq<Event>, i: nat)
    requires Lawful(c, log) && i < |log| && log[i].Forwarded? && Method(log[i].message) == TOOLS_CALL
    ensures PermittedAt(c, log, i)
  {
    LawfulAt(c, log, i);
    var m := log[i].message;
    assert CallCleared(c, log[..i], log[i].line, m);
    if c.evaluate(m).value.evaluation.decision == Warn {
      LawfulAt(c, log, i - 1);
      assert log[..i][..i - 1] == log[..i - 1];
    }
  }

  /**
   * A tools/call is written upstream only in phase ready and only as the line just read; never when
   * it is denied or task-augmented; on a warning only right after an approval of that very call.
   */
  lemma ForwardedCallsWerePermitted(c: Config, lib: Library, sc: Response.Scanner, policy: Policy,
                                    present: bool, closed: bool, turns: seq<Turn>, i: nat)
    requires Deployed(c, lib, sc, policy) && i < |LogOf(c, present, closed, turns)|
    requires LogOf(c, present, closed, turns)[i].Forwarded? && Method(LogOf(c, present, closed, turns)[i].message) == TOOLS_CALL
    ensures var log := LogOf(c, present, closed, turns);
            PermittedAt(c, log, i) && !c.evaluate(log[i].message).value.call.taskAugmented
  {
    var log := RunLawfulAt(c, present, closed, turns, i);
    LawfulCallsArePermitted(c, log, i);
    NoTaskCalls(c, lib, sc, policy, log[i].message);
  }

  /**
   * A tool response is written to the client only when its scan is clean, or right after an approval
   * of that very response; either way it directly answers the call that was just forwarded.
   */
  lemma RelayedResponsesWereCleared(c: Config, present: bool, closed: bool, turns: seq<Turn>, i: nat)
    requires i < |LogOf(c, present, closed, turns)|
    requires LogOf(c, present, closed, turns)[i].Relayed? && Method(LogOf(c, present, closed, turns)[i].message) == TOOLS_CALL
    ensures var log := LogOf(c, present, closed, turns);
            var m, response := log[i].message, log[i].response;
            && Correlates(response, Id(m)) && c.scan(m, response).Ok?
            && if c.scan(m, response).value.outcome == Clean
               then i > 0 && log[i - 1].Forwarded? && log[i - 1].message == m
               else
                 && i > 1 && log[i - 2].Forwarded? && log[i - 2].message == m && log[i - 1].Asked?
                 && log[i - 1].question == OfResponse(m, response, c.scan(m, response).value)
                 && ResponseRequest(c, m, c.scan(m, response).value) == Ok(log[i - 1].ask.request)
                 && log[i - 1].ask.outcome.approved
  {
    var log := RunLawfulAt(c, present, closed, turns, i);
    if c.scan(log[i].message, log[i].response).value.outcome != Clean {
      LawfulAt(c, log, i - 1);
      assert log[..i][..i - 1] == log[..i - 1];
    }
  }

  /** The response of a tools/call may go to the client at this point of the log. */
  predicate ClearedBy(c: Config, log: seq<Event>, m: Object, response: Object, n: nat) {
    n <= |log| && ResponseCleared(c, log[..n], m, response)
  }

  /** What an unfinished write may still deliver late was cleared in the same way. */
  lemma LateResponsesWereCleared(c: Config, present: bool, closed: bool, turns: seq<Turn>, m: Object, response: Object) returns (n: nat)
    requires Relayed(m, response) in Run(c, FreshProvider(present, closed), turns).unconfirmed
    ensures ClearedBy(c, LogOf(c, present, closed, turns), m, response, n)
  {
    EveryRunIsSound(c, present, closed, turns);
    var log := LogOf(c, present, closed, turns);
    assert MayArrive(c, log, Relayed(m, response));
    n :| n <= |log| && LawfulEvent(c, log[..n], Relayed(m, response));
  }

  // ----- grants in runs -----------------------------------------------------------------------------------

  lemma {:induction false} AskPosition(log: seq<Event>, i: nat)
    requires i < |log| && log[i].Asked?
    ensures |AsksIn(log[..i])| < |AsksIn(log)|
    ensures AsksIn(log)[..|AsksIn(log[..i])|] == AsksIn(log[..i]) && AsksIn(log)[|AsksIn(log[..i])|] == log[i].ask
  {
    if i < |log| - 1 {
      var init := log[..|log| - 1];
      assert init[..i] == log[..i] && init[i] == log[i];
      AskPosition(init, i);
    }
  }

  lemma {:induction false} PositionOfAsk(log: seq<Event>, k: nat) returns (i: int)
    requires k < |AsksIn(log)|
    ensures 0 <= i < |log| && log[i].Asked? && log[i].ask == AsksIn(log)[k] && |AsksIn(log[..i])| == k
  {
    var init := log[..|log| - 1];
    if k < |AsksIn(init)| {
      i := PositionOfAsk(init, k);
      assert init[..i] == log[..i];
    } else {
      i := |log| - 1;
    }
  }

  lemma {:induction false} AsksGrow(log: seq<Event>, i: nat, j: nat)
    requires i <= j <= |log|
    ensures |AsksIn(log[..i])| <= |AsksIn(log[..j])|
    decreases j
  {
    if i < j {
      AsksGrow(log, i, j - 1);
      assert log[..j][..j - 1] == log[..j - 1];
    }
  }

  predicate ReusedAt(log: seq<Event>, i: nat) {
    i < |log| && log[i].Asked? && log[i].ask.outcome.source == SessionGrant
  }

  predicate GrantedAt(log: seq<Event>, j: int, scope: Json) {
    0 <= j < |log| && log[j].Asked? && GivesGrant(log[j].ask, scope) && log[j].ask.request.grantAllowed
  }

  /** The grants an operator gave for a scope and how often it was reused since, as the log shows. */
  predicate WithinGrant(log: seq<Event>, j: int, i: nat) {
    0 <= j < i < |log| && log[j].Asked? && log[i].Asked? &&
    (var given, scope := Given(log[j].ask.request, log[j].ask.moment), log[i].ask.request.scopeFingerprint;
     && log[i].ask.moment.now < log[j].ask.moment.later + given.ttl as real
     && given.ttl <= MAX_GRANT_TTL_SECONDS && given.uses <= MAX_GRANT_USES
     && ReusesSince(AsksIn(log[..i + 1]), scope, |AsksIn(log[..j + 1])|) <= given.uses)
  }

  /** In every run a session grant goes back to an explicit grant for the same scope. */
  lemma ReuseFollowsGrant(c: Config, present: bool, closed: bool, turns: seq<Turn>, i: nat) returns (j: int)
    requires ReusedAt(LogOf(c, present, closed, turns), i)
    ensures var log := LogOf(c, present, closed, turns);
            GrantedAt(log, j, log[i].ask.request.scopeFingerprint) && j < i && WithinGrant(log, j, i)
  {
    EveryRunIsSound(c, present, closed, turns);
    var log := LogOf(c, present, closed, turns);
    j := LogReuseFollowsGrant(closed, log, i);
  }

  /** Where an ask of the history stands in the log. */
  lemma AskUpTo(log: seq<Event>, i: nat)
    requires i < |log| && log[i].Asked?
    ensures var k := |AsksIn(log[..i])|;
            k < |AsksIn(log)| && AsksIn(log)[k] == log[i].ask && AsksIn(log)[..k + 1] == AsksIn(log[..i + 1])
            && |AsksIn(log[..i + 1])| == k + 1
  {
    AskPosition(log, i);
    assert log[..i + 1][..i] == log[..i];
    assert AsksIn(log[..i + 1]) == AsksIn(log[..i]) + [log[i].ask];
  }

  /** A bound on the history of asks read at positions of the log. */
  lemma HistoryBoundInLog(log: seq<Event>, h: seq<Ask>, j: int, i: nat, k0: int, k: nat)
    requires 0 <= j < i < |log| && log[j].Asked? && log[i].Asked? && 0 <= k0 < k < |h|
    requires h[k0] == log[j].ask && h[k] == log[i].ask
    requires h[..k + 1] == AsksIn(log[..i + 1]) && |AsksIn(log[..j + 1])| == k0 + 1
    requires var given := Given(h[k0].request, h[k0].moment);
             && h[k].moment.now < h[k0].moment.later + given.ttl as real && given.ttl <= MAX_GRANT_TTL_SECONDS
             && ReusesSince(h[..k + 1], h[k].request.scopeFingerprint, k0 + 1) <= given.uses <= MAX_GRANT_USES
    ensures WithinGrant(log, j, i)
  {
  }

  lemma EarlierAsk(log: seq<Event>, j: nat, i: nat)
    requires j < |log| && i < |log| && |AsksIn(log[..j])| < |AsksIn(log[..i])|
    ensures j < i
  {
    if i <= j {
      AsksGrow(log, i, j);
    }
  }

  lemma LogReuseFollowsGrant(closed: bool, log: seq<Event>, i: nat) returns (j: int)
    requires ReusedAt(log, i) && (AsksIn(log) == [] || Genuine(closed, AsksIn(log)))
    ensures GrantedAt(log, j, log[i].ask.request.scopeFingerprint) && j < i && WithinGrant(log, j, i)
  {
    var h, k := AsksIn(log), |AsksIn(log[..i])|;
    AskUpTo(log, i);
    var k0 := ReuseGoesBackToAGrant(closed, h, k);
    j := PositionOfAsk(log, k0);
    AskUpTo(log, j);
    EarlierAsk(log, j, i);
    HistoryBoundInLog(log, h, j, i, k0, k);
  }

  lemma CallRequestScope(c: Config, m: Object, result: GatewayResult)
    requires CallRequest(c, m, result).Ok?
    ensures CallRequest(c, m, result).value.scopeFingerprint
            == Fingerprint("approval-scope-v1", CallScope(m, result.call, result.capabilities, c.upstream, c.policyHash))
  {
  }

  lemma ResponseRequestScope(c: Config, m: Object, scan: ScanReport)
    requires ResponseRequest(c, m, scan).Ok?
    ensures ResponseRequest(c, m, scan).value.scopeFingerprint
            == Fingerprint("result-approval-scope-v1", ResultScope(m, scan, c.upstream, c.policyHash))
    ensures ResponseRequest(c, m, scan).value.grantAllowed <==> scan.outcome == Review
  {
  }

  lemma FoundTaken(log: seq<Event>, i: nat, n: nat)
    requires i < n <= |log| && (log[i].Forwarded? || log[i].Blocked?) && !Id(log[i].message).Null?
    ensures Id(log[i].message) in TakenIds(log[..n])
    decreases n
  {
    assert log[..n][..n - 1] == log[..n - 1];
    if i < n - 1 {
      FoundTaken(log, i, n - 1);
    }
  }

  predicate HandlesAt(log: seq<Event>, i: nat, id: Json) {
    i < |log| && (log[i].Forwarded? || log[i].Blocked?) && Id(log[i].message) == id
  }

  lemma LogHandlesOnce(c: Config, log: seq<Event>, i: nat, j: nat, id: Json)
    requires Lawful(c, log) && i < j && HandlesAt(log, i, id) && HandlesAt(log, j, id)
    ensures id == Null
  {
    LawfulAt(c, log, j);
    if id != Null {
      FoundTaken(log, i, j);
    }
  }

  /** No non-null id is forwarded or blocked twice. */
  lemma NoIdIsHandledTwice(c: Config, present: bool, closed: bool, turns: seq<Turn>, i: nat, j: nat, id: Json)
    requires i < j && HandlesAt(LogOf(c, present, closed, turns), i, id) && HandlesAt(LogOf(c, present, closed, turns), j, id)
    ensures id == Null
  {
    EveryRunIsSound(c, present, closed, turns);
    LogHandlesOnce(c, LogOf(c, present, closed, turns), i, j, id);
  }

  lemma AnswerIdIsRequestId(response: Object, id1: Json, id2: Json)
    requires Correlates(response, id1) && Correlates(response, id2) && GoodId(id1) && GoodId(id2)
    ensures id1 == id2
  {
    if id1.Int? && id2.Int? {
      assert id1.n as real == id2.n as real;
      assert (id1.n as real).Floor == (id2.n as real).Floor;
    }
  }

  lemma ForwardedIdsAreGood(c: Config, log: seq<Event>, i: nat)
    requires Lawful(c, log) && i < |log| && log[i].Forwarded?
    ensures GoodId(Id(log[i].message))
  {
    LawfulAt(c, log, i);
  }

  /** Two release requests of one scope, the first of which could be granted: the same response, for review. */
  lemma ReleaseScopeBinds(c: Config, lib: Library, sc: Response.Scanner, policy: Policy,
                          m1: Object, r1: Object, s1: ScanReport, m2: Object, r2: Object, s2: ScanReport)
    requires Deployed(c, lib, sc, policy) && c.scan(m1, r1) == Ok(s1) && c.scan(m2, r2) == Ok(s2)
    requires ResponseRequest(c, m1, s1).Ok? && ResponseRequest(c, m2, s2).Ok?
    requires ResponseRequest(c, m1, s1).value.grantAllowed
    requires ResponseRequest(c, m1, s1).value.scopeFingerprint == ResponseRequest(c, m2, s2).value.scopeFingerprint
    ensures r1 == r2 && SameParams(m1, m2) && s2.outcome == Review
  {
    ResponseRequestScope(c, m1, s1);
    ResponseRequestScope(c, m2, s2);
    ResultScopeBinds(m1, s1, c.upstream, c.policyHash, m2, s2, c.upstream, c.policyHash);
    Response.ReceiptFixesOutcome(sc, m1, r1, m2, r2);
    Response.ResultFixesResponse(sc, m1, r1, m2, r2);
  }

  lemma ReleaseQuestion(c: Config, log: seq<Event>, i: nat)
    requires Lawful(c, log) && i < |log| && log[i].Asked? && log[i].question.OfResponse?
    ensures var q := log[i].question;
            && c.scan(q.message, q.response) == Ok(q.scan) && ResponseRequest(c, q.message, q.scan) == Ok(log[i].ask.request)
            && i > 0 && log[i - 1].Forwarded? && log[i - 1].message == q.message
            && Correlates(q.response, Id(q.message)) && GoodId(Id(q.message))
  {
    LawfulAt(c, log, i);
    assert JustForwarded(log[..i], log[i].question.message);
    ForwardedIdsAreGood(c, log, i - 1);
  }

  /** The same response cannot answer two requests that carry an id. */
  lemma SameResponseMeansNoId(c: Config, log: seq<Event>, j: nat, i: nat)
    requires Lawful(c, log) && j < i < |log| && log[j].Asked? && log[i].Asked?
    requires log[j].question.OfResponse? && log[i].question.OfResponse?
    requires log[j].question.response == log[i].question.response
    ensures Id(log[i].question.message) == Null
  {
    ReleaseQuestion(c, log, i);
    ReleaseQuestion(c, log, j);
    AnswerIdIsRequestId(log[i].question.response, Id(log[j].question.message), Id(log[i].question.message));
    LogHandlesOnce(c, log, j - 1, i - 1, Id(log[i].question.message));
  }

  lemma QuestionsDoNotMix(c: Config, log: seq<Event>, j: nat, i: nat)
    requires Lawful(c, log) && j < |log| && i < |log| && log[j].Asked? && log[i].Asked?
    requires log[j].question.OfCall? && log[i].question.OfResponse?
    ensures log[j].ask.request.scopeFingerprint != log[i].ask.request.scopeFingerprint
  {
    LawfulAt(c, log, j);
    LawfulAt(c, log, i);
    var g, q := log[j].question, log[i].question;
    CallRequestScope(c, g.message, g.result);
    ResponseRequestScope(c, q.message, q.scan);
    ScopesAreSeparate(CallScope(g.message, g.result.call, g.result.capabilities, c.upstream, c.policyHash),
                      ResultScope(q.message, q.scan, c.upstream, c.policyHash));
  }

  /** A pre-flight grant never releases a response, and a release grant never lets a call through. */
  lemma GrantsStayOnTheirSide(c: Config, present: bool, closed: bool, turns: seq<Turn>, i: nat) returns (j: int)
    requires ReusedAt(LogOf(c, present, closed, turns), i)
    ensures var log := LogOf(c, present, closed, turns);
            && Lawful(c, log)
            && GrantedAt(log, j, log[i].ask.request.scopeFingerprint) && j < i && WithinGrant(log, j, i)
            && (log[j].question.OfCall? <==> log[i].question.OfCall?)
  {
    EveryRunIsSound(c, present, closed, turns);
    j := ReuseFollowsGrant(c, present, closed, turns, i);
    var log := LogOf(c, present, closed, turns);
    if log[j].question.OfCall? && log[i].question.OfResponse? {
      QuestionsDoNotMix(c, log, j, i);
    }
    if log[i].question.OfCall? && log[j].question.OfResponse? {
      QuestionsDoNotMix(c, log, i, j);
    }
  }

  lemma CallQuestion(c: Config, log: seq<Event>, i: nat)
    requires Lawful(c, log) && i < |log| && log[i].Asked? && log[i].question.OfCall?
    ensures CallRequest(c, log[i].question.message, log[i].question.result) == Ok(log[i].ask.request)
  {
    LawfulAt(c, log, i);
  }

  /**
   * A call is let through by a grant only if the operator earlier granted a call of the same tool with
   * the same complete params, in this session, so for the same upstream and policy.
   */
  lemma CallGrantsBind(c: Config, present: bool, closed: bool, turns: seq<Turn>, i: nat) returns (j: int)
    requires ReusedAt(LogOf(c, present, closed, turns), i) && LogOf(c, present, closed, turns)[i].question.OfCall?
    ensures var log := LogOf(c, present, closed, turns);
            && GrantedAt(log, j, log[i].ask.request.scopeFingerprint) && j < i && WithinGrant(log, j, i)
            && log[j].question.OfCall?
            && log[j].question.result.call.name == log[i].question.result.call.name
            && SameParams(log[j].question.message, log[i].question.message)
  {
    j := GrantsStayOnTheirSide(c, present, closed, turns, i);
    var log := LogOf(c, present, closed, turns);
    CallQuestion(c, log, i);
    CallQuestion(c, log, j);
    var q, g := log[i].question, log[j].question;
    CallRequestScope(c, q.message, q.result);
    CallRequestScope(c, g.message, g.result);
    CallScopeBinds(g.message, g.result.call, g.result.capabilities, c.upstream, c.policyHash,
                   q.message, q.result.call, q.result.capabilities, c.upstream, c.policyHash);
  }

  /**
   * A response is released by a grant only if the operator granted the identical response, to the same
   * params, before; it is never a block-next-step response, and since the response holds its id and ids
   * are used once, both requests had the id null.
   */
  lemma ResponseGrantsBind(c: Config, lib: Library, sc: Response.Scanner, policy: Policy,
                           present: bool, closed: bool, turns: seq<Turn>, i: nat) returns (j: int)
    requires Deployed(c, lib, sc, policy)
    requires ReusedAt(LogOf(c, present, closed, turns), i) && LogOf(c, present, closed, turns)[i].question.OfResponse?
    ensures var log := LogOf(c, present, closed, turns);
            && GrantedAt(log, j, log[i].ask.request.scopeFingerprint) && j < i && WithinGrant(log, j, i)
            && log[j].question.OfResponse?
            && log[j].question.response == log[i].question.response
            && SameParams(log[j].question.message, log[i].question.message)
            && log[i].question.scan.outcome == Review
            && Id(log[i].question.message) == Null
  {
    j := GrantsStayOnTheirSide(c, present, closed, turns, i);
    var log := LogOf(c, present, closed, turns);
    ReleaseQuestion(c, log, i);
    ReleaseQuestion(c, log, j);
    var q, g := log[i].question, log[j].question;
    ReleaseScopeBinds(c, lib, sc, policy, g.message, g.response, g.scan, q.message, q.response, q.scan);
    SameResponseMeansNoId(c, log, j, i);
  }

  // ----- runs that end by exception ----------------------------------------------------------------------------

  /** A line that a running session takes past the checks of its id. */
  predicate AdmittedLine(c: Config, s: State, line: string) {
    && s.status == Running && c.parse(line).Some?
    && (var id := Id(c.parse(line).value); GoodId(id) && (id.Null? || id !in s.seen))
  }

  /** A tools/call that a ready session hands to the evaluation. */
  predicate AdmittedCall(c: Config, s: State, line: string) {
    && AdmittedLine(c, s, line) && s.phase == Ready
    && Method(c.parse(line).value) == TOOLS_CALL && "id" in c.parse(line).value
  }

  /** A tools/call the session admits but whose evaluation raises a plain input error. */
  predicate MalformedCall(c: Config, s: State, line: string) {
    AdmittedCall(c, s, line) && c.evaluate(c.parse(line).value).Err?
  }

  /**
   * Such a call ends the whole session by exception: no summary is returned, nothing is written
   * upstream, and the client gets no reply to it, not even a final error.
   */
  lemma MalformedCallsEndTheSession(c: Config, provider: Option<ProviderState>, turns: seq<Turn>, k: nat, cleaned: bool)
    requires k < |turns| && k < MAX_SESSION_MESSAGES && MalformedCall(c, Run(c, provider, turns[..k]), turns[k].line)
    ensures SessionEnding(c, provider, turns, cleaned) == RaisedOut
    ensures Run(c, provider, Within(turns)).log == Run(c, provider, turns[..k]).log + [Received(turns[k].line)]
  {
    MalformedRound(c, Run(c, provider, turns[..k]), turns[k]);
    OverAfterRound(c, provider, turns, k);
  }

  /** A session that one round ends stays as that round left it. */
  lemma OverAfterRound(c: Config, provider: Option<ProviderState>, turns: seq<Turn>, k: nat)
    requires k < |turns| && k < MAX_SESSION_MESSAGES && Stepped(c, Run(c, provider, turns[..k]), turns[k]).status != Running
    ensures Run(c, provider, Within(turns)) == Stepped(c, Run(c, provider, turns[..k]), turns[k])
  {
    RunStep(c, provider, turns, k);
    assert Within(turns)[..k + 1] == turns[..k + 1];
    OverStaysOver(c, provider, Within(turns), k + 1);
  }

  lemma MalformedRound(c: Config, s: State, t: Turn)
    requires MalformedCall(c, s, t.line)
    ensures Stepped(c, s, t).status == Aborted && Stepped(c, s, t).log == s.log + [Received(t.line)]
  {
  }
}
