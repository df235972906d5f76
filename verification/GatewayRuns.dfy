/**
 * Safety over all runs of the gateway session: every log a run can produce is lawful, event by event,
 * and what a lawful log says about lifecycle, forwarded calls, relayed responses and grants.
 */
module GatewayRuns {
  import opened Basics
  import opened Json
  import opened Models
  import opened Evaluator
  import opened Approval
  import opened Grants
  import opened Gateway

  // ----- reading a log ---------------------------------------------------------------------------------

  function Last(log: seq<Event>): Event
    requires log != []
  {
    log[|log| - 1]
  }

  function NextPhase(phase: Phase, e: Event): Phase {
    if e.Relayed? && Method(e.message) == Str("initialize") then Initialized
    else if e.Forwarded? && Method(e.message) == Str("notifications/initialized") then Ready
    else phase
  }

  /** The lifecycle phase as the streams show it. */
  function PhaseOf(log: seq<Event>): Phase {
    if log == [] then New else NextPhase(PhaseOf(log[..|log| - 1]), Last(log))
  }

  function TakenBy(e: Event): set<Json> {
    if (e.Forwarded? || e.Blocked?) && !Id(e.message).Null? then {Id(e.message)} else {}
  }

  /** The non-null ids of forwarded and blocked messages. */
  function TakenIds(log: seq<Event>): set<Json> {
    if log == [] then {} else TakenIds(log[..|log| - 1]) + TakenBy(Last(log))
  }

  predicate FreshId(log: seq<Event>, m: Object) {
    Id(m).Null? || Id(m) !in TakenIds(log)
  }

  function AsksIn(log: seq<Event>): seq<Ask> {
    if log == [] then []
    else if Last(log).Asked? then AsksIn(log[..|log| - 1]) + [Last(log).ask]
    else AsksIn(log[..|log| - 1])
  }

  predicate Open(log: seq<Event>) {
    forall i :: 0 <= i < |log| ==> !log[i].Failed?
  }

  // ----- lawful logs -------------------------------------------------------------------------------------

  /** The last event is the receipt of `line`, which reads as `m`. */
  predicate Heard(c: Config, log: seq<Event>, line: string, m: Object) {
    log != [] && Last(log) == Received(line) && c.parse(line) == Some(m) && GoodId(Id(m))
  }

  predicate CallJudged(c: Config, log: seq<Event>, m: Object, result: GatewayResult) {
    && Method(m) == TOOLS_CALL && "id" in m && PhaseOf(log) == Ready && FreshId(log, m)
    && c.evaluate(m) == Ok(result)
  }

  /** The last event is the operator's or a grant's answer about the call `m`. */
  predicate CallAnswered(c: Config, log: seq<Event>, line: string, m: Object, result: GatewayResult, approved: bool) {
    && log != [] && Last(log).Asked? && Last(log).question == OfCall(m, result)
    && Last(log).ask.outcome.approved == approved
    && Heard(c, log[..|log| - 1], line, m)
  }

  /** A tools/call may go upstream: allowed, or a warning that was authorised just now. */
  predicate CallCleared(c: Config, log: seq<Event>, line: string, m: Object) {
    c.evaluate(m).Ok? && CallJudged(c, log, m, c.evaluate(m).value) &&
    match c.evaluate(m).value.evaluation.decision
    case Allow => Heard(c, log, line, m)
    case Warn => CallAnswered(c, log, line, m, c.evaluate(m).value, true)
    case Deny => false
  }

  predicate ControlCleared(c: Config, log: seq<Event>, line: string, m: Object) {
    Method(m) != TOOLS_CALL && Heard(c, log, line, m) && GoodControl(m, PhaseOf(log)) && FreshId(log, m)
  }

  predicate JustForwarded(log: seq<Event>, m: Object) {
    log != [] && Last(log).Forwarded? && Last(log).message == m
  }

  predicate ResponseScannedAs(c: Config, m: Object, response: Object, scan: ScanReport) {
    Method(m) == TOOLS_CALL && "id" in m && Correlates(response, Id(m)) && c.scan(m, response) == Ok(scan)
  }

  /** The last event is an answer about releasing `response`, asked right after the call was forwarded. */
  predicate ResponseAnswered(log: seq<Event>, m: Object, response: Object, scan: ScanReport, approved: bool) {
    && log != [] && Last(log).Asked? && Last(log).question == OfResponse(m, response, scan)
    && Last(log).ask.outcome.approved == approved
    && JustForwarded(log[..|log| - 1], m)
  }

  /** A response may go to the client. */
  predicate ResponseCleared(c: Config, log: seq<Event>, m: Object, response: Object) {
    if Method(m) == TOOLS_CALL then
      c.scan(m, response).Ok? && ResponseScannedAs(c, m, response, c.scan(m, response).value)
      && if c.scan(m, response).value.outcome == Clean then JustForwarded(log, m)
         else ResponseAnswered(log, m, response, c.scan(m, response).value, true)
    else
      "id" in m && Correlates(response, Id(m)) && JustForwarded(log, m)
      && (Method(m) == Str("initialize") ==> GoodInitializeResponse(response))
  }

  /** A response is withheld: not clean, and not released by anyone. */
  predicate ResponseHeld(c: Config, log: seq<Event>, m: Object, response: Object, decision: Decision) {
    c.scan(m, response).Ok? && ResponseScannedAs(c, m, response, c.scan(m, response).value)
    && c.scan(m, response).value.outcome != Clean && decision == c.scan(m, response).value.decision
    && (JustForwarded(log, m) || ResponseAnswered(log, m, response, c.scan(m, response).value, false))
  }

  predicate LawfulEvent(c: Config, before: seq<Event>, e: Event) {
    Open(before) &&
    match e
    case Received(_) => true
    case Asked(OfCall(m, result), ask) =>
      before != [] && Last(before).Received? && Heard(c, before, Last(before).line, m) && CallJudged(c, before, m, result)
      && result.evaluation.decision == Warn && CallRequest(c, m, result) == Ok(ask.request)
    case Asked(OfResponse(m, response, scan), ask) =>
      JustForwarded(before, m) && ResponseScannedAs(c, m, response, scan) && scan.outcome != Clean
      && ResponseRequest(c, m, scan) == Ok(ask.request)
    case Forwarded(line, m) => CallCleared(c, before, line, m) || ControlCleared(c, before, line, m)
    case Relayed(m, response) => ResponseCleared(c, before, m, response)
    case Blocked(m, decision) =>
      c.evaluate(m).Ok? && CallJudged(c, before, m, c.evaluate(m).value)
      && decision == c.evaluate(m).value.evaluation.decision != Allow
    case Withheld(m, response, decision) => ResponseHeld(c, before, m, response, decision)
    case Failed(_) => true
  }

  predicate Lawful(c: Config, log: seq<Event>) {
    log == [] || (Lawful(c, log[..|log| - 1]) && LawfulEvent(c, log[..|log| - 1], Last(log)))
  }

  /** `e` would have been lawful at some point of the log. */
  predicate MayArrive(c: Config, log: seq<Event>, e: Event) {
    exists n :: 0 <= n <= |log| && LawfulEvent(c, log[..n], e)
  }

  /** Whatever an unfinished write may still deliver was cleared when it was written. */
  predicate LateIsLawful(c: Config, log: seq<Event>, late: seq<Event>) {
    forall e :: e in late ==> MayArrive(c, log, e)
  }

  lemma LateStaysLawful(c: Config, log: seq<Event>, more: seq<Event>, late: seq<Event>)
    requires log <= more && LateIsLawful(c, log, late)
    ensures LateIsLawful(c, more, late)
  {
    forall e | e in late ensures MayArrive(c, more, e) {
      var n :| 0 <= n <= |log| && LawfulEvent(c, log[..n], e);
      assert more[..n] == log[..n];
    }
  }

  lemma LateNow(c: Config, log: seq<Event>, late: seq<Event>, e: Event)
    requires LateIsLawful(c, log, late) && LawfulEvent(c, log, e)
    ensures LateIsLawful(c, log, late + [e])
  {
    assert log[..|log|] == log;
  }

  /** The invariant of a session that has not ended: the fields say what the streams show. */
  predicate Inv(c: Config, closed: bool, s: State) {
    && s.status == Running && Lawful(c, s.log) && Open(s.log)
    && s.phase == PhaseOf(s.log) && TakenIds(s.log) <= s.seen
    && ProviderInv(closed, s) && LateIsLawful(c, s.log, s.unconfirmed)
  }

  predicate ProviderInv(closed: bool, s: State) {
    if s.provider.None? then AsksIn(s.log) == []
    else Genuine(closed, AsksIn(s.log)) && s.provider.value == StateAfter(closed, AsksIn(s.log))
  }

  // ----- one event -----------------------------------------------------------------------------------------

  lemma Extended(c: Config, log: seq<Event>, e: Event)
    requires Lawful(c, log) && LawfulEvent(c, log, e)
    ensures Lawful(c, log + [e])
    ensures PhaseOf(log + [e]) == NextPhase(PhaseOf(log), e)
    ensures TakenIds(log + [e]) == TakenIds(log) + TakenBy(e)
    ensures AsksIn(log + [e]) == if e.Asked? then AsksIn(log) + [e.ask] else AsksIn(log)
    ensures Open(log + [e]) <==> !e.Failed?
  {
    assert (log + [e])[..|log|] == log;
    assert (log + [e])[|log|] == e;
  }

  /** `s'` is `s` with `e` on its streams, and nothing else but counters changed. */
  predicate Appends(s: State, e: Event, s': State) {
    && s'.log == s.log + [e] && s'.seen == s.seen && s'.provider == s.provider && s'.status == s.status
    && s'.unconfirmed == s.unconfirmed && s'.phase == NextPhase(s.phase, e)
  }

  /** Appending an event other than an ask, with the phase set the way the event says. */
  lemma EventKeeps(c: Config, closed: bool, s: State, e: Event, s': State)
    requires Inv(c, closed, s) && LawfulEvent(c, s.log, e) && !e.Failed? && !e.Asked?
    requires TakenBy(e) <= s.seen
    requires Appends(s, e, s')
    ensures Inv(c, closed, s')
  {
    Extended(c, s.log, e);
    LateStaysLawful(c, s.log, s'.log, s.unconfirmed);
  }

  lemma AskKeeps(c: Config, closed: bool, s: State, question: Question, request: Request, moment: Moment, s': State)
    requires Inv(c, closed, s) && s.provider.Some?
    requires LawfulEvent(c, s.log, Asked(question, AskAbout(s.provider.value, request, moment)))
    requires request.requestFingerprint.Digest?
    requires var a := AfterAsking(s, question, request, moment);
             s'.log == a.log && s'.seen == a.seen && s'.provider == a.provider && s'.phase == a.phase && s'.status == a.status
             && s'.unconfirmed == a.unconfirmed
    ensures Inv(c, closed, s')
  {
    var e := Asked(question, AskAbout(s.provider.value, request, moment));
    Extended(c, s.log, e);
    LateStaysLawful(c, s.log, s'.log, s.unconfirmed);
    var h := AsksIn(s.log);
    assert (h + [e.ask])[..|h|] == h;
  }

  // ----- the pieces of the loop body keep the invariant ------------------------------------------------------

  lemma CallAskKeeps(c: Config, closed: bool, s: State, line: string, m: Object, result: GatewayResult, request: Request, moment: Moment)
    returns (s': State)
    requires Inv(c, closed, s) && Heard(c, s.log, line, m) && CallJudged(c, s.log, m, result) && s.provider.Some?
    requires result.evaluation.decision == Warn && CallRequest(c, m, result) == Ok(request)
    ensures s' == CountCallApproval(AfterAsking(s, OfCall(m, result), request, moment), OutcomeOf(s.provider.value, request, moment))
    ensures Inv(c, closed, s') && s'.seen == s.seen && CallJudged(c, s'.log, m, result)
    ensures OutcomeOf(s.provider.value, request, moment).approved ==> CallCleared(c, s'.log, line, m)
  {
    var e := Asked(OfCall(m, result), AskAbout(s.provider.value, request, moment));
    s' := CountCallApproval(AfterAsking(s, OfCall(m, result), request, moment), OutcomeOf(s.provider.value, request, moment));
    AskKeeps(c, closed, s, OfCall(m, result), request, moment, s');
    Extended(c, s.log, e);
    assert (s.log + [e])[..|s.log|] == s.log;
  }

  lemma PreFlightKeeps(c: Config, closed: bool, s: State, line: string, m: Object, result: GatewayResult, moment: Moment)
    returns (r: (State, Verdict))
    requires Inv(c, closed, s) && Heard(c, s.log, line, m) && CallJudged(c, s.log, m, result) && s.phase == Ready
    ensures r == PreFlight(c, s, m, result, moment)
    ensures Inv(c, closed, r.0) && r.0.seen == s.seen && CallJudged(c, r.0.log, m, result)
    ensures r.1 == Pass ==> CallCleared(c, r.0.log, line, m)
    ensures r.1 == Hold ==> result.evaluation.decision != Allow
  {
    r := PreFlight(c, s, m, result, moment);
    if result.evaluation.decision == Warn && s.provider.Some? && CallRequest(c, m, result).Ok? {
      var s' := CallAskKeeps(c, closed, s, line, m, result, CallRequest(c, m, result).value, moment);
      assert r.0 == s';
    }
  }

  lemma SuspiciousKeeps(c: Config, closed: bool, s: State, m: Object, response: Object, scan: ScanReport, moment: Moment)
    requires Inv(c, closed, s) && JustForwarded(s.log, m) && ResponseScannedAs(c, m, response, scan) && scan.outcome != Clean
    ensures var (s', verdict) := SuspiciousJudged(c, s, m, response, scan, moment);
            && Inv(c, closed, s') && s'.seen == s.seen && s'.phase == s.phase
            && (verdict == Pass ==> ResponseCleared(c, s'.log, m, response))
            && (verdict == Hold ==> ResponseHeld(c, s'.log, m, response, scan.decision))
  {
    var (s', verdict) := SuspiciousJudged(c, s, m, response, scan, moment);
    if s.provider.Some? && ResponseRequest(c, m, scan).Ok? {
      var request := ResponseRequest(c, m, scan).value;
      var e := Asked(OfResponse(m, response, scan), AskAbout(s.provider.value, request, moment));
      AskKeeps(c, closed, s, OfResponse(m, response, scan), request, moment, s');
      assert (s.log + [e])[..|s.log|] == s.log;
    }
  }

  lemma PostFlightKeeps(c: Config, closed: bool, s: State, m: Object, response: Object, scan: ScanReport, moment: Moment)
    requires Inv(c, closed, s) && JustForwarded(s.log, m) && ResponseScannedAs(c, m, response, scan)
    ensures var (s', verdict) := PostFlightJudged(c, s, m, response, scan, moment);
            && Inv(c, closed, s') && s'.seen == s.seen && s'.phase == s.phase
            && (verdict == Pass ==> ResponseCleared(c, s'.log, m, response))
            && (verdict == Hold ==> ResponseHeld(c, s'.log, m, response, scan.decision))
  {
    if scan.outcome != Clean {
      SuspiciousKeeps(c, closed, CountOutcome(s, scan.outcome), m, response, scan, moment);
    }
  }

  lemma SentKeeps(c: Config, closed: bool, s: State, e: Event, write: Write)
    requires Inv(c, closed, s) && LawfulEvent(c, s.log, e) && !e.Failed? && !e.Asked?
    requires TakenBy(e) <= s.seen && NextPhase(s.phase, e) == s.phase
    ensures Inv(c, closed, Sent(c, s, e, write).0)
  {
    if write == Written {
      EventKeeps(c, closed, s, e, Logged(s, e));
    }
    LateNow(c, s.log, s.unconfirmed, e);
  }

  lemma DeliveredKeeps(c: Config, closed: bool, s: State, m: Object, response: Object, write: Write)
    requires Inv(c, closed, s) && ResponseCleared(c, s.log, m, response)
    ensures Inv(c, closed, Delivered(c, s, m, response, write).0)
  {
    if write == Written && OutputIsWritable(c, Relayed(m, response)) {
      EventKeeps(c, closed, s, Relayed(m, response), Delivered(c, s, m, response, write).0);
    }
    LateNow(c, s.log, s.unconfirmed, Relayed(m, response));
  }

  lemma AnsweredKeeps(c: Config, closed: bool, s: State, m: Object, t: Turn) returns (s': State)
    requires Inv(c, closed, s) && JustForwarded(s.log, m) && "id" in m
    ensures s' == Answered(c, s, m, t).0 && Inv(c, closed, s')
  {
    var response := CorrelatedResponse(c, t.reply, Id(m));
    s' := s;
    if response.Some? {
      if Method(m) != TOOLS_CALL {
        if Method(m) == Str("initialize") ==> GoodInitializeResponse(response.value) {
          s' := Delivered(c, s, m, response.value, t.client).0;
          DeliveredKeeps(c, closed, s, m, response.value, t.client);
        }
      } else if c.scan(m, response.value).Ok? {
        s' := ToolResponseKeeps(c, closed, s, m, response.value, c.scan(m, response.value).value, t);
      }
    }
  }

  lemma ToolResponseKeeps(c: Config, closed: bool, s: State, m: Object, response: Object, scan: ScanReport, t: Turn)
    returns (s': State)
    requires Inv(c, closed, s) && JustForwarded(s.log, m) && ResponseScannedAs(c, m, response, scan)
    ensures var judged := PostFlightJudged(c, s, m, response, scan, t.responseMoment);
            s' == JudgedResponse(c, judged.0, judged.1, m, response, scan.decision, t).0
    ensures Inv(c, closed, s')
  {
    PostFlightKeeps(c, closed, s, m, response, scan, t.responseMoment);
    var judged := PostFlightJudged(c, s, m, response, scan, t.responseMoment);
    s' := JudgedResponse(c, judged.0, judged.1, m, response, scan.decision, t).0;
    match judged.1
    case Fault =>
    case Hold => SentKeeps(c, closed, judged.0, Withheld(m, response, scan.decision), t.client);
    case Pass => DeliveredKeeps(c, closed, judged.0, m, response, t.client);
  }

  predicate Cleared(c: Config, log: seq<Event>, line: string, m: Object) {
    CallCleared(c, log, line, m) || ControlCleared(c, log, line, m)
  }

  lemma ClearedPhase(c: Config, log: seq<Event>, line: string, m: Object)
    requires Cleared(c, log, line, m) && Method(m) == Str("notifications/initialized")
    ensures "id" !in m
  {
  }

  lemma ForwardedKeeps(c: Config, closed: bool, s: State, line: string, m: Object, s': State)
    requires Inv(c, closed, s) && Cleared(c, s.log, line, m) && (Id(m).Null? || Id(m) in s.seen)
    requires Appends(s, Forwarded(line, m), s')
    ensures Inv(c, closed, s') && JustForwarded(s'.log, m)
  {
    assert LawfulEvent(c, s.log, Forwarded(line, m));
    EventKeeps(c, closed, s, Forwarded(line, m), s');
  }

  /** The state right after a successful write upstream. */
  function SentUpstream(s: State, line: string, m: Object): State {
    Logged(s.(summary := s.summary.(forwarded := s.summary.forwarded + 1)), Forwarded(line, m))
  }

  lemma NotificationKeeps(c: Config, closed: bool, s: State, line: string, m: Object)
    requires Inv(c, closed, s) && Cleared(c, s.log, line, m) && (Id(m).Null? || Id(m) in s.seen)
    ensures Inv(c, closed, if Method(m) == Str("notifications/initialized") then SentUpstream(s, line, m).(phase := Ready)
                           else SentUpstream(s, line, m))
  {
    ForwardedKeeps(c, closed, s, line, m,
                   if Method(m) == Str("notifications/initialized") then SentUpstream(s, line, m).(phase := Ready)
                   else SentUpstream(s, line, m));
  }

  lemma RequestKeeps(c: Config, closed: bool, s: State, line: string, m: Object)
    requires Inv(c, closed, s) && Cleared(c, s.log, line, m) && (Id(m).Null? || Id(m) in s.seen) && "id" in m
    ensures Inv(c, closed, SentUpstream(s, line, m)) && JustForwarded(SentUpstream(s, line, m).log, m)
  {
    if Method(m) == Str("notifications/initialized") {
      ClearedPhase(c, s.log, line, m);
    } else {
      ForwardedKeeps(c, closed, s, line, m, SentUpstream(s, line, m));
    }
  }

  lemma PassedKeeps(c: Config, closed: bool, s: State, m: Object, t: Turn) returns (s': State)
    requires Inv(c, closed, s) && Cleared(c, s.log, t.line, m) && (Id(m).Null? || Id(m) in s.seen)
    ensures s' == Passed(c, s, m, t).0 && Inv(c, closed, s')
  {
    if !t.upstreamTakes {
      s' := s;
    } else if "id" in m {
      RequestKeeps(c, closed, s, t.line, m);
      s' := AnsweredKeeps(c, closed, SentUpstream(s, t.line, m), m, t);
    } else {
      NotificationKeeps(c, closed, s, t.line, m);
      s' := if Method(m) == Str("notifications/initialized") then SentUpstream(s, t.line, m).(phase := Ready)
            else SentUpstream(s, t.line, m);
    }
  }

  lemma BlockedKeeps(c: Config, closed: bool, s: State, m: Object, result: GatewayResult, write: Write) returns (s': State)
    requires Inv(c, closed, s) && CallJudged(c, s.log, m, result) && result.evaluation.decision != Allow
    requires Id(m).Null? || Id(m) in s.seen
    ensures s' == Sent(c, s.(summary := s.summary.(blocked := s.summary.blocked + 1)), Blocked(m, result.evaluation.decision), write).0
    ensures Inv(c, closed, s')
  {
    var counted := s.(summary := s.summary.(blocked := s.summary.blocked + 1));
    SentKeeps(c, closed, counted, Blocked(m, result.evaluation.decision), write);
    s' := Sent(c, counted, Blocked(m, result.evaluation.decision), write).0;
  }

  lemma JudgedCallKeeps(c: Config, closed: bool, s: State, verdict: Verdict, m: Object, result: GatewayResult, t: Turn) returns (s': State)
    requires Inv(c, closed, s) && CallJudged(c, s.log, m, result) && (Id(m).Null? || Id(m) in s.seen)
    requires verdict == Pass ==> Cleared(c, s.log, t.line, m)
    requires verdict == Hold ==> result.evaluation.decision != Allow
    ensures s' == JudgedCall(c, s, verdict, m, result.evaluation.decision, t).0 && Inv(c, closed, s')
  {
    if verdict == Fault {
      s' := s;
    } else if verdict == Pass {
      s' := PassedKeeps(c, closed, s, m, t);
    } else {
      s' := BlockedKeeps(c, closed, s, m, result, t.client);
    }
  }

  lemma CallDecidedKeeps(c: Config, closed: bool, s: State, m: Object, result: GatewayResult, t: Turn) returns (s': State)
    requires Inv(c, closed, s) && Heard(c, s.log, t.line, m) && CallJudged(c, s.log, m, result) && s.phase == Ready
    requires Id(m).Null? || Id(m) in s.seen
    ensures s' == CallDecided(c, s, m, result, t).0 && Inv(c, closed, s')
  {
    var judged := PreFlightKeeps(c, closed, s, t.line, m, result, t.callMoment);
    s' := JudgedCallKeeps(c, closed, judged.0, judged.1, m, result, t);
  }

  lemma ControlHandledKeeps(c: Config, closed: bool, s: State, m: Object, t: Turn) returns (s': State)
    requires Inv(c, closed, s) && Heard(c, s.log, t.line, m) && Method(m) != TOOLS_CALL && FreshId(s.log, m)
    requires Id(m).Null? || Id(m) in s.seen
    ensures s' == ControlHandled(c, s, m, t).0 && Inv(c, closed, s')
  {
    s' := s;
    if !UnhashableMethod(m) && GoodControl(m, s.phase) {
      s' := PassedKeeps(c, closed, s.(summary := s.summary.(controlMessages := s.summary.controlMessages + 1)), m, t);
    }
  }

  lemma CallHandledKeeps(c: Config, closed: bool, s: State, m: Object, t: Turn) returns (s': State)
    requires Inv(c, closed, s) && Heard(c, s.log, t.line, m) && Method(m) == TOOLS_CALL && FreshId(s.log, m)
    requires Id(m).Null? || Id(m) in s.seen
    ensures s' == CallHandled(c, s, m, t).0 && Inv(c, closed, s')
  {
    s' := s;
    if "id" in m && s.phase == Ready && c.evaluate(m).Ok? {
      s' := CallDecidedKeeps(c, closed, s, m, c.evaluate(m).value, t);
    }
  }

  lemma HandledKeeps(c: Config, closed: bool, s: State, t: Turn) returns (s': State)
    requires Inv(c, closed, s) && s.log != [] && Last(s.log) == Received(t.line)
    ensures s' == Handled(c, s, t).0 && Inv(c, closed, s')
  {
    s' := s;
    if c.parse(t.line).Some? {
      var m := c.parse(t.line).value;
      if GoodId(Id(m)) && (Id(m).Null? || Id(m) !in s.seen) {
        if Method(m) == TOOLS_CALL {
          s' := CallHandledKeeps(c, closed, Admitted(s, m), m, t);
        } else {
          s' := ControlHandledKeeps(c, closed, Admitted(s, m), m, t);
        }
      }
    }
  }

  /** What holds of a session whatever its status. */
  predicate Sound(c: Config, closed: bool, s: State) {
    && Lawful(c, s.log) && ProviderInv(closed, s) && LateIsLawful(c, s.log, s.unconfirmed)
    && (s.status == Running ==> Inv(c, closed, s))
  }

  lemma FailureKeeps(c: Config, closed: bool, s: State, id: Json, s': State)
    requires Inv(c, closed, s) && s'.log == s.log + [Failed(id)] && s'.provider == s.provider && s'.status != Running
    requires s'.unconfirmed == s.unconfirmed
    ensures Sound(c, closed, s')
  {
    Extended(c, s.log, Failed(id));
    LateStaysLawful(c, s.log, s'.log, s.unconfirmed);
  }

  lemma EndedKeeps(c: Config, closed: bool, s: State, signal: Signal, t: Turn)
    requires Inv(c, closed, s)
    ensures Sound(c, closed, Ended(c, s, signal, t))
  {
    var note := Failed(ErrorId(c, t.line));
    LateNow(c, s.log, s.unconfirmed, note);
    if signal == GatewayError && t.report == Written && OutputIsWritable(c, note) {
      FailureKeeps(c, closed, s, ErrorId(c, t.line), Ended(c, s, signal, t));
    }
  }

  lemma SteppedKeeps(c: Config, closed: bool, s: State, t: Turn)
    requires Sound(c, closed, s)
    ensures Sound(c, closed, Stepped(c, s, t))
  {
    if s.status == Running {
      var heard := Logged(s, Received(t.line));
      EventKeeps(c, closed, s, Received(t.line), heard);
      var handled := HandledKeeps(c, closed, heard, t);
      EndedKeeps(c, closed, handled, Handled(c, heard, t).1, t);
    }
  }

  /** A provider as a session starts with it: no grants yet, perhaps without an input. */
  function FreshProvider(present: bool, closed: bool): Option<ProviderState> {
    if present then Some(ProviderState(map[], closed)) else None
  }

  lemma {:induction false} EveryRunIsSound(c: Config, present: bool, closed: bool, turns: seq<Turn>)
    ensures Sound(c, closed, Run(c, FreshProvider(present, closed), turns))
  {
    if turns != [] {
      EveryRunIsSound(c, present, closed, turns[..|turns| - 1]);
      SteppedKeeps(c, closed, Run(c, FreshProvider(present, closed), turns[..|turns| - 1]), turns[|turns| - 1]);
    }
  }
}
