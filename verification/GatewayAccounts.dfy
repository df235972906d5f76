/**
 * The session summary tells the truth, and every request gets exactly one answer: a tally over the
 * log, kept equal to the counters, and a ledger pairing the client's requests with the replies.
 */
module GatewayAccounts {
  import opened Basics
  import opened Json
  import opened Models
  import opened Evaluator
  import opened Approval
  import opened Grants
  import opened Gateway
  import opened GatewayRuns

  /** What a log adds up to. */
  datatype Books = Books(tally: Summary, received: nat, withheld: nat, requests: seq<Json>, replies: seq<Json>)

  const EMPTY_BOOKS := Books(NOTHING_YET, 0, 0, [], [])

  /** The id of the request on a line, if the line is a request: a message with an id member. */
  function RequestIds(c: Config, line: string): seq<Json> {
    if c.parse(line).Some? && "id" in c.parse(line).value then [Id(c.parse(line).value)] else []
  }

  function ReplyIds(e: Event): seq<Json> {
    if ClientOutput(e).Some? then [Get(ClientOutput(e).value, "id")] else []
  }

  function CountedScan(t: Summary, outcome: PostFlight): Summary {
    match outcome
    case Clean => t.(responseClean := t.responseClean + 1)
    case Review => t.(responseReview := t.responseReview + 1)
    case BlockNextStep => t.(responseBlocked := t.responseBlocked + 1)
  }

  function CountedAnswer(c: Config, t: Summary, m: Object, response: Object): Summary {
    if Method(m) == TOOLS_CALL && c.scan(m, response).Ok? then CountedScan(t, c.scan(m, response).value.outcome) else t
  }

  function Tallied(c: Config, t: Summary, e: Event): Summary {
    match e
    case Received(_) => t
    case Asked(OfCall(_, _), ask) =>
      if !ask.outcome.approved then t
      else t.(approved := t.approved + 1, grantReuses := t.grantReuses + if ask.outcome.source == SessionGrant then 1 else 0)
    case Asked(OfResponse(_, _, _), ask) =>
      if ask.outcome.approved then t.(responseApproved := t.responseApproved + 1) else t
    case Forwarded(_, m) =>
      var f := t.(forwarded := t.forwarded + 1);
      if Method(m) == TOOLS_CALL then f else f.(controlMessages := f.controlMessages + 1)
    case Relayed(m, response) => CountedAnswer(c, t, m, response)
    case Blocked(_, _) => t.(blocked := t.blocked + 1)
    case Withheld(m, response, _) => CountedAnswer(c, t, m, response)
    case Failed(_) => t.(protocolErrors := t.protocolErrors + 1)
  }

  function Booked(c: Config, b: Books, e: Event): Books {
    Books(Tallied(c, b.tally, e), b.received + (if e.Received? then 1 else 0), b.withheld + (if e.Withheld? then 1 else 0),
          if e.Received? then b.requests + RequestIds(c, e.line) else b.requests, b.replies + ReplyIds(e))
  }

  function BooksOf(c: Config, log: seq<Event>): Books {
    if log == [] then EMPTY_BOOKS else Booked(c, BooksOf(c, log[..|log| - 1]), log[|log| - 1])
  }

  lemma BooksStep(c: Config, log: seq<Event>, e: Event)
    ensures BooksOf(c, log + [e]) == Booked(c, BooksOf(c, log), e)
  {
    assert (log + [e])[..|log|] == log;
  }

  // ----- what the books say at each point of a round ---------------------------------------------------------

  predicate Paired(replies: seq<Json>, requests: seq<Json>) {
    |replies| == |requests| && forall k :: 0 <= k < |replies| ==> PyEqual(replies[k], requests[k])
  }

  /** All requests answered but the current one, if it is one. */
  predicate Owing(b: Books, m: Object) {
    if "id" in m
    then b.requests != [] && b.requests[|b.requests| - 1] == Id(m) && Paired(b.replies, b.requests[..|b.requests| - 1])
    else Paired(b.replies, b.requests)
  }

  /** The sums, with so many lines not yet forwarded or blocked, calls not yet scanned, approvals not yet used. */
  predicate Sums(b: Books, lines: int, calls: int, releases: int) {
    var t := b.tally;
    && b.received == t.forwarded + t.blocked + lines
    && t.forwarded == t.controlMessages + t.responseClean + t.responseReview + t.responseBlocked + calls
    && t.responseReview + t.responseBlocked + releases == t.responseApproved + b.withheld
    && t.grantReuses <= t.approved && t.protocolErrors == 0
  }

  /** Between two rounds. */
  predicate Balanced(c: Config, s: State) {
    var b := BooksOf(c, s.log);
    s.summary == b.tally && Sums(b, 0, 0, 0) && Paired(b.replies, b.requests) && s.unconfirmed == []
  }

  /** `e` is a reply to the request with this id. */
  predicate Answers(e: Event, id: Json) {
    ClientOutput(e).Some? && PyEqual(Get(ClientOutput(e).value, "id"), id)
  }

  /** At most one write was left unfinished, and it answers the one request still due. */
  predicate OneLate(late: seq<Event>, before: Books) {
    late == []
    || (|late| == 1 && |before.requests| == |before.replies| + 1 && Answers(late[0], before.requests[|before.requests| - 1]))
  }

  /** A round that failed: no reply was confirmed, and at most this line is missing from the counters. */
  predicate Failing(c: Config, s: State, before: Books) {
    var b := BooksOf(c, s.log);
    && b.replies == before.replies && b.received == before.received && b.requests == before.requests
    && before.received - 1 <= s.summary.forwarded + s.summary.blocked <= before.received
    && s.summary.grantReuses <= s.summary.approved && s.summary.protocolErrors == 0
    && OneLate(s.unconfirmed, before)
  }

  /** The state in the middle of a round: counters against books, and what is still due. */
  predicate Midway(c: Config, s: State, m: Object, expected: Summary, before: Books, lines: int, calls: int, releases: int) {
    var b := BooksOf(c, s.log);
    && s.summary == expected && Sums(b, lines, calls, releases) && Owing(b, m) && s.unconfirmed == []
    && b.replies == before.replies && b.received == before.received && b.requests == before.requests
  }

  /** How a round may end. */
  predicate RoundEnds(c: Config, s: State, signal: Signal, before: Books) {
    if signal == Normal
    then Balanced(c, s) && BooksOf(c, s.log).received == before.received && BooksOf(c, s.log).requests == before.requests
    else Failing(c, s, before)
  }

  lemma ReplyClears(b: Books, m: Object, reply: Json, b': Books)
    requires Owing(b, m) && "id" in m && PyEqual(reply, Id(m))
    requires b'.requests == b.requests && b'.replies == b.replies + [reply]
    ensures Paired(b'.replies, b'.requests)
  {
    assert forall k :: 0 <= k < |b.replies| ==> b.requests[k] == b.requests[..|b.requests| - 1][k];
  }

  /** The last event of a round answers the request. */
  lemma ReplyBalances(c: Config, s: State, m: Object, e: Event, before: Books, s': State)
    requires BooksOf(c, s.log).received == before.received && BooksOf(c, s.log).requests == before.requests
    requires Owing(BooksOf(c, s.log), m) && "id" in m && !e.Received?
    requires ReplyIds(e) != [] && PyEqual(ReplyIds(e)[0], Id(m))
    requires s'.log == s.log + [e] && s'.summary == Tallied(c, BooksOf(c, s.log).tally, e) && s'.unconfirmed == []
    requires Sums(Booked(c, BooksOf(c, s.log), e), 0, 0, 0)
    ensures RoundEnds(c, s', Normal, before)
  {
    BooksStep(c, s.log, e);
    ReplyClears(BooksOf(c, s.log), m, ReplyIds(e)[0], BooksOf(c, s'.log));
  }

  // ----- the pieces of a round -------------------------------------------------------------------------------

  function TallyOf(c: Config, s: State): Summary {
    BooksOf(c, s.log).tally
  }

  /** A write that answers the request: the round ends balanced, or it fails without a reply. */
  lemma SentRound(c: Config, s: State, m: Object, e: Event, write: Write, before: Books, calls: int, releases: int)
    requires Midway(c, s, m, Tallied(c, TallyOf(c, s), e), before, 0, calls, releases) && "id" in m && !e.Received?
    requires ReplyIds(e) != [] && PyEqual(ReplyIds(e)[0], Id(m))
    requires Sums(Booked(c, BooksOf(c, s.log), e), 0, 0, 0)
    requires e.Relayed? || e.Withheld?
    ensures RoundEnds(c, Sent(c, s, e, write).0, Sent(c, s, e, write).1, before)
  {
    if OutputIsWritable(c, e) {
      match write
      case Written => ReplyBalances(c, s, m, e, before, Sent(c, s, e, write).0);
      case Broken => assert [] + [e] == [e] && Answers(e, Id(m));
    }
  }

  lemma DeliveredRound(c: Config, s: State, m: Object, response: Object, write: Write, before: Books, calls: int, releases: int)
    requires Midway(c, s, m, CountedAnswer(c, TallyOf(c, s), m, response), before, 0, calls, releases) && "id" in m
    requires Correlates(response, Id(m))
    requires Sums(Booked(c, BooksOf(c, s.log), Relayed(m, response)), 0, 0, 0)
    ensures RoundEnds(c, Delivered(c, s, m, response, write).0, Delivered(c, s, m, response, write).1, before)
  {
    SentRound(c, s, m, Relayed(m, response), write, before, calls, releases);
  }

  /** An ask only touches the approval counters of the books. */
  lemma AskBooked(c: Config, b: Books, question: Question, ask: Ask)
    ensures var b' := Booked(c, b, Asked(question, ask));
            b' == b.(tally := Tallied(c, b.tally, Asked(question, ask)))
  {
    assert b.replies + [] == b.replies;
  }

  lemma AskRound(c: Config, s: State, m: Object, question: Question, request: Request, moment: Moment, expected: Summary,
                 before: Books, lines: int, calls: int)
    requires s.provider.Some? && Midway(c, s, m, expected, before, lines, calls, 0)
    ensures var s' := AfterAsking(s, question, request, moment);
            var ask := AskAbout(s.provider.value, request, moment);
            && s'.summary == expected && TallyOf(c, s') == Tallied(c, TallyOf(c, s), Asked(question, ask))
            && Midway(c, s', m, expected, before, lines, calls,
                      if question.OfResponse? && ask.outcome.approved then 1 else 0)
  {
    var ask := AskAbout(s.provider.value, request, moment);
    AskBooked(c, BooksOf(c, s.log), question, ask);
    BooksStep(c, s.log, Asked(question, ask));
  }

  /** Asking for the release of a response that is already counted. */
  lemma ReleaseRound(c: Config, s: State, m: Object, response: Object, scan: ScanReport, request: Request, moment: Moment, before: Books)
    requires s.provider.Some? && scan.outcome != Clean
    requires Midway(c, s, m, CountedScan(TallyOf(c, s), scan.outcome), before, 0, 1, 0)
    ensures var (s', verdict) := Released(s, m, response, scan, request, moment);
            Midway(c, s', m, CountedScan(TallyOf(c, s'), scan.outcome), before, 0, 1, if verdict == Pass then 1 else 0)
  {
    AskRound(c, s, m, OfResponse(m, response, scan), request, moment, s.summary, before, 0, 1);
  }

  lemma SuspiciousRound(c: Config, s: State, m: Object, response: Object, scan: ScanReport, moment: Moment, before: Books)
    requires Midway(c, s, m, CountedScan(TallyOf(c, s), scan.outcome), before, 0, 1, 0) && scan.outcome != Clean
    ensures var (s', verdict) := SuspiciousJudged(c, s, m, response, scan, moment);
            Midway(c, s', m, CountedScan(TallyOf(c, s'), scan.outcome), before, 0, 1, if verdict == Pass then 1 else 0)
  {
    if s.provider.Some? && ResponseRequest(c, m, scan).Ok? {
      ReleaseRound(c, s, m, response, scan, ResponseRequest(c, m, scan).value, moment, before);
    }
  }

  lemma PostFlightRound(c: Config, s: State, m: Object, response: Object, scan: ScanReport, moment: Moment, before: Books)
    requires Midway(c, s, m, TallyOf(c, s), before, 0, 1, 0)
    ensures var (s', verdict) := PostFlightJudged(c, s, m, response, scan, moment);
            Midway(c, s', m, CountedScan(TallyOf(c, s'), scan.outcome), before, 0, 1,
                   if verdict == Pass && scan.outcome != Clean then 1 else 0)
  {
    if scan.outcome != Clean {
      SuspiciousRound(c, CountOutcome(s, scan.outcome), m, response, scan, moment, before);
    }
  }

  lemma ToolResponseRound(c: Config, s: State, m: Object, response: Object, scan: ScanReport, t: Turn, before: Books)
    returns (r: (State, Signal))
    requires Midway(c, s, m, TallyOf(c, s), before, 0, 1, 0) && "id" in m && Method(m) == TOOLS_CALL
    requires c.scan(m, response) == Ok(scan) && Correlates(response, Id(m))
    ensures var judged := PostFlightJudged(c, s, m, response, scan, t.responseMoment);
            r == JudgedResponse(c, judged.0, judged.1, m, response, scan.decision, t)
    ensures RoundEnds(c, r.0, r.1, before)
  {
    PostFlightRound(c, s, m, response, scan, t.responseMoment, before);
    var judged := PostFlightJudged(c, s, m, response, scan, t.responseMoment);
    if judged.1 == Hold {
      HeldIsSuspicious(c, s, m, response, scan, t.responseMoment);
    }
    r := JudgedResponseRound(c, judged.0, judged.1, m, response, scan, t, before);
  }

  /** The rest of a round once the response is judged. */
  lemma JudgedResponseRound(c: Config, s: State, verdict: Verdict, m: Object, response: Object, scan: ScanReport, t: Turn,
                            before: Books) returns (r: (State, Signal))
    requires Midway(c, s, m, CountedScan(TallyOf(c, s), scan.outcome), before, 0, 1,
                    if verdict == Pass && scan.outcome != Clean then 1 else 0)
    requires "id" in m && Method(m) == TOOLS_CALL && c.scan(m, response) == Ok(scan) && Correlates(response, Id(m))
    requires verdict == Hold ==> scan.outcome != Clean
    ensures r == JudgedResponse(c, s, verdict, m, response, scan.decision, t) && RoundEnds(c, r.0, r.1, before)
  {
    match verdict
    case Fault => r := (s, GatewayError);
    case Hold =>
      r := Sent(c, s, Withheld(m, response, scan.decision), t.client);
      SentRound(c, s, m, Withheld(m, response, scan.decision), t.client, before, 1, 0);
    case Pass =>
      r := Delivered(c, s, m, response, t.client);
      DeliveredRound(c, s, m, response, t.client, before, 1, if scan.outcome != Clean then 1 else 0);
  }

  lemma HeldIsSuspicious(c: Config, s: State, m: Object, response: Object, scan: ScanReport, moment: Moment)
    requires PostFlightJudged(c, s, m, response, scan, moment).1 == Hold
    ensures scan.outcome != Clean
  {
  }

  lemma AnsweredRound(c: Config, s: State, m: Object, t: Turn, before: Books) returns (r: (State, Signal))
    requires Midway(c, s, m, TallyOf(c, s), before, 0, if Method(m) == TOOLS_CALL then 1 else 0, 0) && "id" in m
    ensures r == Answered(c, s, m, t) && RoundEnds(c, r.0, r.1, before)
  {
    var response := CorrelatedResponse(c, t.reply, Id(m));
    r := (s, GatewayError);
    if response.Some? {
      if Method(m) != TOOLS_CALL {
        if Method(m) == Str("initialize") ==> GoodInitializeResponse(response.value) {
          r := Delivered(c, s, m, response.value, t.client);
          DeliveredRound(c, s, m, response.value, t.client, before, 0, 0);
        }
      } else if c.scan(m, response.value).Ok? {
        r := ToolResponseRound(c, s, m, response.value, c.scan(m, response.value).value, t, before);
      } else {
        r := (s, ScanSignal(c.scan(m, response.value).error));
      }
    }
  }

  /** The counters when a message is about to be written upstream. */
  function BeforeSending(t: Summary, m: Object): Summary {
    if Method(m) == TOOLS_CALL then t else t.(controlMessages := t.controlMessages + 1)
  }

  lemma SentUpstreamRound(c: Config, s: State, line: string, m: Object, before: Books)
    requires Midway(c, s, m, BeforeSending(TallyOf(c, s), m), before, 1, 0, 0)
    ensures var s' := SentUpstream(s, line, m);
            Midway(c, s', m, TallyOf(c, s'), before, 0, if Method(m) == TOOLS_CALL then 1 else 0, 0)
  {
    BooksStep(c, s.log, Forwarded(line, m));
  }

  lemma PassedRound(c: Config, s: State, m: Object, t: Turn, before: Books) returns (r: (State, Signal))
    requires Midway(c, s, m, BeforeSending(TallyOf(c, s), m), before, 1, 0, 0) && (Method(m) == TOOLS_CALL ==> "id" in m)
    ensures r == Passed(c, s, m, t) && RoundEnds(c, r.0, r.1, before)
  {
    if !t.upstreamTakes {
      r := (s, GatewayError);
      UnsentRound(c, s, m, s.summary, GatewayError, before);
    } else {
      SentUpstreamRound(c, s, t.line, m, before);
      var sent := SentUpstream(s, t.line, m);
      if "id" in m {
        r := AnsweredRound(c, sent, m, t, before);
      } else {
        r := (if Method(m) == Str("notifications/initialized") then sent.(phase := Ready) else sent, Normal);
      }
    }
  }

  /** Asking about a call. */
  lemma CallAskRound(c: Config, s: State, m: Object, result: GatewayResult, request: Request, moment: Moment, before: Books)
    requires s.provider.Some? && Midway(c, s, m, TallyOf(c, s), before, 1, 0, 0)
    ensures var s' := CountCallApproval(AfterAsking(s, OfCall(m, result), request, moment), OutcomeOf(s.provider.value, request, moment));
            Midway(c, s', m, TallyOf(c, s'), before, 1, 0, 0)
  {
    AskRound(c, s, m, OfCall(m, result), request, moment, s.summary, before, 1, 0);
  }

  lemma PreFlightRound(c: Config, s: State, m: Object, result: GatewayResult, moment: Moment, before: Books)
    returns (r: (State, Verdict))
    requires Midway(c, s, m, TallyOf(c, s), before, 1, 0, 0)
    ensures r == PreFlight(c, s, m, result, moment) && Midway(c, r.0, m, TallyOf(c, r.0), before, 1, 0, 0)
  {
    if result.evaluation.decision == Warn && s.provider.Some? && CallRequest(c, m, result).Ok? {
      CallAskRound(c, s, m, result, CallRequest(c, m, result).value, moment, before);
    }
    r := PreFlight(c, s, m, result, moment);
  }

  lemma BlockedRound(c: Config, s: State, m: Object, decision: Decision, write: Write, before: Books)
    requires Midway(c, s, m, TallyOf(c, s), before, 1, 0, 0) && "id" in m
    ensures var counted := s.(summary := s.summary.(blocked := s.summary.blocked + 1));
            var r := Sent(c, counted, Blocked(m, decision), write);
            RoundEnds(c, r.0, r.1, before)
  {
    var counted := s.(summary := s.summary.(blocked := s.summary.blocked + 1));
    if OutputIsWritable(c, Blocked(m, decision)) {
      match write
      case Written => ReplyBalances(c, counted, m, Blocked(m, decision), before, Sent(c, counted, Blocked(m, decision), write).0);
      case Broken => assert [] + [Blocked(m, decision)] == [Blocked(m, decision)] && Answers(Blocked(m, decision), Id(m));
    }
  }

  lemma CallDecidedRound(c: Config, s: State, m: Object, result: GatewayResult, t: Turn, before: Books) returns (r: (State, Signal))
    requires Midway(c, s, m, TallyOf(c, s), before, 1, 0, 0) && Method(m) == TOOLS_CALL && "id" in m
    ensures r == CallDecided(c, s, m, result, t) && RoundEnds(c, r.0, r.1, before)
  {
    var judged := PreFlightRound(c, s, m, result, t.callMoment, before);
    r := JudgedRound(c, judged.0, judged.1, m, result.evaluation.decision, t, before);
  }

  /** Stopping before the line was forwarded or blocked. */
  lemma UnsentRound(c: Config, s: State, m: Object, expected: Summary, signal: Signal, before: Books)
    requires Midway(c, s, m, expected, before, 1, 0, 0) && signal != Normal
    requires expected == TallyOf(c, s) || expected == BeforeSending(TallyOf(c, s), m)
    ensures RoundEnds(c, s, signal, before)
  {
  }

  /** The rest of a round once the call is judged. */
  lemma JudgedRound(c: Config, s: State, verdict: Verdict, m: Object, decision: Decision, t: Turn, before: Books)
    returns (r: (State, Signal))
    requires Midway(c, s, m, TallyOf(c, s), before, 1, 0, 0) && Method(m) == TOOLS_CALL && "id" in m
    ensures RoundEnds(c, r.0, r.1, before)
    ensures r == JudgedCall(c, s, verdict, m, decision, t)
  {
    match verdict
    case Fault =>
      r := (s, GatewayError);
      UnsentRound(c, s, m, s.summary, GatewayError, before);
    case Pass =>
      assert BeforeSending(TallyOf(c, s), m) == TallyOf(c, s);
      r := PassedRound(c, s, m, t, before);
    case Hold =>
      BlockedRound(c, s, m, decision, t.client, before);
      r := Sent(c, s.(summary := s.summary.(blocked := s.summary.blocked + 1)), Blocked(m, decision), t.client);
  }

  lemma MessageRound(c: Config, s: State, m: Object, t: Turn, before: Books) returns (r: (State, Signal))
    requires Midway(c, s, m, TallyOf(c, s), before, 1, 0, 0)
    ensures r == (if Method(m) == TOOLS_CALL then CallHandled(c, s, m, t) else ControlHandled(c, s, m, t))
    ensures RoundEnds(c, r.0, r.1, before)
  {
    UnsentRound(c, s, m, s.summary, GatewayError, before);
    UnsentRound(c, s, m, s.summary, OtherError, before);
    if Method(m) == TOOLS_CALL {
      if "id" !in m || s.phase != Ready {
        r := (s, GatewayError);
      } else if c.evaluate(m).Err? {
        r := (s, OtherError);
      } else {
        r := CallDecidedRound(c, s, m, c.evaluate(m).value, t, before);
      }
    } else if UnhashableMethod(m) {
      r := (s, OtherError);
    } else if !GoodControl(m, s.phase) {
      r := (s, GatewayError);
    } else {
      r := PassedRound(c, s.(summary := s.summary.(controlMessages := s.summary.controlMessages + 1)), m, t, before);
    }
  }

  lemma NewRequestIsOwed(b: Books, m: Object, b': Books)
    requires Paired(b.replies, b.requests) && b'.replies == b.replies
    requires b'.requests == b.requests + if "id" in m then [Id(m)] else []
    ensures Owing(b', m)
  {
    assert b'.requests[..|b.requests|] == b.requests;
  }

  lemma ReceiptBooked(c: Config, b: Books, line: string)
    ensures Booked(c, b, Received(line)) == b.(received := b.received + 1, requests := b.requests + RequestIds(c, line))
  {
    assert b.replies + [] == b.replies;
  }

  lemma OwingAfterReceipt(c: Config, s0: State, s: State, line: string, m: Object)
    requires Balanced(c, s0) && s == Logged(s0, Received(line)) && c.parse(line) == Some(m)
    ensures Midway(c, s, m, TallyOf(c, s), BooksOf(c, s.log), 1, 0, 0)
  {
    var b := BooksOf(c, s0.log);
    var b' := b.(received := b.received + 1, requests := b.requests + RequestIds(c, line));
    ReceiptBooked(c, b, line);
    BooksStep(c, s0.log, Received(line));
    assert BooksOf(c, s.log) == b';
    NewRequestIsOwed(b, m, b');
  }

  /** The state right after a line was received. */
  predicate Opened(c: Config, s: State, line: string, before: Books) {
    && Failing(c, s, before)
    && (c.parse(line).Some? ==> Midway(c, s, c.parse(line).value, TallyOf(c, s), before, 1, 0, 0))
  }

  lemma LineOpensRound(c: Config, s0: State, line: string) returns (s: State, b0: Books, before: Books)
    requires Balanced(c, s0)
    ensures s == Logged(s0, Received(line)) && b0 == BooksOf(c, s0.log) && Paired(b0.replies, b0.requests)
    ensures before == BooksOf(c, s.log) && Opened(c, s, line, before)
    ensures before == b0.(received := b0.received + 1, requests := b0.requests + RequestIds(c, line))
  {
    s := Logged(s0, Received(line));
    b0, before := BooksOf(c, s0.log), BooksOf(c, s.log);
    BooksStep(c, s0.log, Received(line));
    ReceiptBooked(c, b0, line);
    if c.parse(line).Some? {
      OwingAfterReceipt(c, s0, s, line, c.parse(line).value);
    }
  }

  lemma AdmittedMidway(c: Config, s: State, m: Object, before: Books)
    requires Midway(c, s, m, TallyOf(c, s), before, 1, 0, 0)
    ensures Midway(c, Admitted(s, m), m, TallyOf(c, Admitted(s, m)), before, 1, 0, 0)
  {
    assert Admitted(s, m).log == s.log;
  }

  /** One round, from the moment its line was received. */
  lemma HandledRound(c: Config, s: State, t: Turn, before: Books) returns (r: (State, Signal))
    requires Opened(c, s, t.line, before)
    ensures r == Handled(c, s, t) && RoundEnds(c, r.0, r.1, before)
  {
    r := (s, GatewayError);
    if c.parse(t.line).Some? {
      var m := c.parse(t.line).value;
      if GoodId(Id(m)) && (Id(m).Null? || Id(m) !in s.seen) {
        AdmittedMidway(c, s, m, before);
        r := MessageRound(c, Admitted(s, m), m, t, before);
      }
    }
  }

  // ----- ids that were used ---------------------------------------------------------------------------------

  lemma JudgedResponseSeen(c: Config, s: State, verdict: Verdict, m: Object, response: Object, decision: Decision, t: Turn)
    ensures var r := JudgedResponse(c, s, verdict, m, response, decision, t).0; r.seen == s.seen && r.status == s.status
    ensures var r := Delivered(c, s, m, response, t.client).0; r.seen == s.seen && r.status == s.status
  {
  }

  lemma PostFlightSeen(c: Config, s: State, m: Object, response: Object, scan: ScanReport, moment: Moment)
    ensures var s' := PostFlightJudged(c, s, m, response, scan, moment).0; s'.seen == s.seen && s'.status == s.status
  {
  }

  lemma AnsweredSeen(c: Config, s: State, m: Object, t: Turn)
    ensures Answered(c, s, m, t).0.seen == s.seen && Answered(c, s, m, t).0.status == s.status
  {
    var response := CorrelatedResponse(c, t.reply, Id(m));
    if response.Some? {
      JudgedResponseSeen(c, s, Pass, m, response.value, Allow, t);
      if c.scan(m, response.value).Ok? {
        var scan := c.scan(m, response.value).value;
        PostFlightSeen(c, s, m, response.value, scan, t.responseMoment);
        var judged := PostFlightJudged(c, s, m, response.value, scan, t.responseMoment);
        JudgedResponseSeen(c, judged.0, judged.1, m, response.value, scan.decision, t);
      }
    }
  }

  lemma PassedSeen(c: Config, s: State, m: Object, t: Turn)
    ensures Passed(c, s, m, t).0.seen == s.seen && Passed(c, s, m, t).0.status == s.status
  {
    AnsweredSeen(c, SentUpstream(s, t.line, m), m, t);
  }

  lemma PreFlightSeen(c: Config, s: State, m: Object, result: GatewayResult, moment: Moment)
    ensures var s' := PreFlight(c, s, m, result, moment).0; s'.seen == s.seen && s'.status == s.status
  {
  }

  lemma CallDecidedSeen(c: Config, s: State, m: Object, result: GatewayResult, t: Turn)
    ensures CallDecided(c, s, m, result, t).0.seen == s.seen && CallDecided(c, s, m, result, t).0.status == s.status
  {
    PreFlightSeen(c, s, m, result, t.callMoment);
    PassedSeen(c, PreFlight(c, s, m, result, t.callMoment).0, m, t);
  }

  lemma ControlSeen(c: Config, s: State, m: Object, t: Turn)
    ensures ControlHandled(c, s, m, t).0.seen == s.seen && ControlHandled(c, s, m, t).0.status == s.status
  {
    PassedSeen(c, s.(summary := s.summary.(controlMessages := s.summary.controlMessages + 1)), m, t);
  }

  /** A message is the only thing a round admits, and only the end of a round changes the status. */
  lemma MessageSeen(c: Config, s: State, m: Object, t: Turn)
    ensures var r := if Method(m) == TOOLS_CALL then CallHandled(c, s, m, t) else ControlHandled(c, s, m, t);
            r.0.seen == s.seen && r.0.status == s.status
  {
    if Method(m) == TOOLS_CALL {
      if c.evaluate(m).Ok? {
        CallDecidedSeen(c, s, m, c.evaluate(m).value, t);
      }
    } else {
      ControlSeen(c, s, m, t);
    }
  }

  lemma HandledStatus(c: Config, s: State, t: Turn)
    ensures Handled(c, s, t).0.status == s.status
  {
    if c.parse(t.line).Some? {
      MessageSeen(c, Admitted(s, c.parse(t.line).value), c.parse(t.line).value, t);
    }
  }

  /** A round that ends normally read a message whose id, unless null, was new; now it is used. */
  lemma HandledSeen(c: Config, s: State, t: Turn)
    requires Handled(c, s, t).1 == Normal
    ensures c.parse(t.line).Some?
    ensures var id := Id(c.parse(t.line).value);
            (id.Null? || id !in s.seen) && Handled(c, s, t).0.seen == s.seen + if id.Null? then {} else {id}
    ensures Handled(c, s, t).0.status == s.status
  {
    MessageSeen(c, Admitted(s, c.parse(t.line).value), c.parse(t.line).value, t);
  }

  predicate Distinct(requests: seq<Json>) {
    forall j, k :: 0 <= j < k < |requests| ==> requests[j] == requests[k] ==> requests[j] == Null
  }

  predicate Used(requests: seq<Json>, seen: set<Json>) {
    Distinct(requests) && forall k :: 0 <= k < |requests| ==> requests[k] == Null || requests[k] in seen
  }

  // ----- runs ----------------------------------------------------------------------------------------------

  /** What the counters of a stopped session say. */
  predicate StoppedCounters(t: Summary, received: nat, stopped: bool) {
    && received - 1 <= t.forwarded + t.blocked <= received && t.grantReuses <= t.approved
    && t.protocolErrors <= 1 && (stopped ==> t.protocolErrors == 1)
  }

  /** After a session stopped: `answered` requests were answered, then one round failed. */
  predicate Settled(c: Config, s: State, answered: nat) {
    SettledBooks(BooksOf(c, s.log), answered) && LateReplies(BooksOf(c, s.log), s.unconfirmed, answered)
    && StoppedCounters(s.summary, BooksOf(c, s.log).received, s.status == Stopped)
  }

  predicate SettledBooks(b: Books, answered: nat) {
    && answered <= |b.replies| <= answered + 1 && answered <= |b.requests| <= answered + 1
    && Paired(b.replies[..answered], b.requests[..answered])
    && (|b.replies| > answered ==>
          b.replies[answered] == Null || (|b.requests| > answered && b.replies[answered] == b.requests[answered]))
  }

  /**
   * With what unfinished writes may still deliver there are at most two more replies, all for the last
   * request or without an id.
   */
  predicate LateReplies(b: Books, late: seq<Event>, answered: nat) {
    && |b.replies| + |late| <= answered + 2
    && forall e :: e in late ==> Answers(e, Null) || (|b.requests| == answered + 1 && Answers(e, b.requests[answered]))
  }

  predicate Kept(c: Config, s: State, lines: nat) {
    s.status == Running && Balanced(c, s) && BooksOf(c, s.log).received == lines && Used(BooksOf(c, s.log).requests, s.seen)
  }

  /** Appending at most one request and one reply keeps the answered part paired. */
  lemma PrefixStaysPaired(b0: Books, b: Books, reply: seq<Json>, request: seq<Json>)
    requires Paired(b0.replies, b0.requests) && |reply| <= 1 && |request| <= 1
    requires reply == [] || reply == [Null] || reply == request
    requires b.replies == b0.replies + reply && b.requests == b0.requests + request
    ensures SettledBooks(b, |b0.replies|)
  {
    assert b.replies[..|b0.replies|] == b0.replies;
    assert b.requests[..|b0.replies|] == b0.requests;
  }

  lemma FailedBooked(c: Config, b: Books, id: Json)
    ensures Booked(c, b, Failed(id))
            == b.(tally := b.tally.(protocolErrors := b.tally.protocolErrors + 1), replies := b.replies + [id])
  {
  }

  /** The books once a failed round is over; `note` is the final error that was written, if any. */
  lemma FailureBooks(c: Config, s: State, signal: Signal, t: Turn, before: Books) returns (e: State, b: Books, note: seq<Json>)
    requires signal != Normal && Failing(c, s, before)
    ensures e == Ended(c, s, signal, t) && b == BooksOf(c, e.log)
    ensures note == [] || note == [Null] || note == RequestIds(c, t.line)
    ensures b.replies == before.replies + note && b.requests == before.requests && b.received == before.received
    ensures e.unconfirmed == s.unconfirmed
            || (note == [] && e.unconfirmed == s.unconfirmed + [Failed(ErrorId(c, t.line))])
  {
    e := Ended(c, s, signal, t);
    b := BooksOf(c, s.log);
    note := [];
    assert b.replies == before.replies + note;
    if signal == GatewayError && t.report == Written && OutputIsWritable(c, Failed(ErrorId(c, t.line))) {
      note := [ErrorId(c, t.line)];
      FailedBooked(c, b, ErrorId(c, t.line));
      BooksStep(c, s.log, Failed(ErrorId(c, t.line)));
      b := Booked(c, b, Failed(ErrorId(c, t.line)));
    }
  }

  lemma EndedCounters(c: Config, s: State, signal: Signal, t: Turn, before: Books)
    requires signal != Normal && Failing(c, s, before) && s.status == Running
    ensures StoppedCounters(Ended(c, s, signal, t).summary, before.received, Ended(c, s, signal, t).status == Stopped)
  {
  }

  lemma FailureSettles(c: Config, b0: Books, s: State, signal: Signal, t: Turn, before: Books) returns (e: State)
    requires Paired(b0.replies, b0.requests) && signal != Normal && s.status == Running && Failing(c, s, before)
    requires before == b0.(received := b0.received + 1, requests := b0.requests + RequestIds(c, t.line))
    ensures e == Ended(c, s, signal, t) && Settled(c, e, |b0.replies|)
  {
    EndedCounters(c, s, signal, t, before);
    var b, note;
    e, b, note := FailureBooks(c, s, signal, t, before);
    PrefixStaysPaired(b0, b, note, RequestIds(c, t.line));
    FailureIsLate(c, s.unconfirmed, t.line, before);
  }

  /** The note about a failed round is for its request, or without an id. */
  lemma FailureIsLate(c: Config, late: seq<Event>, line: string, before: Books)
    requires OneLate(late, before)
    ensures Answers(Failed(ErrorId(c, line)), Null) || RequestIds(c, line) == [ErrorId(c, line)]
    ensures Answers(Failed(ErrorId(c, line)), ErrorId(c, line))
    ensures forall e :: e in late ==> |before.requests| == |before.replies| + 1 && Answers(e, before.requests[|before.replies|])
  {
  }

  lemma RoundKeepsUsed(c: Config, requests: seq<Json>, seen: set<Json>, m: Object)
    requires Used(requests, seen) && (Id(m).Null? || Id(m) !in seen)
    ensures Used(requests + (if "id" in m then [Id(m)] else []), seen + if Id(m).Null? then {} else {Id(m)})
  {
  }

  lemma NormalRoundKeeps(c: Config, b0: Books, s: State, t: Turn, before: Books, s': State)
    requires Used(b0.requests, s.seen) && s.status == Running
    requires before == b0.(received := b0.received + 1, requests := b0.requests + RequestIds(c, t.line))
    requires Handled(c, s, t) == (s', Normal) && RoundEnds(c, s', Normal, before)
    ensures Kept(c, s', b0.received + 1)
  {
    HandledSeen(c, s, t);
    RoundKeepsUsed(c, b0.requests, s.seen, c.parse(t.line).value);
  }

  lemma FailedRoundSettles(c: Config, b0: Books, s: State, t: Turn, before: Books, r: (State, Signal)) returns (s': State)
    requires Paired(b0.replies, b0.requests) && s.status == Running
    requires before == b0.(received := b0.received + 1, requests := b0.requests + RequestIds(c, t.line))
    requires r == Handled(c, s, t) && r.1 != Normal && Failing(c, r.0, before)
    ensures s' == Ended(c, r.0, r.1, t) && s'.status != Running && Settled(c, s', |b0.replies|)
  {
    HandledStatus(c, s, t);
    EndedIsOver(c, r.0, r.1, t);
    s' := FailureSettles(c, b0, r.0, r.1, t, before);
  }

  /** A whole round, with the books before it and after its line was received. */
  lemma WholeRound(c: Config, b0: Books, s: State, t: Turn, before: Books) returns (s': State, answered: nat)
    requires Paired(b0.replies, b0.requests) && Used(b0.requests, s.seen) && s.status == Running
    requires before == b0.(received := b0.received + 1, requests := b0.requests + RequestIds(c, t.line))
    requires Opened(c, s, t.line, before)
    ensures s' == Ended(c, Handled(c, s, t).0, Handled(c, s, t).1, t)
    ensures if s'.status == Running then Kept(c, s', b0.received + 1) else Settled(c, s', answered)
  {
    var r := HandledRound(c, s, t, before);
    answered := |b0.replies|;
    if r.1 == Normal {
      s' := r.0;
      NormalRoundKeeps(c, b0, s, t, before, s');
    } else {
      s' := FailedRoundSettles(c, b0, s, t, before, r);
    }
  }

  lemma SteppedBooks(c: Config, s0: State, t: Turn, lines: nat) returns (s': State, answered: nat)
    requires Kept(c, s0, lines)
    ensures s' == Stepped(c, s0, t)
    ensures if s'.status == Running then Kept(c, s', lines + 1) else Settled(c, s', answered)
  {
    var s, b0, before := LineOpensRound(c, s0, t.line);
    s', answered := WholeRound(c, b0, s, t, before);
  }

  lemma EndedIsOver(c: Config, s: State, signal: Signal, t: Turn)
    requires signal != Normal
    ensures Ended(c, s, signal, t).status != Running
  {
  }

  lemma StartIsKept(c: Config, provider: Option<ProviderState>)
    ensures Kept(c, Start(provider), 0)
  {
    assert BooksOf(c, []) == EMPTY_BOOKS;
  }

  predicate AccountedFor(c: Config, s: State, lines: nat, answered: nat) {
    if s.status == Running then Kept(c, s, lines) else Settled(c, s, answered)
  }

  lemma OneMoreRound(c: Config, s: State, t: Turn, lines: nat, answered0: nat) returns (s': State, answered: nat)
    requires AccountedFor(c, s, lines, answered0)
    ensures s' == Stepped(c, s, t) && AccountedFor(c, s', lines + 1, answered)
  {
    s', answered := s, answered0;
    if s.status == Running {
      s', answered := SteppedBooks(c, s, t, lines);
    }
  }

  /** Every run: either all lines are accounted for and answered, or the last round is what is missing. */
  lemma {:induction false} EveryRunIsAccountedFor(c: Config, provider: Option<ProviderState>, turns: seq<Turn>)
    returns (s: State, answered: nat)
    ensures s == Run(c, provider, turns) && AccountedFor(c, s, |turns|, answered)
  {
    if turns == [] {
      s, answered := Start(provider), 0;
      StartIsKept(c, provider);
    } else {
      s, answered := EveryRunIsAccountedFor(c, provider, turns[..|turns| - 1]);
      s, answered := OneMoreRound(c, s, turns[|turns| - 1], |turns| - 1, answered);
    }
  }

  function Requests(c: Config, turns: seq<Turn>): seq<Json> {
    if turns == [] then [] else Requests(c, turns[..|turns| - 1]) + RequestIds(c, turns[|turns| - 1].line)
  }

  /** The ids of everything the client reads, in order. */
  function Replies(log: seq<Event>): seq<Json> {
    if log == [] then [] else Replies(log[..|log| - 1]) + ReplyIds(log[|log| - 1])
  }

  lemma {:induction false} BooksHoldReplies(c: Config, log: seq<Event>)
    ensures BooksOf(c, log).replies == Replies(log)
  {
    if log != [] {
      BooksHoldReplies(c, log[..|log| - 1]);
    }
  }

  lemma {:induction false} BooksHoldRequests(c: Config, provider: Option<ProviderState>, turns: seq<Turn>)
    requires Run(c, provider, turns).status == Running
    ensures BooksOf(c, Run(c, provider, turns).log).requests == Requests(c, turns)
  {
    if turns != [] {
      var init, t := turns[..|turns| - 1], turns[|turns| - 1];
      var s, answered := EveryRunIsAccountedFor(c, provider, init);
      BooksHoldRequests(c, provider, init);
      var heard, b0, before := LineOpensRound(c, s, t.line);
      var r := HandledRound(c, heard, t, before);
      if r.1 != Normal {
        EndedIsOver(c, r.0, r.1, t);
      }
    }
  }

  /**
   * A session that returns without a protocol error read every line; each line was forwarded or blocked,
   * each forwarded line was a control message or got its response judged, withheld responses are the
   * suspicious ones nobody released, and the client got exactly one reply to each request, in order,
   * with non-null request ids all different.
   */
  lemma ErrorFreeSessionsBalance(c: Config, provider: Option<ProviderState>, turns: seq<Turn>, cleaned: bool)
    requires SessionEnding(c, provider, turns, cleaned).Returned?
    requires SessionEnding(c, provider, turns, cleaned).summary.protocolErrors == 0
    ensures var t := SessionEnding(c, provider, turns, cleaned).summary;
            && |turns| == t.forwarded + t.blocked
            && t.forwarded == t.controlMessages + t.responseClean + t.responseReview + t.responseBlocked
            && t.responseApproved <= t.responseReview + t.responseBlocked && t.grantReuses <= t.approved
    ensures Paired(Replies(Run(c, provider, turns).log), Requests(c, turns)) && Distinct(Requests(c, turns))
  {
    var s, answered := EveryRunIsAccountedFor(c, provider, Within(turns));
    BooksHoldReplies(c, s.log);
    BooksHoldRequests(c, provider, Within(turns));
  }

  /**
   * A session that returns with a protocol error has exactly one: the requests before it were all
   * answered, at most one more reply went out, with the id of the last request or null, and at most
   * the last line is in no counter. Even if writes that ran out of time are delivered later, there are
   * at most two more replies, each with the id of the last request or null.
   */
  lemma StoppedSessionsFailOnce(c: Config, provider: Option<ProviderState>, turns: seq<Turn>, cleaned: bool) returns (answered: nat)
    requires SessionEnding(c, provider, turns, cleaned).Returned?
    requires SessionEnding(c, provider, turns, cleaned).summary.protocolErrors != 0
    ensures var s := Run(c, provider, Within(turns));
            && s.status == Stopped && s.summary.protocolErrors == 1
            && SettledBooks(BooksOf(c, s.log), answered) && BooksOf(c, s.log).replies == Replies(s.log)
            && LateReplies(BooksOf(c, s.log), s.unconfirmed, answered)
            && BooksOf(c, s.log).received - 1 <= s.summary.forwarded + s.summary.blocked <= BooksOf(c, s.log).received
  {
    var s;
    s, answered := EveryRunIsAccountedFor(c, provider, Within(turns));
    BooksHoldReplies(c, s.log);
  }

  // ----- correlation ---------------------------------------------------------------------------------------

  /** A correlated response carries the request's id itself, unless Python's `==` mixes it with 0, 1 or a float. */
  lemma CorrelationIsExactIff(response: Object, id: Json)
    requires Correlates(response, id) && GoodId(id)
    ensures Get(response, "id") == id <==> !(id.Int? && (Get(response, "id").Bool? || Get(response, "id").Real?))
  {
    var got := Get(response, "id");
    if id.Int? && got.Int? {
      assert (id.n as real).Floor == (got.n as real).Floor;
    }
  }

  /** The response `{"jsonrpc": "2.0", "id": true, "result": null}` passes as the answer to request 1. */
  lemma BooleanIdPassesAsOne() returns (response: Object)
    ensures Correlates(response, Int(1)) && Get(response, "id") == Bool(true)
  {
    response := map["jsonrpc" := Str("2.0"), "id" := Bool(true), "result" := Null];
  }
}
