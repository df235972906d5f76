/**
 * Exactly which rounds end a gateway session by an exception instead of a protocol error, and so
 * exactly when the whole call raises.
 */
module GatewayAborts {
  import opened Basics
  import opened Json
  import opened Models
  import opened Evaluator
  import opened Approval
  import opened Grants
  import opened Gateway
  import opened GatewayRuns
  import opened GatewayTheorems
  import opened GatewayForwarding
  import GatewayAccounts
  import Response

  // ----- what a round comes to before it writes to the client ---------------------------------------------

  /** Another exception, a gateway error, nothing to say, or a message to write. */
  datatype Reaction = Raises | Refuses | Silent | Replies(message: Object)

  /** A response that is not clean. */
  function SuspiciousReaction(c: Config, provider: Option<ProviderState>, m: Object, response: Object, scan: ScanReport, moment: Moment): Reaction {
    var withheld := LocalError(Id(m), -32043, DecisionName(scan.decision));
    if provider.None? then Replies(withheld)
    else
      var request := ResponseRequest(c, m, scan);
      if request.Err? then Refuses
      else Replies(if OutcomeOf(provider.value, request.value, moment).approved then response else withheld)
  }

  function AnswerReaction(c: Config, provider: Option<ProviderState>, m: Object, t: Turn): Reaction {
    var response := CorrelatedResponse(c, t.reply, Id(m));
    if response.None? then Refuses
    else if Method(m) == Str("initialize") && !GoodInitializeResponse(response.value) then Refuses
    else if Method(m) != TOOLS_CALL then Replies(response.value)
    else
      var scan := c.scan(m, response.value);
      if scan.Err? then (if scan.error == Unfit then Refuses else Raises)
      else if scan.value.outcome == Clean then Replies(response.value)
      else SuspiciousReaction(c, provider, m, response.value, scan.value, t.responseMoment)
  }

  function PassReaction(c: Config, provider: Option<ProviderState>, m: Object, t: Turn): Reaction {
    if !t.upstreamTakes then Refuses
    else if "id" in m then AnswerReaction(c, provider, m, t)
    else Silent
  }

  /** A warning whose approval request cannot be built, though it is approvable. */
  predicate CannotAsk(c: Config, provider: Option<ProviderState>, m: Object, result: GatewayResult) {
    result.evaluation.decision == Warn && provider.Some? && CallRequest(c, m, result).Err? && !NonApprovable(result.evaluation.reasons)
  }

  function AskedProvider(c: Config, provider: Option<ProviderState>, m: Object, result: GatewayResult, moment: Moment): Option<ProviderState> {
    if result.evaluation.decision == Warn && provider.Some? && CallRequest(c, m, result).Ok?
    then Some(AfterAuthorize(provider.value, CallRequest(c, m, result).value, moment))
    else provider
  }

  function CallReaction(c: Config, provider: Option<ProviderState>, m: Object, result: GatewayResult, t: Turn): Reaction {
    if LetThrough(c, provider, m, result, t.callMoment)
    then PassReaction(c, AskedProvider(c, provider, m, result, t.callMoment), m, t)
    else if CannotAsk(c, provider, m, result) then Refuses
    else Replies(LocalError(Id(m), -32041, DecisionName(result.evaluation.decision)))
  }

  function ReactionTo(c: Config, s: State, t: Turn): Reaction {
    if !AdmittedLine(c, s, t.line) then Refuses
    else
      var m := c.parse(t.line).value;
      if Method(m) == TOOLS_CALL then
        if !AdmittedCall(c, s, t.line) then Refuses
        else if c.evaluate(m).Err? then Raises
        else CallReaction(c, s.provider, m, c.evaluate(m).value, t)
      else if UnhashableMethod(m) then Raises
      else if !GoodControl(m, s.phase) then Refuses
      else PassReaction(c, s.provider, m, t)
  }

  /** What becomes of a reaction once its message, if any, is written. */
  function SignalOf(c: Config, t: Turn, r: Reaction): Signal {
    match r
    case Raises => OtherError
    case Refuses => GatewayError
    case Silent => Normal
    case Replies(message) =>
      if !Writable(c, message) then OtherError else if t.client == Written then Normal else GatewayError
  }

  lemma MethodNamesDiffer()
    ensures TOOLS_CALL != Str("initialize")
  {
    assert "tools/call"[0] != "initialize"[0];
  }

  lemma SentSignal(c: Config, s: State, e: Event, t: Turn)
    requires ClientOutput(e).Some?
    ensures Sent(c, s, e, t.client).1 == SignalOf(c, t, Replies(ClientOutput(e).value))
  {
  }

  lemma SuspiciousSignal(c: Config, s: State, m: Object, response: Object, scan: ScanReport, t: Turn)
    ensures var judged := SuspiciousJudged(c, s, m, response, scan, t.responseMoment);
            JudgedResponse(c, judged.0, judged.1, m, response, scan.decision, t).1
            == SignalOf(c, t, SuspiciousReaction(c, s.provider, m, response, scan, t.responseMoment))
  {
    var judged := SuspiciousJudged(c, s, m, response, scan, t.responseMoment);
    SuspiciousVerdict(c, s, m, response, scan, t.responseMoment);
    SentSignal(c, judged.0, Withheld(m, response, scan.decision), t);
    SentSignal(c, judged.0, Relayed(m, response), t);
    DeliveredSignal(c, judged.0, m, response, t);
  }

  lemma DeliveredSignal(c: Config, s: State, m: Object, response: Object, t: Turn)
    ensures Delivered(c, s, m, response, t.client).1 == Sent(c, s, Relayed(m, response), t.client).1
  {
  }

  lemma SuspiciousVerdict(c: Config, s: State, m: Object, response: Object, scan: ScanReport, moment: Moment)
    ensures match SuspiciousJudged(c, s, m, response, scan, moment).1
            case Fault => SuspiciousReaction(c, s.provider, m, response, scan, moment) == Refuses
            case Hold => SuspiciousReaction(c, s.provider, m, response, scan, moment)
                         == Replies(LocalError(Id(m), -32043, DecisionName(scan.decision)))
            case Pass => SuspiciousReaction(c, s.provider, m, response, scan, moment) == Replies(response)
  {
  }

  lemma AnsweredSignal(c: Config, s: State, m: Object, t: Turn)
    ensures Answered(c, s, m, t).1 == SignalOf(c, t, AnswerReaction(c, s.provider, m, t))
  {
    MethodNamesDiffer();
    var response := CorrelatedResponse(c, t.reply, Id(m));
    if response.Some? {
      SentSignal(c, s, Relayed(m, response.value), t);
      if Method(m) == TOOLS_CALL && c.scan(m, response.value).Ok? {
        var scan := c.scan(m, response.value).value;
        var counted := CountOutcome(s, scan.outcome);
        ScannedAnswer(c, s, t, m, response.value, scan);
        SentSignal(c, counted, Relayed(m, response.value), t);
        SuspiciousSignal(c, counted, m, response.value, scan, t);
      }
    }
  }

  lemma PassedSignal(c: Config, s: State, m: Object, t: Turn)
    ensures Passed(c, s, m, t).1 == SignalOf(c, t, PassReaction(c, s.provider, m, t))
  {
    if t.upstreamTakes && "id" in m {
      PassedRequest(c, s, m, t);
      AnsweredSignal(c, SentUpstream(s, t.line, m), m, t);
    }
  }

  lemma CallDecidedSignal(c: Config, s: State, m: Object, result: GatewayResult, t: Turn)
    ensures CallDecided(c, s, m, result, t).1 == SignalOf(c, t, CallReaction(c, s.provider, m, result, t))
  {
    var judged := PreFlight(c, s, m, result, t.callMoment);
    PassIff(c, s, m, result, t.callMoment);
    PreFlightHolds(c, s, m, result, t.callMoment);
    PassedSignal(c, judged.0, m, t);
    SentSignal(c, judged.0.(summary := judged.0.summary.(blocked := judged.0.summary.blocked + 1)),
               Blocked(m, result.evaluation.decision), t);
  }

  lemma PreFlightHolds(c: Config, s: State, m: Object, result: GatewayResult, moment: Moment)
    ensures PreFlight(c, s, m, result, moment).1 == Fault <==> CannotAsk(c, s.provider, m, result)
    ensures PreFlight(c, s, m, result, moment).0.provider == AskedProvider(c, s.provider, m, result, moment)
  {
  }

  lemma HandledSignal(c: Config, s: State, t: Turn)
    requires s.status == Running
    ensures Handled(c, s, t).1 == SignalOf(c, t, ReactionTo(c, s, t))
  {
    if AdmittedLine(c, s, t.line) {
      var m := c.parse(t.line).value;
      if Method(m) == TOOLS_CALL {
        if AdmittedCall(c, s, t.line) && c.evaluate(m).Ok? {
          CallDecidedSignal(c, Admitted(s, m), m, c.evaluate(m).value, t);
        }
      } else {
        PassedSignal(c, Admitted(s, m).(summary := s.summary.(controlMessages := s.summary.controlMessages + 1)), m, t);
      }
    }
  }

  // ----- the ways to end by exception ---------------------------------------------------------------------

  /** A control message whose method is a list or an object. */
  predicate UnhashableControl(c: Config, s: State, line: string) {
    AdmittedLine(c, s, line) && UnhashableMethod(c.parse(line).value)
  }

  /** A forwarded call whose correlated response holds a URL that urlparse refuses. */
  predicate UnreadableAnswer(c: Config, s: State, t: Turn) {
    && AdmittedCall(c, s, t.line) && t.upstreamTakes
    && (var m := c.parse(t.line).value;
        && c.evaluate(m).Ok? && LetThrough(c, s.provider, m, c.evaluate(m).value, t.callMoment)
        && CorrelatedResponse(c, t.reply, Id(m)).Some?
        && c.scan(m, CorrelatedResponse(c, t.reply, Id(m)).value) == Err(UnreadableUrl))
  }

  /** The round is to write a message that cannot be encoded. */
  predicate UnwritableReply(c: Config, s: State, t: Turn) {
    ReactionTo(c, s, t).Replies? && !Writable(c, ReactionTo(c, s, t).message)
  }

  /** The round ends in a gateway error, and the note about it cannot be encoded. */
  predicate UnwritableNote(c: Config, s: State, t: Turn) {
    SignalOf(c, t, ReactionTo(c, s, t)) == GatewayError && !Writable(c, LocalError(ErrorId(c, t.line), -32042, DecisionName(Deny)))
  }

  predicate Aborting(c: Config, s: State, t: Turn) {
    && s.status == Running
    && (MalformedCall(c, s, t.line) || UnhashableControl(c, s, t.line) || UnreadableAnswer(c, s, t)
        || UnwritableReply(c, s, t) || UnwritableNote(c, s, t))
  }

  lemma RaisesIff(c: Config, s: State, t: Turn)
    requires s.status == Running
    ensures ReactionTo(c, s, t) == Raises
            <==> MalformedCall(c, s, t.line) || UnhashableControl(c, s, t.line) || UnreadableAnswer(c, s, t)
  {
    MethodNamesDiffer();
  }

  // A round ends the session by exception if and only if it is a malformed call, has an unhashable control
  // method, forwards a call whose answer cannot be scanned, or is to write a message that cannot be encoded.
  lemma RoundAbortsIff(c: Config, s: State, t: Turn)
    requires s.status == Running
    ensures Stepped(c, s, t).status == Aborted <==> Aborting(c, s, t)
  {
    var heard := Logged(s, Received(t.line));
    HandledSignal(c, heard, t);
    SameReaction(c, s, heard, t);
    RaisesIff(c, s, t);
    GatewayAccounts.HandledStatus(c, heard, t);
  }

  /** Hearing the line changes nothing that matters. */
  lemma SameReaction(c: Config, s: State, heard: State, t: Turn)
    requires heard == Logged(s, Received(t.line))
    ensures ReactionTo(c, heard, t) == ReactionTo(c, s, t)
  {
  }

  // ----- the whole session --------------------------------------------------------------------------------------

  predicate AbortsAt(c: Config, provider: Option<ProviderState>, turns: seq<Turn>, k: int) {
    0 <= k < |turns| && Aborting(c, Run(c, provider, turns[..k]), turns[k])
  }

  predicate AbortsSomewhere(c: Config, provider: Option<ProviderState>, turns: seq<Turn>) {
    exists k :: 0 <= k < |turns| && AbortsAt(c, provider, turns, k)
  }

  lemma AbortsSomewhereStep(c: Config, provider: Option<ProviderState>, turns: seq<Turn>, init: seq<Turn>, s: State)
    requires turns != [] && init == turns[..|turns| - 1] && s == Run(c, provider, init)
    ensures AbortsSomewhere(c, provider, turns)
            <==> AbortsSomewhere(c, provider, init) || Aborting(c, s, turns[|turns| - 1])
  {
    forall k | 0 <= k < |init| ensures AbortsAt(c, provider, init, k) <==> AbortsAt(c, provider, turns, k) {
      AbortsAtPrefix(c, provider, turns, init, k);
    }
    AbortsAtLast(c, provider, turns, init, s);
  }

  lemma AbortsAtPrefix(c: Config, provider: Option<ProviderState>, turns: seq<Turn>, init: seq<Turn>, k: int)
    requires turns != [] && init == turns[..|turns| - 1] && 0 <= k < |init|
    ensures AbortsAt(c, provider, init, k) <==> AbortsAt(c, provider, turns, k)
  {
    assert init[..k] == turns[..k] && init[k] == turns[k];
  }

  lemma AbortsAtLast(c: Config, provider: Option<ProviderState>, turns: seq<Turn>, init: seq<Turn>, s: State)
    requires turns != [] && init == turns[..|turns| - 1] && s == Run(c, provider, init)
    ensures AbortsAt(c, provider, turns, |turns| - 1) <==> Aborting(c, s, turns[|turns| - 1])
  {
  }

  lemma OverOrAborting(c: Config, s: State, t: Turn)
    ensures Stepped(c, s, t).status == Aborted <==> s.status == Aborted || Aborting(c, s, t)
  {
    if s.status == Running {
      RoundAbortsIff(c, s, t);
    }
  }

  lemma {:induction false} RunAbortsIff(c: Config, provider: Option<ProviderState>, turns: seq<Turn>) returns (s: State)
    ensures s == Run(c, provider, turns) && (s.status == Aborted <==> AbortsSomewhere(c, provider, turns))
  {
    if turns == [] {
      s := Start(provider);
    } else {
      var init := turns[..|turns| - 1];
      var before := RunAbortsIff(c, provider, init);
      AbortsSomewhereStep(c, provider, turns, init, before);
      OverOrAborting(c, before, turns[|turns| - 1]);
      s := Stepped(c, before, turns[|turns| - 1]);
    }
  }

  // The call returns no summary if and only if some round ends by exception in one of these ways, the
  // session is still running at the message limit, or the upstream process could not be cleaned up.
  lemma SessionRaisesIff(c: Config, provider: Option<ProviderState>, turns: seq<Turn>, cleaned: bool)
    ensures SessionEnding(c, provider, turns, cleaned) == RaisedOut
            <==> !cleaned || AbortsSomewhere(c, provider, Within(turns))
                 || (|turns| >= MAX_SESSION_MESSAGES && Run(c, provider, Within(turns)).status == Running)
  {
    var s := RunAbortsIff(c, provider, Within(turns));
  }

  // ----- nothing more for the client ---------------------------------------------------------------------------

  /** `more` continues `log` without a message to the client. */
  predicate SilentlyExtends(log: seq<Event>, more: seq<Event>) {
    log <= more && forall i :: |log| <= i < |more| ==> ClientOutput(more[i]).None?
  }

  lemma SilentStep(log: seq<Event>, e: Event)
    requires ClientOutput(e).None?
    ensures SilentlyExtends(log, log + [e])
  {
  }

  lemma SilentTwice(a: seq<Event>, b: seq<Event>, c: seq<Event>)
    requires SilentlyExtends(a, b) && SilentlyExtends(b, c)
    ensures SilentlyExtends(a, c)
  {
    forall i | |a| <= i < |c| ensures ClientOutput(c[i]).None? {
      assert i < |b| ==> c[i] == b[i];
    }
  }

  lemma JudgedResponseIsSilent(c: Config, s: State, verdict: Verdict, m: Object, response: Object, decision: Decision, t: Turn)
    requires JudgedResponse(c, s, verdict, m, response, decision, t).1 != Normal
    ensures JudgedResponse(c, s, verdict, m, response, decision, t).0.log == s.log
  {
  }

  lemma PostFlightIsSilent(c: Config, s: State, m: Object, response: Object, scan: ScanReport, moment: Moment)
    ensures SilentlyExtends(s.log, PostFlightJudged(c, s, m, response, scan, moment).0.log)
  {
    if scan.outcome != Clean && s.provider.Some? && ResponseRequest(c, m, scan).Ok? {
      SilentStep(s.log, Asked(OfResponse(m, response, scan), AskAbout(s.provider.value, ResponseRequest(c, m, scan).value, moment)));
    }
  }

  lemma AnsweredIsSilent(c: Config, s: State, m: Object, t: Turn)
    requires Answered(c, s, m, t).1 != Normal
    ensures SilentlyExtends(s.log, Answered(c, s, m, t).0.log)
  {
    MethodNamesDiffer();
    var response := CorrelatedResponse(c, t.reply, Id(m));
    if response.Some? && Method(m) == TOOLS_CALL && c.scan(m, response.value).Ok? {
      var scan := c.scan(m, response.value).value;
      var judged := PostFlightJudged(c, s, m, response.value, scan, t.responseMoment);
      ScannedAnswer(c, s, t, m, response.value, scan);
      PostFlightIsSilent(c, s, m, response.value, scan, t.responseMoment);
      JudgedResponseIsSilent(c, judged.0, judged.1, m, response.value, scan.decision, t);
    }
  }

  lemma PassedIsSilent(c: Config, s: State, m: Object, t: Turn)
    requires Passed(c, s, m, t).1 != Normal
    ensures SilentlyExtends(s.log, Passed(c, s, m, t).0.log)
  {
    if t.upstreamTakes && "id" in m {
      PassedRequest(c, s, m, t);
      AnsweredIsSilent(c, SentUpstream(s, t.line, m), m, t);
      SilentTwice(s.log, SentUpstream(s, t.line, m).log, Passed(c, s, m, t).0.log);
    }
  }

  lemma PreFlightIsSilent(c: Config, s: State, m: Object, result: GatewayResult, moment: Moment)
    ensures SilentlyExtends(s.log, PreFlight(c, s, m, result, moment).0.log)
  {
  }

  lemma CallDecidedIsSilent(c: Config, s: State, m: Object, result: GatewayResult, t: Turn)
    requires CallDecided(c, s, m, result, t).1 != Normal
    ensures SilentlyExtends(s.log, CallDecided(c, s, m, result, t).0.log)
  {
    var judged := PreFlight(c, s, m, result, t.callMoment);
    PreFlightIsSilent(c, s, m, result, t.callMoment);
    if judged.1 == Pass {
      PassedIsSilent(c, judged.0, m, t);
      SilentTwice(s.log, judged.0.log, CallDecided(c, s, m, result, t).0.log);
    }
  }

  lemma HandledIsSilent(c: Config, s: State, t: Turn)
    requires Handled(c, s, t).1 != Normal
    ensures SilentlyExtends(s.log, Handled(c, s, t).0.log)
  {
    if c.parse(t.line).Some? {
      var m := c.parse(t.line).value;
      var admitted := Admitted(s, m);
      if GoodId(Id(m)) && (Id(m).Null? || Id(m) !in s.seen) {
        if Method(m) == TOOLS_CALL {
          if "id" in m && s.phase == Ready && c.evaluate(m).Ok? {
            CallDecidedIsSilent(c, admitted, m, c.evaluate(m).value, t);
          }
        } else if !UnhashableMethod(m) && GoodControl(m, s.phase) {
          PassedIsSilent(c, admitted.(summary := s.summary.(controlMessages := s.summary.controlMessages + 1)), m, t);
        }
      }
    }
  }

  /** Such a round is silent: nothing more is written to the client. */
  lemma AbortingRoundIsSilent(c: Config, s: State, t: Turn)
    requires Aborting(c, s, t)
    ensures SilentlyExtends(s.log, Stepped(c, s, t).log)
  {
    var heard := Logged(s, Received(t.line));
    RoundAbortsIff(c, s, t);
    GatewayAccounts.HandledStatus(c, heard, t);
    HandledIsSilent(c, heard, t);
    SilentTwice(s.log, heard.log, Handled(c, heard, t).0.log);
  }

  /** One aborting round, and the whole call raises: no summary, and nothing more for the client. */
  lemma AbortingRoundsEndTheSession(c: Config, provider: Option<ProviderState>, turns: seq<Turn>, k: nat, cleaned: bool)
    requires k < |turns| && k < MAX_SESSION_MESSAGES && Aborting(c, Run(c, provider, turns[..k]), turns[k])
    ensures SessionEnding(c, provider, turns, cleaned) == RaisedOut
    ensures SilentlyExtends(Run(c, provider, turns[..k]).log, Run(c, provider, Within(turns)).log)
  {
    RoundAbortsIff(c, Run(c, provider, turns[..k]), turns[k]);
    AbortingRoundIsSilent(c, Run(c, provider, turns[..k]), turns[k]);
    OverAfterRound(c, provider, turns, k);
  }

  // ----- under the functions of this repository ---------------------------------------------------------------

  /** A string can be encoded or not; the other ids are encoded always. */
  predicate GoodForOutput(c: Config, id: Json) {
    id.Str? ==> c.encodable(id)
  }

  /**
   * Canonical UTF-8 JSON encodes an object by its parts: a local error is constants and an id, and no
   * object is encoded whose id is not.
   */
  ghost predicate EncodesByParts(c: Config) {
    && (forall id: Json, code: int, d: Decision :: GoodId(id) ==>
          (Writable(c, LocalError(id, code, DecisionName(d))) <==> GoodForOutput(c, id)))
    && (forall m: Object :: Writable(c, m) ==> GoodForOutput(c, Id(m)))
  }

  /** A line whose id holds a lone surrogate, or anything else that cannot be encoded. */
  predicate UnwritableId(c: Config, line: string) {
    c.parse(line).Some? && GoodId(Id(c.parse(line).value)) && !GoodForOutput(c, Id(c.parse(line).value))
  }

  /** The answer to a control message, about to be relayed, cannot be encoded. */
  predicate UnwritableControlAnswer(c: Config, s: State, t: Turn) {
    && AdmittedLine(c, s, t.line) && t.upstreamTakes
    && (var m := c.parse(t.line).value;
        var response := CorrelatedResponse(c, t.reply, Id(m));
        && Method(m) != TOOLS_CALL && GoodControl(m, s.phase) && "id" in m && response.Some?
        && (Method(m) == Str("initialize") ==> GoodInitializeResponse(response.value))
        && !Writable(c, response.value))
  }

  ghost predicate IsLocalError(message: Object, id: Json) {
    exists code: int, d: Decision :: message == LocalError(id, code, DecisionName(d))
  }

  /** The correlated answer to a message that was forwarded. */
  predicate IsAnswer(c: Config, s: State, t: Turn, m: Object, message: Object) {
    && t.upstreamTakes && "id" in m && CorrelatedResponse(c, t.reply, Id(m)) == Some(message)
    && (Method(m) == TOOLS_CALL ==> c.scan(m, message).Ok?)
    && (Method(m) != TOOLS_CALL ==> GoodControl(m, s.phase) && (Method(m) == Str("initialize") ==> GoodInitializeResponse(message)))
  }

  lemma PassReplyIs(c: Config, s: State, provider: Option<ProviderState>, m: Object, t: Turn)
    requires PassReaction(c, provider, m, t).Replies? && (Method(m) != TOOLS_CALL ==> GoodControl(m, s.phase))
    ensures var message := PassReaction(c, provider, m, t).message;
            IsLocalError(message, Id(m)) || IsAnswer(c, s, t, m, message)
  {
    var message, response := PassReaction(c, provider, m, t).message, CorrelatedResponse(c, t.reply, Id(m)).value;
    if message != response {
      var scan := c.scan(m, response).value;
      assert message == LocalError(Id(m), -32043, DecisionName(scan.decision));
    }
  }

  /** What a round writes is a local error about its id, or the answer to what it forwarded. */
  lemma ReplyIs(c: Config, s: State, t: Turn)
    requires ReactionTo(c, s, t).Replies?
    ensures AdmittedLine(c, s, t.line)
    ensures var m, message := c.parse(t.line).value, ReactionTo(c, s, t).message;
            IsLocalError(message, Id(m)) || IsAnswer(c, s, t, m, message)
  {
    var m := c.parse(t.line).value;
    if Method(m) == TOOLS_CALL {
      var result := c.evaluate(m).value;
      if LetThrough(c, s.provider, m, result, t.callMoment) {
        PassReplyIs(c, s, AskedProvider(c, s.provider, m, result, t.callMoment), m, t);
      } else {
        assert ReactionTo(c, s, t).message == LocalError(Id(m), -32041, DecisionName(result.evaluation.decision));
      }
    } else {
      PassReplyIs(c, s, s.provider, m, t);
    }
  }

  /** An answer carries the id it answers, so it cannot be encoded either. */
  lemma AnswerHasTheId(c: Config, t: Turn, id: Json, response: Object)
    requires CorrelatedResponse(c, t.reply, id) == Some(response) && EncodesByParts(c) && !GoodForOutput(c, id)
    ensures !Writable(c, response)
  {
    assert Id(response) == id;
  }

  /** Nothing that a round says about such an id can be written. */
  lemma UnwritableIdAborts(c: Config, s: State, t: Turn)
    requires s.status == Running && EncodesByParts(c) && UnwritableId(c, t.line)
    ensures Aborting(c, s, t)
  {
    var m, r := c.parse(t.line).value, ReactionTo(c, s, t);
    assert ErrorId(c, t.line) == Id(m) && "id" in m;
    match r {
      case Raises => RaisesIff(c, s, t);
      case Refuses =>
      case Replies(message) =>
        ReplyIs(c, s, t);
        if IsAnswer(c, s, t, m, message) {
          AnswerHasTheId(c, t, Id(m), message);
        }
    }
  }

  lemma UnwritableReplyIs(c: Config, lib: Library, sc: Response.Scanner, policy: Policy, s: State, t: Turn)
    requires Deployed(c, lib, sc, policy) && EncodesByParts(c) && UnwritableReply(c, s, t)
    ensures UnwritableId(c, t.line) || UnwritableControlAnswer(c, s, t)
  {
    var m, message := c.parse(t.line).value, ReactionTo(c, s, t).message;
    ReplyIs(c, s, t);
    if !IsLocalError(message, Id(m)) && Method(m) == TOOLS_CALL {
      ScannedIsWritable(c, lib, sc, policy, m, message);
    }
  }

  lemma UnwritableNoteIs(c: Config, s: State, t: Turn)
    requires EncodesByParts(c) && UnwritableNote(c, s, t)
    ensures UnwritableId(c, t.line)
  {
  }

  lemma ControlAnswerAborts(c: Config, s: State, t: Turn)
    requires s.status == Running && UnwritableControlAnswer(c, s, t)
    ensures Aborting(c, s, t)
  {
    if !UnhashableControl(c, s, t.line) {
      assert UnwritableReply(c, s, t);
    }
  }

  /** The same ways, read off the line and the answer. */
  predicate AbortsByInput(c: Config, s: State, t: Turn) {
    && s.status == Running
    && (UnwritableId(c, t.line) || MalformedCall(c, s, t.line) || UnhashableControl(c, s, t.line)
        || UnreadableAnswer(c, s, t) || UnwritableControlAnswer(c, s, t))
  }

  // Deployed, the conditions are read off the line and the answer: the round ends by exception if and only
  // if the id of the line cannot be encoded, whatever else is on it; the call is malformed; the method
  // cannot be hashed; the answer to a call cannot be scanned; or the answer to a control message cannot be
  // encoded. The answer to a call is fingerprinted before it is relayed, so encoding it never fails.
  lemma DeployedRoundAbortsIff(c: Config, lib: Library, sc: Response.Scanner, policy: Policy, s: State, t: Turn)
    requires Deployed(c, lib, sc, policy) && EncodesByParts(c) && s.status == Running
    ensures Stepped(c, s, t).status == Aborted <==> AbortsByInput(c, s, t)
    ensures Aborting(c, s, t) <==> AbortsByInput(c, s, t)
  {
    RoundAbortsIff(c, s, t);
    if UnwritableId(c, t.line) {
      UnwritableIdAborts(c, s, t);
    }
    if UnwritableControlAnswer(c, s, t) {
      ControlAnswerAborts(c, s, t);
    }
    if UnwritableReply(c, s, t) {
      UnwritableReplyIs(c, lib, sc, policy, s, t);
    }
    if UnwritableNote(c, s, t) {
      UnwritableNoteIs(c, s, t);
    }
  }

  // And so the whole call raises if and only if some line or answer is of this kind, the session is still
  // running at the message limit, or the upstream process could not be cleaned up.
  lemma DeployedSessionRaisesIff(c: Config, lib: Library, sc: Response.Scanner, policy: Policy,
                                 provider: Option<ProviderState>, turns: seq<Turn>, cleaned: bool)
    requires Deployed(c, lib, sc, policy) && EncodesByParts(c)
    ensures SessionEnding(c, provider, turns, cleaned) == RaisedOut
            <==> !cleaned
                 || (exists k :: 0 <= k < |Within(turns)| && AbortsByInput(c, Run(c, provider, Within(turns)[..k]), Within(turns)[k]))
                 || (|turns| >= MAX_SESSION_MESSAGES && Run(c, provider, Within(turns)).status == Running)
  {
    SessionRaisesIff(c, provider, turns, cleaned);
    var w := Within(turns);
    forall k | 0 <= k < |w| ensures AbortsAt(c, provider, w, k) <==> AbortsByInput(c, Run(c, provider, w[..k]), w[k]) {
      AbortsAtByInput(c, lib, sc, policy, Run(c, provider, w[..k]), w[k]);
    }
  }

  lemma AbortsAtByInput(c: Config, lib: Library, sc: Response.Scanner, policy: Policy, s: State, t: Turn)
    requires Deployed(c, lib, sc, policy) && EncodesByParts(c)
    ensures Aborting(c, s, t) <==> AbortsByInput(c, s, t)
  {
    if s.status == Running {
      DeployedRoundAbortsIff(c, lib, sc, policy, s, t);
    }
  }

  // For a call a ready session admits: its id cannot be encoded, evaluate_mcp_request refuses it, or the
  // text of its answer holds a URL that urlparse refuses.
  lemma DeployedCallAbortsIff(c: Config, lib: Library, sc: Response.Scanner, policy: Policy, s: State, t: Turn)
    requires Deployed(c, lib, sc, policy) && EncodesByParts(c) && AdmittedCall(c, s, t.line)
    ensures var m := c.parse(t.line).value;
            var response := CorrelatedResponse(c, t.reply, Id(m));
            Stepped(c, s, t).status == Aborted
            <==> !GoodForOutput(c, Id(m)) || McpEvaluated(lib, m, policy).Err?
                 || (t.upstreamTakes && LetThrough(c, s.provider, m, McpEvaluated(lib, m, policy).value, t.callMoment)
                     && response.Some? && Response.Scannable(sc, m, response.value)
                     && Response.ValidToolResult(sc, Response.ResponseResult(sc, m, response.value))
                     && sc.hosts(sc.text(Response.Envelope(response.value)).value).None?)
  {
    DeployedRoundAbortsIff(c, lib, sc, policy, s, t);
    CallAbortsByInput(c, s, t);
    if c.evaluate(c.parse(t.line).value).Ok? {
      UnreadableAnswerIs(c, lib, sc, policy, s, t);
    }
  }

  /** Of the five ways three concern an admitted call. */
  lemma CallAbortsByInput(c: Config, s: State, t: Turn)
    requires AdmittedCall(c, s, t.line)
    ensures AbortsByInput(c, s, t)
            <==> UnwritableId(c, t.line) || c.evaluate(c.parse(t.line).value).Err? || UnreadableAnswer(c, s, t)
  {
  }

  lemma UnreadableAnswerIs(c: Config, lib: Library, sc: Response.Scanner, policy: Policy, s: State, t: Turn)
    requires Deployed(c, lib, sc, policy) && AdmittedCall(c, s, t.line) && c.evaluate(c.parse(t.line).value).Ok?
    ensures var m := c.parse(t.line).value;
            var response := CorrelatedResponse(c, t.reply, Id(m));
            UnreadableAnswer(c, s, t)
            <==> t.upstreamTakes && LetThrough(c, s.provider, m, c.evaluate(m).value, t.callMoment)
                 && response.Some? && Response.Scannable(sc, m, response.value)
                 && Response.ValidToolResult(sc, Response.ResponseResult(sc, m, response.value))
                 && sc.hosts(sc.text(Response.Envelope(response.value)).value).None?
  {
    var m := c.parse(t.line).value;
    var response := CorrelatedResponse(c, t.reply, Id(m));
    if response.Some? {
      Response.UnreadableUrlIff(sc, m, response.value);
    }
  }
}
