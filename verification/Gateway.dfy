/**
 * The stdio gateway session (runtime_gateway.py): a sequential proxy between one MCP client and one
 * upstream server, stepped over whatever the client, the upstream, the operator and the clock do.
 *
 * `GatewaySession` is the loop with its fields; `Handled` and `Stepped` say what one message does to
 * the session as a function, and every method is proved to do exactly that.
 */
module Gateway {
  import opened Basics
  import opened Json
  import opened Models
  import opened Evaluator
  import opened Approval
  import opened Grants

  const MCP_PROTOCOL_VERSION := "2025-11-25"
  const MAX_SESSION_MESSAGES := 10_000
  const TOOLS_CALL := Str("tools/call")

  /**
   * What stays fixed during a session. `parse` reads one bounded, newline-terminated line as a JSON
   * object without repeated keys, and fails on every other line. The policy evaluation and the
   * response scan are passed in; `Deployed` says which functions a deployment passes.
   */
  datatype Config = Config(
    parse: string -> Option<Object>, encodable: Json -> bool,
    evaluate: Object -> Result<GatewayResult, InputError>,
    scan: (Object, Object) -> Result<ScanReport, ScanFailure>,
    upstream: Json, policyHash: Json, timeout: real)

  // ----- the world ------------------------------------------------------------------------------------

  /**
   * One write of an encoded message to the client: done, or failed as a gateway error because the message
   * is too long, the stream broke, or the time ran out.
   */
  datatype Write = Written | Broken

  /**
   * One round of the loop as the world decides it: the client's line; the operator while the call is
   * judged; whether the upstream takes the line; the upstream's next line, if one arrives in time;
   * the operator while the response is judged; the write to the client; the write of a final error.
   */
  datatype Turn = Turn(
    line: string, callMoment: Moment, upstreamTakes: bool, reply: Option<string>,
    responseMoment: Moment, client: Write, report: Write)

  // ----- what is observable ---------------------------------------------------------------------------

  datatype Question =
    | OfCall(message: Object, result: GatewayResult)
    | OfResponse(message: Object, response: Object, scan: ScanReport)

  /** Everything that crosses the session's streams, in order. */
  datatype Event =
    | Received(line: string)
    | Asked(question: Question, ask: Ask)
    | Forwarded(line: string, message: Object)
    | Relayed(message: Object, response: Object)
    | Blocked(message: Object, decision: Decision)
    | Withheld(message: Object, response: Object, decision: Decision)
    | Failed(id: Json)

  function LocalError(id: Json, code: int, decision: string): Object {
    map["jsonrpc" := Str("2.0"), "id" := id,
        "error" := Obj(map["code" := Int(code),
                           "data" := Obj(map["decision" := Str(decision), "forwarded" := Bool(false)])])]
  }

  /** The message the client reads for an event, if any. */
  function ClientOutput(e: Event): Option<Object> {
    match e
    case Relayed(_, response) => Some(response)
    case Blocked(m, d) => Some(LocalError(Get(m, "id"), -32041, DecisionName(d)))
    case Withheld(m, _, d) => Some(LocalError(Get(m, "id"), -32043, DecisionName(d)))
    case Failed(id) => Some(LocalError(id, -32042, DecisionName(Deny)))
    case _ => None
  }

  /** The message can be written as canonical UTF-8 JSON; a lone surrogate, say, cannot. */
  predicate Writable(c: Config, message: Object) {
    c.encodable(Obj(message))
  }

  predicate OutputIsWritable(c: Config, e: Event) {
    ClientOutput(e).Some? ==> Writable(c, ClientOutput(e).value)
  }

  datatype Phase = New | Initialized | Ready

  datatype Status = Running | Stopped | Aborted

  datatype Summary = Summary(
    forwarded: nat, blocked: nat, approved: nat, grantReuses: nat, responseClean: nat, responseReview: nat,
    responseBlocked: nat, responseApproved: nat, controlMessages: nat, protocolErrors: nat)

  const NOTHING_YET := Summary(0, 0, 0, 0, 0, 0, 0, 0, 0, 0)

  /**
   * `unconfirmed` are the messages whose write failed: the thread of a write that ran out of time may
   * still deliver its message later.
   */
  datatype State = State(
    phase: Phase, seen: set<Json>, summary: Summary, provider: Option<ProviderState>, log: seq<Event>,
    unconfirmed: seq<Event>, status: Status)

  function Start(provider: Option<ProviderState>): State {
    State(New, {}, NOTHING_YET, provider, [], [], Running)
  }

  function Logged(s: State, e: Event): State {
    s.(log := s.log + [e])
  }

  // ----- pure checks -----------------------------------------------------------------------------------

  function Method(message: Object): Json {
    Get(message, "method")
  }

  function Id(message: Object): Json {
    Get(message, "id")
  }

  predicate GoodId(id: Json) {
    id.Null? || id.Str? || id.Int?
  }

  function ParamsOrEmpty(message: Object): Json {
    if "params" in message then message["params"] else Obj(map[])
  }

  predicate GoodInitialize(params: Object) {
    Get(params, "protocolVersion") == Str(MCP_PROTOCOL_VERSION) && Get(params, "capabilities").Obj? && Get(params, "clientInfo").Obj?
  }

  predicate ControlMethod(name: Json) {
    name == Str("initialize") || name == Str("notifications/initialized") || name == Str("ping") || name == Str("tools/list")
  }

  /** Which control messages a session takes in a phase. */
  predicate GoodControl(message: Object, phase: Phase) {
    var name, params := Method(message), ParamsOrEmpty(message);
    && Get(message, "jsonrpc") == Str("2.0") && ControlMethod(name) && params.Obj?
    && (name == Str("initialize") ==> phase == New && "id" in message && GoodInitialize(params.fields))
    && (name == Str("notifications/initialized") ==> phase == Initialized && "id" !in message)
    && (name == Str("tools/list") ==> phase == Ready)
  }

  /** Asking whether a list or an object is a member of a set raises a TypeError. */
  predicate UnhashableMethod(message: Object) {
    Get(message, "jsonrpc") == Str("2.0") && !Hashable(Method(message))
  }

  predicate Correlates(response: Object, id: Json) {
    && Get(response, "jsonrpc") == Str("2.0")
    && !("method" in response && "id" !in response)
    && PyEqual(Get(response, "id"), id)
    && ("result" in response) != ("error" in response)
  }

  /** The upstream's next line as the response to `id`. */
  function CorrelatedResponse(c: Config, reply: Option<string>, id: Json): Option<Object> {
    if reply.None? || c.parse(reply.value).None? || !Correlates(c.parse(reply.value).value, id) then None
    else c.parse(reply.value)
  }

  predicate GoodInitializeResponse(response: Object) {
    var result := Get(response, "result");
    result.Obj? && Get(result.fields, "protocolVersion") == Str(MCP_PROTOCOL_VERSION) && Get(result.fields, "capabilities").Obj?
  }

  // ----- one message as a function -------------------------------------------------------------------------

  /** How a piece of the loop body ends: normally, with a gateway error, or with another exception. */
  datatype Signal = Normal | GatewayError | OtherError

  /** A judgement on a call or a response. */
  datatype Verdict = Pass | Hold | Fault

  function CallRequest(c: Config, m: Object, result: GatewayResult): Result<Request, InputError> {
    BuildApprovalRequest(c.encodable, m, result, c.upstream, c.policyHash, c.timeout)
  }

  function ResponseRequest(c: Config, m: Object, scan: ScanReport): Result<Request, InputError> {
    BuildResultApprovalRequest(c.encodable, m, scan, c.upstream, c.policyHash, c.timeout)
  }

  function AskAbout(p: ProviderState, request: Request, moment: Moment): Ask {
    Ask(request, moment, OutcomeOf(p, request, moment))
  }

  function AfterAsking(s: State, question: Question, request: Request, moment: Moment): State
    requires s.provider.Some?
  {
    Logged(s.(provider := Some(AfterAuthorize(s.provider.value, request, moment))),
           Asked(question, AskAbout(s.provider.value, request, moment)))
  }

  function CountCallApproval(s: State, outcome: Outcome): State {
    if !outcome.approved then s
    else s.(summary := s.summary.(approved := s.summary.approved + 1,
                                  grantReuses := s.summary.grantReuses + if outcome.source == SessionGrant then 1 else 0))
  }

  function PreFlight(c: Config, s: State, m: Object, result: GatewayResult, moment: Moment): (State, Verdict) {
    if result.evaluation.decision == Allow then (s, Pass)
    else if result.evaluation.decision == Deny || s.provider.None? then (s, Hold)
    else
      var request := CallRequest(c, m, result);
      if request.Err? then (s, if NonApprovable(result.evaluation.reasons) then Hold else Fault)
      else
        var outcome := OutcomeOf(s.provider.value, request.value, moment);
        (CountCallApproval(AfterAsking(s, OfCall(m, result), request.value, moment), outcome),
         if outcome.approved then Pass else Hold)
  }

  function CountOutcome(s: State, outcome: PostFlight): State {
    match outcome
    case Clean => s.(summary := s.summary.(responseClean := s.summary.responseClean + 1))
    case Review => s.(summary := s.summary.(responseReview := s.summary.responseReview + 1))
    case BlockNextStep => s.(summary := s.summary.(responseBlocked := s.summary.responseBlocked + 1))
  }

  /** Asking for the release of a response that is already counted. */
  function Released(s: State, m: Object, response: Object, scan: ScanReport, request: Request, moment: Moment): (State, Verdict)
    requires s.provider.Some?
  {
    var asked := AfterAsking(s, OfResponse(m, response, scan), request, moment);
    if OutcomeOf(s.provider.value, request, moment).approved
    then (asked.(summary := asked.summary.(responseApproved := asked.summary.responseApproved + 1)), Pass)
    else (asked, Hold)
  }

  /** A response that is not clean, once it is counted. */
  function SuspiciousJudged(c: Config, s: State, m: Object, response: Object, scan: ScanReport, moment: Moment): (State, Verdict) {
    if s.provider.None? then (s, Hold)
    else
      var request := ResponseRequest(c, m, scan);
      if request.Err? then (s, Fault) else Released(s, m, response, scan, request.value, moment)
  }

  function PostFlightJudged(c: Config, s: State, m: Object, response: Object, scan: ScanReport, moment: Moment): (State, Verdict) {
    var counted := CountOutcome(s, scan.outcome);
    if scan.outcome == Clean then (counted, Pass) else SuspiciousJudged(c, counted, m, response, scan, moment)
  }

  function Unconfirmed(s: State, e: Event): State {
    s.(unconfirmed := s.unconfirmed + [e])
  }

  /** A write to the client that, when it succeeds, shows as `e`; what cannot be encoded raises. */
  function Sent(c: Config, s: State, e: Event, write: Write): (State, Signal) {
    if !OutputIsWritable(c, e) then (s, OtherError)
    else
      match write
      case Written => (Logged(s, e), Normal)
      case Broken => (Unconfirmed(s, e), GatewayError)
  }

  function Delivered(c: Config, s: State, m: Object, response: Object, write: Write): (State, Signal) {
    var (sent, signal) := Sent(c, s, Relayed(m, response), write);
    (if signal == Normal && Method(m) == Str("initialize") then sent.(phase := Initialized) else sent, signal)
  }

  /** What a failed scan does: only the scanner's own error becomes a gateway error. */
  function ScanSignal(failure: ScanFailure): Signal {
    if failure == Unfit then GatewayError else OtherError
  }

  /** A judged tool response. */
  function JudgedResponse(c: Config, s: State, verdict: Verdict, m: Object, response: Object, decision: Decision, t: Turn): (State, Signal) {
    match verdict
    case Fault => (s, GatewayError)
    case Hold => Sent(c, s, Withheld(m, response, decision), t.client)
    case Pass => Delivered(c, s, m, response, t.client)
  }

  function Answered(c: Config, s: State, m: Object, t: Turn): (State, Signal) {
    var response := CorrelatedResponse(c, t.reply, Id(m));
    if response.None? then (s, GatewayError)
    else if Method(m) == Str("initialize") && !GoodInitializeResponse(response.value) then (s, GatewayError)
    else if Method(m) != TOOLS_CALL then Delivered(c, s, m, response.value, t.client)
    else
      var scan := c.scan(m, response.value);
      if scan.Err? then (s, ScanSignal(scan.error))
      else
        var judged := PostFlightJudged(c, s, m, response.value, scan.value, t.responseMoment);
        JudgedResponse(c, judged.0, judged.1, m, response.value, scan.value.decision, t)
  }

  function Passed(c: Config, s: State, m: Object, t: Turn): (State, Signal) {
    if !t.upstreamTakes then (s, GatewayError)
    else
      var sent := Logged(s.(summary := s.summary.(forwarded := s.summary.forwarded + 1)), Forwarded(t.line, m));
      if "id" in m then Answered(c, sent, m, t)
      else (if Method(m) == Str("notifications/initialized") then sent.(phase := Ready) else sent, Normal)
  }

  /** A judged tool call. */
  function JudgedCall(c: Config, s: State, verdict: Verdict, m: Object, decision: Decision, t: Turn): (State, Signal) {
    match verdict
    case Fault => (s, GatewayError)
    case Hold =>
      Sent(c, s.(summary := s.summary.(blocked := s.summary.blocked + 1)), Blocked(m, decision), t.client)
    case Pass => Passed(c, s, m, t)
  }

  /** An evaluated tool call. */
  function CallDecided(c: Config, s: State, m: Object, result: GatewayResult, t: Turn): (State, Signal) {
    var judged := PreFlight(c, s, m, result, t.callMoment);
    JudgedCall(c, judged.0, judged.1, m, result.evaluation.decision, t)
  }

  function CallHandled(c: Config, s: State, m: Object, t: Turn): (State, Signal) {
    if "id" !in m || s.phase != Ready then (s, GatewayError)
    else
      var result := c.evaluate(m);
      if result.Err? then (s, OtherError)
      else CallDecided(c, s, m, result.value, t)
  }

  function ControlHandled(c: Config, s: State, m: Object, t: Turn): (State, Signal) {
    if UnhashableMethod(m) then (s, OtherError)
    else if !GoodControl(m, s.phase) then (s, GatewayError)
    else Passed(c, s.(summary := s.summary.(controlMessages := s.summary.controlMessages + 1)), m, t)
  }

  /** The id a final error message carries. */
  function ErrorId(c: Config, line: string): Json {
    if c.parse(line).Some? && GoodId(Id(c.parse(line).value)) then Id(c.parse(line).value) else Null
  }

  function Admitted(s: State, m: Object): State {
    if Id(m).Null? then s else s.(seen := s.seen + {Id(m)})
  }

  function Handled(c: Config, s: State, t: Turn): (State, Signal) {
    if c.parse(t.line).None? then (s, GatewayError)
    else
      var m := c.parse(t.line).value;
      if !GoodId(Id(m)) then (s, GatewayError)
      else if !Id(m).Null? && Id(m) in s.seen then (s, GatewayError)
      else if Method(m) == TOOLS_CALL then CallHandled(c, Admitted(s, m), m, t)
      else ControlHandled(c, Admitted(s, m), m, t)
  }

  function Ended(c: Config, s: State, signal: Signal, t: Turn): State {
    match signal
    case Normal => s
    case OtherError => s.(status := Aborted)
    case GatewayError =>
      var counted := s.(summary := s.summary.(protocolErrors := s.summary.protocolErrors + 1));
      var (noted, reported) := Sent(c, counted, Failed(ErrorId(c, t.line)), t.report);
      noted.(status := if reported == OtherError then Aborted else Stopped)
  }

  /** One round of the loop; a session that is over reads nothing more. */
  function Stepped(c: Config, s: State, t: Turn): State {
    if s.status != Running then s
    else
      var (handled, signal) := Handled(c, Logged(s, Received(t.line)), t);
      Ended(c, handled, signal, t)
  }

  function Run(c: Config, provider: Option<ProviderState>, turns: seq<Turn>): State {
    if turns == [] then Start(provider)
    else Stepped(c, Run(c, provider, turns[..|turns| - 1]), turns[|turns| - 1])
  }

  /** The lines a session reads at most. */
  function Within(turns: seq<Turn>): seq<Turn> {
    if |turns| < MAX_SESSION_MESSAGES then turns else turns[..MAX_SESSION_MESSAGES]
  }

  datatype Ending = Returned(summary: Summary) | RaisedOut

  /** The whole call: `turns` are the client's lines up to its end of file. */
  function SessionEnding(c: Config, provider: Option<ProviderState>, turns: seq<Turn>, cleaned: bool): Ending {
    var s := Run(c, provider, Within(turns));
    if s.status == Aborted || (s.status == Running && |turns| >= MAX_SESSION_MESSAGES) || !cleaned then RaisedOut
    else Returned(s.summary)
  }

  // ----- the session object --------------------------------------------------------------------------------

  class GatewaySession {
    const config: Config
    const approvals: TerminalApprovalProvider?
    var phase: Phase
    var seen: set<Json>
    var summary: Summary
    var log: seq<Event>
    var unconfirmed: seq<Event>
    var status: Status

    /** The session and, with approvals, the provider and its store. */
    ghost function Footprint(): set<object> {
      if approvals == null then {this} else {this, approvals, approvals.grants}
    }

    function Provider(): Option<ProviderState>
      reads if approvals == null then {} else {approvals, approvals.grants}
    {
      if approvals == null then None else Some(approvals.Value())
    }

    function Value(): State
      reads this, if approvals == null then {} else {approvals, approvals.grants}
    {
      State(phase, seen, summary, Provider(), log, unconfirmed, status)
    }

    constructor (config: Config, approvals: TerminalApprovalProvider?)
      requires approvals != null ==> approvals.timeout == config.timeout
      ensures this.config == config && this.approvals == approvals
      ensures Value() == Start(Provider())
    {
      this.config := config;
      this.approvals := approvals;
      this.phase := New;
      this.seen := {};
      this.summary := NOTHING_YET;
      this.log := [];
      this.unconfirmed := [];
      this.status := Running;
    }

    method Send(e: Event, write: Write) returns (signal: Signal)
      modifies this
      ensures (Value(), signal) == Sent(config, old(Value()), e, write)
    {
      if !OutputIsWritable(config, e) {
        return OtherError;
      }
      match write {
        case Written =>
          log := log + [e];
          signal := Normal;
        case Broken =>
          unconfirmed := unconfirmed + [e];
          signal := GatewayError;
      }
    }

    method Deliver(m: Object, response: Object, write: Write) returns (signal: Signal)
      modifies this
      ensures (Value(), signal) == Delivered(config, old(Value()), m, response, write)
    {
      signal := Send(Relayed(m, response), write);
      if signal == Normal && Method(m) == Str("initialize") {
        phase := Initialized;
      }
    }

    method Ask(question: Question, request: Request, moment: Moment) returns (outcome: Outcome)
      requires approvals != null
      modifies Footprint()
      ensures outcome == OutcomeOf(old(Value()).provider.value, request, moment)
      ensures Value() == AfterAsking(old(Value()), question, request, moment)
    {
      outcome := approvals.Authorize(request, moment);
      log := log + [Asked(question, Grants.Ask(request, moment, outcome))];
    }

    method CountApproval(outcome: Outcome)
      modifies this
      ensures Value() == CountCallApproval(old(Value()), outcome)
    {
      if outcome.approved {
        summary := summary.(approved := summary.approved + 1);
        if outcome.source == SessionGrant {
          summary := summary.(grantReuses := summary.grantReuses + 1);
        }
      }
    }

    method JudgeCall(m: Object, result: GatewayResult, moment: Moment) returns (verdict: Verdict)
      modifies Footprint()
      ensures (Value(), verdict) == PreFlight(config, old(Value()), m, result, moment)
    {
      var approved := false;
      if result.evaluation.decision == Warn && approvals != null {
        var request := CallRequest(config, m, result);
        if request.Err? {
          if !NonApprovable(result.evaluation.reasons) {
            return Fault;
          }
        } else {
          var outcome := Ask(OfCall(m, result), request.value, moment);
          approved := outcome.approved;
          CountApproval(outcome);
        }
      }
      verdict := if result.evaluation.decision != Allow && !approved then Hold else Pass;
    }

    method CountScan(outcome: PostFlight)
      modifies this
      ensures Value() == CountOutcome(old(Value()), outcome)
    {
      if outcome == Clean {
        summary := summary.(responseClean := summary.responseClean + 1);
      } else {
        summary := summary.(responseReview := summary.responseReview + if outcome == Review then 1 else 0);
        summary := summary.(responseBlocked := summary.responseBlocked + if outcome == BlockNextStep then 1 else 0);
      }
    }

    /** Asks for the release of a response that is already counted. */
    method AskRelease(m: Object, response: Object, scan: ScanReport, request: Request, moment: Moment) returns (verdict: Verdict)
      requires approvals != null
      modifies Footprint()
      ensures (Value(), verdict) == Released(old(Value()), m, response, scan, request, moment)
    {
      var outcome := Ask(OfResponse(m, response, scan), request, moment);
      if !outcome.approved {
        return Hold;
      }
      summary := summary.(responseApproved := summary.responseApproved + 1);
      verdict := Pass;
    }

    method JudgeSuspicious(m: Object, response: Object, scan: ScanReport, moment: Moment) returns (verdict: Verdict)
      modifies Footprint()
      ensures (Value(), verdict) == SuspiciousJudged(config, old(Value()), m, response, scan, moment)
    {
      if approvals == null {
        return Hold;
      }
      var request := ResponseRequest(config, m, scan);
      if request.Err? {
        return Fault;
      }
      verdict := AskRelease(m, response, scan, request.value, moment);
    }

    method JudgeResponse(m: Object, response: Object, scan: ScanReport, moment: Moment) returns (verdict: Verdict)
      modifies Footprint()
      ensures (Value(), verdict) == PostFlightJudged(config, old(Value()), m, response, scan, moment)
    {
      CountScan(scan.outcome);
      if scan.outcome == Clean {
        return Pass;
      }
      verdict := JudgeSuspicious(m, response, scan, moment);
    }

    method AwaitAnswer(m: Object, t: Turn) returns (signal: Signal)
      modifies Footprint()
      ensures (Value(), signal) == Answered(config, old(Value()), m, t)
    {
      var response := CorrelatedResponse(config, t.reply, Id(m));
      if response.None? {
        return GatewayError;
      }
      if Method(m) == Str("initialize") && !GoodInitializeResponse(response.value) {
        return GatewayError;
      }
      if Method(m) == TOOLS_CALL {
        var scan := config.scan(m, response.value);
        if scan.Err? {
          return ScanSignal(scan.error);
        }
        var verdict := JudgeResponse(m, response.value, scan.value, t.responseMoment);
        if verdict == Fault {
          return GatewayError;
        }
        if verdict == Hold {
          signal := Send(Withheld(m, response.value, scan.value.decision), t.client);
          return;
        }
      }
      signal := Deliver(m, response.value, t.client);
    }

    method Forward(m: Object, t: Turn) returns (signal: Signal)
      modifies Footprint()
      ensures (Value(), signal) == Passed(config, old(Value()), m, t)
    {
      if !t.upstreamTakes {
        return GatewayError;
      }
      log := log + [Forwarded(t.line, m)];
      summary := summary.(forwarded := summary.forwarded + 1);
      if "id" !in m {
        if Method(m) == Str("notifications/initialized") {
          phase := Ready;
        }
        return Normal;
      }
      signal := AwaitAnswer(m, t);
    }

    method DecideCall(m: Object, result: GatewayResult, t: Turn) returns (signal: Signal)
      modifies Footprint()
      ensures (Value(), signal) == CallDecided(config, old(Value()), m, result, t)
    {
      var verdict := JudgeCall(m, result, t.callMoment);
      signal := FollowVerdict(verdict, m, result.evaluation.decision, t);
    }

    method FollowVerdict(verdict: Verdict, m: Object, decision: Decision, t: Turn) returns (signal: Signal)
      modifies Footprint()
      ensures (Value(), signal) == JudgedCall(config, old(Value()), verdict, m, decision, t)
    {
      if verdict == Fault {
        return GatewayError;
      }
      if verdict == Hold {
        summary := summary.(blocked := summary.blocked + 1);
        signal := Send(Blocked(m, decision), t.client);
        return;
      }
      signal := Forward(m, t);
    }

    method HandleCall(m: Object, t: Turn) returns (signal: Signal)
      modifies Footprint()
      ensures (Value(), signal) == CallHandled(config, old(Value()), m, t)
    {
      if "id" !in m || phase != Ready {
        return GatewayError;
      }
      var result := config.evaluate(m);
      if result.Err? {
        return OtherError;
      }
      signal := DecideCall(m, result.value, t);
    }

    method HandleControl(m: Object, t: Turn) returns (signal: Signal)
      modifies Footprint()
      ensures (Value(), signal) == ControlHandled(config, old(Value()), m, t)
    {
      if UnhashableMethod(m) {
        return OtherError;
      }
      if !GoodControl(m, phase) {
        return GatewayError;
      }
      summary := summary.(controlMessages := summary.controlMessages + 1);
      signal := Forward(m, t);
    }

    method Handle(t: Turn) returns (signal: Signal)
      modifies Footprint()
      ensures (Value(), signal) == Handled(config, old(Value()), t)
    {
      var parsed := config.parse(t.line);
      if parsed.None? {
        return GatewayError;
      }
      var m := parsed.value;
      if !GoodId(Id(m)) {
        return GatewayError;
      }
      if !Id(m).Null? {
        if Id(m) in seen {
          return GatewayError;
        }
        seen := seen + {Id(m)};
      }
      if Method(m) == TOOLS_CALL {
        signal := HandleCall(m, t);
      } else {
        signal := HandleControl(m, t);
      }
    }

    method Step(t: Turn)
      requires status == Running
      modifies Footprint()
      ensures Value() == Stepped(config, old(Value()), t)
    {
      log := log + [Received(t.line)];
      var signal := Handle(t);
      if signal == OtherError {
        status := Aborted;
      } else if signal == GatewayError {
        summary := summary.(protocolErrors := summary.protocolErrors + 1);
        var reported := Send(Failed(ErrorId(config, t.line)), t.report);
        status := if reported == OtherError then Aborted else Stopped;
      }
    }

    method NextRound(turns: seq<Turn>, round: nat, ghost provider: Option<ProviderState>)
      requires round < |turns| && status == Running && Value() == Run(config, provider, turns[..round])
      modifies Footprint()
      ensures Value() == Run(config, provider, turns[..round + 1])
    {
      RunStep(config, provider, turns, round);
      Step(turns[round]);
    }

    /** The loop: at most the message limit, and only while nothing stopped it. */
    method Rounds(turns: seq<Turn>) returns (rounds: nat)
      requires Value() == Start(Provider())
      modifies Footprint()
      ensures rounds <= |turns| && rounds <= MAX_SESSION_MESSAGES
      ensures status != Running || rounds == |turns| || rounds == MAX_SESSION_MESSAGES
      ensures Value() == Run(config, old(Provider()), turns[..rounds])
    {
      ghost var provider := Provider();
      rounds := 0;
      while rounds < MAX_SESSION_MESSAGES && rounds < |turns| && status == Running
        invariant rounds <= |turns| && rounds <= MAX_SESSION_MESSAGES
        invariant Value() == Run(config, provider, turns[..rounds])
      {
        NextRound(turns, rounds, provider);
        rounds := rounds + 1;
      }
    }

    /** The whole session, on a fresh object. */
    method Serve(turns: seq<Turn>, cleaned: bool) returns (ending: Ending)
      requires Value() == Start(Provider())
      modifies Footprint()
      ensures Value() == Run(config, old(Provider()), Within(turns))
      ensures ending == SessionEnding(config, old(Provider()), turns, cleaned)
    {
      ghost var provider := Provider();
      var rounds := Rounds(turns);
      assert Within(turns)[..rounds] == turns[..rounds];
      OverStaysOver(config, provider, Within(turns), rounds);
      ending := if status == Aborted || (status == Running && rounds == MAX_SESSION_MESSAGES) || !cleaned
                then RaisedOut else Returned(summary);
    }
  }

  lemma RunStep(c: Config, provider: Option<ProviderState>, turns: seq<Turn>, i: nat)
    requires i < |turns|
    ensures Run(c, provider, turns[..i + 1]) == Stepped(c, Run(c, provider, turns[..i]), turns[i])
  {
    assert turns[..i + 1][..i] == turns[..i];
  }

  lemma {:induction false} OverStaysOver(c: Config, provider: Option<ProviderState>, turns: seq<Turn>, i: nat)
    requires i <= |turns|
    requires i == |turns| || Run(c, provider, turns[..i]).status != Running
    ensures Run(c, provider, turns) == Run(c, provider, turns[..i])
  {
    if i == |turns| {
      assert turns[..i] == turns;
    } else {
      assert turns[..|turns| - 1][..i] == turns[..i];
      OverStaysOver(c, provider, turns[..|turns| - 1], i);
    }
  }
}
