/**
 * The messages of a gateway session read field by field: what a control message needs to go upstream,
 * what an answer needs to go to the client, and what the client reads when something is refused.
 */
module GatewayMessages {
  import opened Basics
  import opened Json
  import opened Models
  import opened Evaluator
  import opened Approval
  import opened Grants
  import opened Gateway
  import opened GatewayRuns
  import opened GatewayTheorems
  import opened GatewayForwarding

  // ----- control messages -----------------------------------------------------------------------------------

  /** Absent parameters count as empty ones. */
  predicate ParamsAreObject(m: Object) {
    "params" in m ==> m["params"].Obj?
  }

  /** A control message that a session in `phase` forwards. */
  predicate ControlMessage(m: Object, phase: Phase) {
    && Get(m, "jsonrpc") == Str("2.0") && ParamsAreObject(m)
    && (|| Get(m, "method") == Str("ping")
        || (Get(m, "method") == Str("tools/list") && phase == Ready)
        || (Get(m, "method") == Str("notifications/initialized") && phase == Initialized && "id" !in m)
        || (phase == New && InitializeRequest(m)))
  }

  lemma NamesDiffer()
    ensures Str("initialize") != Str("notifications/initialized") && Str("initialize") != Str("tools/list")
    ensures Str("initialize") != Str("ping") && Str("notifications/initialized") != Str("tools/list")
    ensures Str("notifications/initialized") != Str("ping") && Str("tools/list") != Str("ping")
    ensures TOOLS_CALL != Str("initialize") && TOOLS_CALL != Str("notifications/initialized") && TOOLS_CALL != Str("tools/list")
    ensures TOOLS_CALL != Str("ping")
  {
    assert "initialize"[0] == 'i' && "notifications/initialized"[0] == 'n' && "ping"[0] == 'p';
    assert "tools/call"[0] == 't' && "tools/list"[0] == 't' && "tools/call"[6] == 'c' && "tools/list"[6] == 'l';
  }

  lemma ControlMessageIff(m: Object, phase: Phase)
    ensures !UnhashableMethod(m) && GoodControl(m, phase) <==> ControlMessage(m, phase)
  {
    NamesDiffer();
  }

  /** A line that a running session takes as a control message. */
  predicate AdmittedControl(c: Config, s: State, line: string, m: Object) {
    AdmittedLine(c, s, line) && c.parse(line) == Some(m) && Method(m) != TOOLS_CALL
  }

  lemma ControlRound(c: Config, s: State, t: Turn, m: Object) returns (heard: State, r: (State, Signal))
    requires AdmittedControl(c, s, t.line, m)
    ensures heard == Admitted(Logged(s, Received(t.line)), m) && r == ControlHandled(c, heard, m, t)
    ensures Stepped(c, s, t) == Ended(c, r.0, r.1, t)
  {
    heard := Admitted(Logged(s, Received(t.line)), m);
    r := ControlHandled(c, heard, m, t);
  }

  lemma TakenControl(c: Config, heard: State, t: Turn, m: Object)
    requires ControlMessage(m, heard.phase)
    ensures ControlHandled(c, heard, m, t)
            == Passed(c, heard.(summary := heard.summary.(controlMessages := heard.summary.controlMessages + 1)), m, t)
  {
    ControlMessageIff(m, heard.phase);
  }

  // A message other than a tools/call is written upstream if and only if the upstream takes it and it is a
  // ping, a tools/list of a ready session, the one notification after the handshake, or the one good
  // initialize request at the start.
  lemma ControlIsForwardedIff(c: Config, s: State, t: Turn, m: Object)
    requires AdmittedControl(c, s, t.line, m)
    ensures s.log <= Stepped(c, s, t).log
    ensures ShowsForwarded(s.log, Stepped(c, s, t).log) <==> ControlMessage(m, s.phase) && t.upstreamTakes
  {
    var heard, handled := ControlRound(c, s, t, m);
    var counted := heard.(summary := heard.summary.(controlMessages := heard.summary.controlMessages + 1));
    ControlMessageIff(m, s.phase);
    QuietStep(s.log, Received(t.line));
    if ControlMessage(m, s.phase) {
      PassedShows(c, counted, m, t);
    }
    ShowsAfterQuiet(s.log, heard.log, handled.0.log);
    EndedIsQuiet(c, handled.0, handled.1, t);
    QuietShows(s.log, handled.0.log, Ended(c, handled.0, handled.1, t).log);
  }

  // ----- lines that are refused -------------------------------------------------------------------------------

  /** A line that reads as a message whose id is null, a text or an integer, and not used before. */
  predicate GoodLine(c: Config, s: State, line: string) {
    c.parse(line).Some? &&
    match Get(c.parse(line).value, "id")
    case Null => true
    case Str(_) => Get(c.parse(line).value, "id") !in s.seen
    case Int(_) => Get(c.parse(line).value, "id") !in s.seen
    case _ => false
  }

  /** The id in the note about a refused line: its own if it is a text or an integer, otherwise null. */
  predicate NotesId(c: Config, line: string, id: Json) {
    if c.parse(line).Some? && (Get(c.parse(line).value, "id").Str? || Get(c.parse(line).value, "id").Int?)
    then id == Get(c.parse(line).value, "id") else id == Null
  }

  /** The round ends the session with a note about the line, or without one, and nothing else happens. */
  predicate OnlyNotes(c: Config, s: State, t: Turn, id: Json, s': State) {
    && s'.status == (if Writable(c, LocalError(id, -32042, "deny")) then Stopped else Aborted)
    && s'.log == s.log + [Received(t.line)] + (if s'.status == Stopped && t.report == Written then [Failed(id)] else [])
    && s'.seen == s.seen && s'.phase == s.phase && s'.provider == s.provider
    && s'.summary == s.summary.(protocolErrors := s.summary.protocolErrors + 1)
  }

  lemma AdmittedLineIff(c: Config, s: State, line: string)
    ensures AdmittedLine(c, s, line) <==> s.status == Running && GoodLine(c, s, line)
  {
  }

  // A line that is not good ends the session with one protocol error: nothing goes upstream, nothing is
  // asked, and all the client may read is a note with the id of the line or null.
  lemma BadLinesStop(c: Config, s: State, t: Turn, id: Json)
    requires s.status == Running && !GoodLine(c, s, t.line) && NotesId(c, t.line, id)
    ensures OnlyNotes(c, s, t, id, Stepped(c, s, t))
  {
    assert ErrorId(c, t.line) == id;
    assert DecisionName(Deny) == "deny";
  }

  /** What the ids are checked against: the ids of the lines before. */
  function IdsHeard(c: Config, turns: seq<Turn>): set<Json> {
    if turns == [] then {}
    else IdsHeard(c, turns[..|turns| - 1]) + IdOf(c, turns[|turns| - 1].line)
  }

  function IdOf(c: Config, line: string): set<Json> {
    if c.parse(line).Some? && Get(c.parse(line).value, "id") != Null then {Get(c.parse(line).value, "id")} else {}
  }

  lemma AnsweredSeen(c: Config, s: State, m: Object, t: Turn)
    ensures Answered(c, s, m, t).0.seen == s.seen
  {
    var response := CorrelatedResponse(c, t.reply, Id(m));
    if response.Some? && Method(m) == TOOLS_CALL && c.scan(m, response.value).Ok? {
      NamesDiffer();
      var scan := c.scan(m, response.value).value;
      var judged := PostFlightJudged(c, s, m, response.value, scan, t.responseMoment);
      ScannedAnswer(c, s, t, m, response.value, scan);
      PostFlightSeen(c, s, m, response.value, scan, t.responseMoment);
      JudgedResponseSeen(c, judged.0, judged.1, m, response.value, scan.decision, t);
    }
  }

  lemma PostFlightSeen(c: Config, s: State, m: Object, response: Object, scan: ScanReport, moment: Moment)
    ensures PostFlightJudged(c, s, m, response, scan, moment).0.seen == s.seen
  {
  }

  lemma JudgedResponseSeen(c: Config, s: State, verdict: Verdict, m: Object, response: Object, decision: Decision, t: Turn)
    ensures JudgedResponse(c, s, verdict, m, response, decision, t).0.seen == s.seen
  {
  }

  lemma PassedSeen(c: Config, s: State, m: Object, t: Turn)
    ensures Passed(c, s, m, t).0.seen == s.seen
  {
    if t.upstreamTakes && "id" in m {
      PassedRequest(c, s, m, t);
      AnsweredSeen(c, SentUpstream(s, t.line, m), m, t);
    }
  }

  lemma CallDecidedSeen(c: Config, s: State, m: Object, result: GatewayResult, t: Turn)
    ensures CallDecided(c, s, m, result, t).0.seen == s.seen
  {
    var judged := PreFlight(c, s, m, result, t.callMoment);
    assert judged.0.seen == s.seen;
    PassedSeen(c, judged.0, m, t);
  }

  lemma HandledSeen(c: Config, s: State, t: Turn)
    requires c.parse(t.line).Some? && Handled(c, s, t).1 == Normal
    ensures Handled(c, s, t).0.seen == s.seen + IdOf(c, t.line)
  {
    var m := c.parse(t.line).value;
    var heard := Admitted(s, m);
    if Method(m) == TOOLS_CALL {
      CallDecidedSeen(c, heard, m, c.evaluate(m).value, t);
    } else {
      PassedSeen(c, heard.(summary := heard.summary.(controlMessages := heard.summary.controlMessages + 1)), m, t);
    }
  }

  // In every running session an id counts as used if and only if an earlier line carried it.
  lemma {:induction false} SeenIsHeard(c: Config, provider: Option<ProviderState>, turns: seq<Turn>)
    requires Run(c, provider, turns).status == Running
    ensures Run(c, provider, turns).seen == IdsHeard(c, turns)
  {
    if turns != [] {
      var init, t := turns[..|turns| - 1], turns[|turns| - 1];
      var s := Run(c, provider, init);
      SeenIsHeard(c, provider, init);
      RunningRound(c, s, t);
      HandledSeen(c, Logged(s, Received(t.line)), t);
    }
  }

  lemma RunningRound(c: Config, s: State, t: Turn)
    requires Stepped(c, s, t).status == Running
    ensures s.status == Running && c.parse(t.line).Some?
    ensures Handled(c, Logged(s, Received(t.line)), t).1 == Normal
    ensures Stepped(c, s, t) == Handled(c, Logged(s, Received(t.line)), t).0
  {
  }

  /** Asking for a method that is a list or an object raises a TypeError, after the version is checked. */
  predicate RaisesOnMethod(m: Object) {
    Get(m, "jsonrpc") == Str("2.0") && (Get(m, "method").Arr? || Get(m, "method").Obj?)
  }

  // A control message that is not taken ends the session, and nothing goes upstream: with a protocol error,
  // or by exception when its method cannot be looked up or the note about it cannot be written.
  lemma RefusedControlsStop(c: Config, s: State, t: Turn, m: Object)
    requires AdmittedControl(c, s, t.line, m) && !ControlMessage(m, s.phase)
    ensures var s' := Stepped(c, s, t);
            && s'.status == (if RaisesOnMethod(m) || !NoteIsWritable(c, m) then Aborted else Stopped)
            && s'.log == s.log + [Received(t.line)] + (if s'.status == Stopped && t.report == Written then [Failed(Get(m, "id"))] else [])
  {
    ControlMessageIff(m, s.phase);
    assert UnhashableMethod(m) <==> RaisesOnMethod(m);
    assert DecisionName(Deny) == "deny";
  }

  // ----- answers --------------------------------------------------------------------------------------------

  /** A response to the request `m`: its id, exactly one of result and error, and a handshake when asked for one. */
  predicate FitsRequest(response: Object, m: Object) {
    && Get(response, "jsonrpc") == Str("2.0") && ("method" in response ==> "id" in response)
    && PyEqual(Get(response, "id"), Get(m, "id"))
    && (("result" in response && "error" !in response) || ("error" in response && "result" !in response))
    && (Get(m, "method") == Str("initialize") ==> InitializeAnswer(response))
  }

  lemma FitsIff(response: Object, m: Object)
    ensures FitsRequest(response, m)
            <==> Correlates(response, Id(m)) && (Method(m) == Str("initialize") ==> GoodInitializeResponse(response))
  {
    InitializeAnswerIff(response);
  }

  // Whatever a client of any run is relayed fits the request it answers, which is the message written
  // upstream last, or the one before an authorisation.
  lemma RelayedFitsItsRequest(c: Config, present: bool, closed: bool, turns: seq<Turn>, i: nat)
    requires i < |LogOf(c, present, closed, turns)| && LogOf(c, present, closed, turns)[i].Relayed?
    ensures var log := LogOf(c, present, closed, turns);
            && FitsRequest(log[i].response, log[i].message)
            && i > 0 && (log[i - 1].Forwarded? || (log[i - 1].Asked? && i > 1 && log[i - 2].Forwarded?))
            && log[if log[i - 1].Forwarded? then i - 1 else i - 2].message == log[i].message
  {
    var log := RunLawfulAt(c, present, closed, turns, i);
    NamesDiffer();
    FitsIff(log[i].response, log[i].message);
    assert log[..i] != [];
    if log[i - 1].Asked? {
      assert log[..i][..i - 1] == log[..i - 1];
    }
  }

  /** The upstream's next line, if it answers `m`. */
  function FittingAnswer(c: Config, t: Turn, m: Object): Option<Object> {
    if t.reply.Some? && c.parse(t.reply.value).Some? && FitsRequest(c.parse(t.reply.value).value, m)
    then c.parse(t.reply.value) else None
  }

  /** The client reads nothing new from the upstream. */
  predicate NothingRelayed(log: seq<Event>, more: seq<Event>) {
    log <= more && forall i :: |log| <= i < |more| ==> !more[i].Relayed?
  }

  function ControlCounted(s: State, m: Object, line: string): State {
    var heard := Admitted(Logged(s, Received(line)), m);
    SentUpstream(heard.(summary := heard.summary.(controlMessages := heard.summary.controlMessages + 1)), line, m)
  }

  /** A control request that goes upstream: the round is the wait for its answer. */
  lemma ControlRequestRound(c: Config, s: State, t: Turn, m: Object) returns (sent: State, r: (State, Signal))
    requires AdmittedControl(c, s, t.line, m) && ControlMessage(m, s.phase) && t.upstreamTakes && "id" in m
    ensures sent == ControlCounted(s, m, t.line) && r == Answered(c, sent, m, t) && Stepped(c, s, t) == Ended(c, r.0, r.1, t)
  {
    var heard;
    heard, r := ControlRound(c, s, t, m);
    sent := ControlCounted(s, m, t.line);
    TakenControl(c, heard, t, m);
    PassedRequest(c, heard.(summary := heard.summary.(controlMessages := heard.summary.controlMessages + 1)), m, t);
  }

  lemma ControlAnswered(c: Config, s: State, m: Object, t: Turn)
    requires Method(m) != TOOLS_CALL
    ensures Answered(c, s, m, t)
            == if FittingAnswer(c, t, m).None? then (s, GatewayError) else Delivered(c, s, m, FittingAnswer(c, t, m).value, t.client)
  {
    if t.reply.Some? && c.parse(t.reply.value).Some? {
      FitsIff(c.parse(t.reply.value).value, m);
    }
  }

  /** The note a client reads when the session stops over `m`. */
  predicate NoteIsWritable(c: Config, m: Object) {
    Writable(c, LocalError(Get(m, "id"), -32042, "deny"))
  }

  // The answer to a control request: if it fits, can be written and is taken, the client reads it and the
  // session goes on; otherwise the client reads nothing of it and the session is over. One that does not fit
  // is a protocol error: the session is stopped, or aborted if not even the note about it can be written.
  lemma ControlAnswerIff(c: Config, s: State, t: Turn, m: Object)
    requires AdmittedControl(c, s, t.line, m) && ControlMessage(m, s.phase) && t.upstreamTakes && "id" in m
    ensures var s', answer := Stepped(c, s, t), FittingAnswer(c, t, m);
            if answer.Some? && Writable(c, answer.value) && t.client == Written
            then s'.log == s.log + [Received(t.line), Forwarded(t.line, m), Relayed(m, answer.value)] && s'.status == Running
            else NothingRelayed(s.log, s'.log) && s'.status != Running
    ensures FittingAnswer(c, t, m).None? ==> Stepped(c, s, t).status == if NoteIsWritable(c, m) then Stopped else Aborted
  {
    var sent, r := ControlRequestRound(c, s, t, m);
    ControlAnswered(c, sent, m, t);
    assert sent.log == s.log + [Received(t.line), Forwarded(t.line, m)];
    var answer := FittingAnswer(c, t, m);
    if answer.None? {
      StoppedOver(c, sent, t, m);
    } else {
      DeliveredIff(c, sent, t, m, answer.value);
      assert sent.log + [Relayed(m, answer.value)] == s.log + [Received(t.line), Forwarded(t.line, m), Relayed(m, answer.value)];
    }
  }

  lemma DeliveredIff(c: Config, s: State, t: Turn, m: Object, answer: Object)
    requires s.status == Running
    ensures var r := Delivered(c, s, m, answer, t.client);
            if Writable(c, answer) && t.client == Written
            then r.1 == Normal && r.0.log == s.log + [Relayed(m, answer)] && r.0.status == Running
            else NothingRelayed(s.log, Ended(c, r.0, r.1, t).log) && Ended(c, r.0, r.1, t).status != Running
  {
  }

  lemma StoppedOver(c: Config, s: State, t: Turn, m: Object)
    requires c.parse(t.line) == Some(m) && GoodId(Id(m))
    ensures Ended(c, s, GatewayError, t).status == if NoteIsWritable(c, m) then Stopped else Aborted
    ensures NothingRelayed(s.log, Ended(c, s, GatewayError, t).log)
  {
    assert ErrorId(c, t.line) == Id(m) && DecisionName(Deny) == "deny";
  }

  // ----- what the client reads instead ----------------------------------------------------------------------

  /** A local error: which kind, for which id, with which decision; it is never an answer of the upstream. */
  predicate SaysNo(message: Object, id: Json, code: int, decision: string) {
    && Get(message, "jsonrpc") == Str("2.0") && Get(message, "id") == id && "result" !in message
    && Get(message, "error").Obj?
    && var error := Get(message, "error").fields;
       && Get(error, "code") == Int(code) && Get(error, "data").Obj?
       && Get(Get(error, "data").fields, "decision") == Str(decision)
       && Get(Get(error, "data").fields, "forwarded") == Bool(false)
  }

  /** The decision of the evaluation of `m`, unless it is allowed. */
  predicate RefusedCall(c: Config, m: Object, decision: string) {
    && c.evaluate(m).Ok?
    && match c.evaluate(m).value.evaluation.decision
       case Deny => decision == "deny"
       case Warn => decision == "warn"
       case Allow => false
  }

  /** The decision of the scan of `response`, unless it is clean. */
  predicate RefusedResponse(c: Config, m: Object, response: Object, decision: string) {
    && c.scan(m, response).Ok? && c.scan(m, response).value.outcome != Clean
    && match c.scan(m, response).value.decision
       case Deny => decision == "deny"
       case Warn => decision == "warn"
       case Allow => decision == "allow"
  }

  // Every message the client reads in any run: an answer as the upstream gave it; or an error that names
  // the request, with the code and the decision of a blocked call, of a withheld answer, or of a final error.
  lemma ClientReads(c: Config, present: bool, closed: bool, turns: seq<Turn>, i: nat, message: Object)
    requires i < |LogOf(c, present, closed, turns)| && ClientOutput(LogOf(c, present, closed, turns)[i]) == Some(message)
    ensures match LogOf(c, present, closed, turns)[i]
            case Relayed(m, response) => message == response && FitsRequest(message, m)
            case Blocked(m, _) => exists d :: RefusedCall(c, m, d) && SaysNo(message, Get(m, "id"), -32041, d)
            case Withheld(m, response, _) => exists d :: RefusedResponse(c, m, response, d) && SaysNo(message, Get(m, "id"), -32043, d)
            case Failed(id) => SaysNo(message, id, -32042, "deny")
            case _ => false
  {
    var log := RunLawfulAt(c, present, closed, turns, i);
    match log[i] {
      case Relayed(m, response) => RelayedFitsItsRequest(c, present, closed, turns, i);
      case Blocked(m, decision) =>
        LocalErrorSaysNo(Get(m, "id"), -32041, DecisionName(decision));
        assert RefusedCall(c, m, DecisionName(decision));
      case Withheld(m, response, decision) =>
        LocalErrorSaysNo(Get(m, "id"), -32043, DecisionName(decision));
        assert RefusedResponse(c, m, response, DecisionName(decision));
      case Failed(id) => LocalErrorSaysNo(id, -32042, "deny");
      case _ =>
    }
  }

  lemma LocalErrorSaysNo(id: Json, code: int, decision: string)
    ensures SaysNo(LocalError(id, code, decision), id, code, decision)
  {
  }
}
