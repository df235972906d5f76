/**
 * Concrete sessions under the functions of this repository: the handshake, the rounds that end a session
 * by exception, an unclassified call that is forwarded, and a response released by a grant.
 */
module GatewayExamples {
  import opened Basics
  import opened Json
  import opened Models
  import opened Matching
  import opened Evaluator
  import opened Approval
  import opened Grants
  import opened Gateway
  import opened GatewayRuns
  import opened GatewayTheorems
  import opened GatewayForwarding
  import opened GatewayAborts
  import Response

  // ----- the lines and what they say ---------------------------------------------------------------------

  const INITIALIZE := "{\"id\":0,\"jsonrpc\":\"2.0\",\"method\":\"initialize\",\"params\":{\"protocolVersion\":\"2025-11-25\",\"capabilities\":{},\"clientInfo\":{}}}\n"
  const WELCOME := "{\"result\":{\"protocolVersion\":\"2025-11-25\",\"capabilities\":{}},\"id\":0,\"jsonrpc\":\"2.0\"}\n"
  const INITIALIZED := "{\"jsonrpc\":\"2.0\",\"method\":\"notifications/initialized\"}\n"
  const NO_PARAMS := "{\"method\":\"tools/call\",\"id\":1,\"jsonrpc\":\"2.0\"}\n"
  const LIST_METHOD := "{\"method\":[],\"id\":1,\"jsonrpc\":\"2.0\"}\n"
  const ODD_CALL := "{\"params\":{\"name\":\"t\",\"arguments\":{\"x\":1}},\"method\":\"tools/call\",\"id\":1,\"jsonrpc\":\"2.0\"}\n"
  const PLAIN_CALL := "{\"params\":{\"name\":\"t\"},\"method\":\"tools/call\",\"id\":null,\"jsonrpc\":\"2.0\"}\n"
  const LINK_REPLY := "{\"result\":\"http://x\",\"id\":null,\"jsonrpc\":\"2.0\"}\n"
  const BAD_LINK_REPLY := "{\"result\":\"http://[x\",\"id\":null,\"jsonrpc\":\"2.0\"}\n"

  const LONE_ID := "{\"method\":\"x\",\"id\":\"\\ud800\",\"jsonrpc\":\"2.0\"}\n"
  const PING := "{\"method\":\"ping\",\"id\":1,\"jsonrpc\":\"2.0\"}\n"
  const LONE_REPLY := "{\"result\":\"\\ud800\",\"id\":1,\"jsonrpc\":\"2.0\"}\n"

  /** Strings hold Unicode scalar values only, so a noncharacter stands for the lone surrogate. */
  const LONE: char := '\U{FFFF}'

  function LoneId(): Object {
    map["jsonrpc" := Str("2.0"), "id" := Str([LONE]), "method" := Str("x")]
  }

  function Ping(): Object {
    map["jsonrpc" := Str("2.0"), "id" := Int(1), "method" := Str("ping")]
  }

  function LoneReply(): Object {
    map["jsonrpc" := Str("2.0"), "id" := Int(1), "result" := Str([LONE])]
  }

  function Handshake(): Object {
    map["jsonrpc" := Str("2.0"), "id" := Int(0), "method" := Str("initialize"),
        "params" := Obj(map["protocolVersion" := Str(MCP_PROTOCOL_VERSION), "capabilities" := Obj(map[]), "clientInfo" := Obj(map[])])]
  }

  function Welcome(): Object {
    map["jsonrpc" := Str("2.0"), "id" := Int(0),
        "result" := Obj(map["protocolVersion" := Str(MCP_PROTOCOL_VERSION), "capabilities" := Obj(map[])])]
  }

  function InitializedNote(): Object {
    map["jsonrpc" := Str("2.0"), "method" := Str("notifications/initialized")]
  }

  function CallWith(id: Json, fields: Object): Object {
    map["jsonrpc" := Str("2.0"), "id" := id, "method" := TOOLS_CALL, "params" := Obj(fields)]
  }

  function NoParams(): Object {
    map["jsonrpc" := Str("2.0"), "id" := Int(1), "method" := TOOLS_CALL]
  }

  function ListMethod(): Object {
    map["jsonrpc" := Str("2.0"), "id" := Int(1), "method" := Arr([])]
  }

  function OddCall(): Object {
    CallWith(Int(1), map["name" := Str("t"), "arguments" := Obj(map["x" := Int(1)])])
  }

  function PlainCall(): Object {
    CallWith(Null, map["name" := Str("t")])
  }

  function TextReply(text: string): Object {
    map["jsonrpc" := Str("2.0"), "id" := Null, "result" := Str(text)]
  }

  /** The parser reads each of these JSON texts as what it says, and the plain answer can be written. */
  predicate ReadsJson(c: Config) {
    && c.parse(INITIALIZE) == Some(Handshake()) && c.parse(WELCOME) == Some(Welcome())
    && c.parse(INITIALIZED) == Some(InitializedNote())
    && c.parse(NO_PARAMS) == Some(NoParams()) && c.parse(LIST_METHOD) == Some(ListMethod())
    && c.parse(ODD_CALL) == Some(OddCall()) && c.parse(PLAIN_CALL) == Some(PlainCall())
    && c.parse(LINK_REPLY) == Some(TextReply("http://x")) && c.parse(BAD_LINK_REPLY) == Some(TextReply("http://[x"))
    && c.parse(LONE_ID) == Some(LoneId()) && c.parse(PING) == Some(Ping()) && c.parse(LONE_REPLY) == Some(LoneReply())
    && Writable(c, Welcome())
  }

  function Table(line: string): Option<Object> {
    if line == INITIALIZE then Some(Handshake())
    else if line == WELCOME then Some(Welcome())
    else if line == INITIALIZED then Some(InitializedNote())
    else if line == NO_PARAMS then Some(NoParams())
    else if line == LIST_METHOD then Some(ListMethod())
    else if line == ODD_CALL then Some(OddCall())
    else if line == PLAIN_CALL then Some(PlainCall())
    else if line == LINK_REPLY then Some(TextReply("http://x"))
    else if line == BAD_LINK_REPLY then Some(TextReply("http://[x"))
    else if line == LONE_ID then Some(LoneId())
    else if line == PING then Some(Ping())
    else if line == LONE_REPLY then Some(LoneReply())
    else None
  }

  lemma LinesDiffer()
    ensures ReadsTable()
  {
    assert |INITIALIZE| == 123 && |WELCOME| == 85 && |INITIALIZED| == 55 && |NO_PARAMS| == 47 && |LIST_METHOD| == 37;
    assert |ODD_CALL| == 89 && |PLAIN_CALL| == 72 && |LINK_REPLY| == 48 && |BAD_LINK_REPLY| == 49;
    assert |LONE_ID| == 45 && |PING| == 41 && |LONE_REPLY| == 43;
  }

  predicate ReadsTable() {
    && Table(INITIALIZE) == Some(Handshake()) && Table(WELCOME) == Some(Welcome()) && Table(INITIALIZED) == Some(InitializedNote())
    && Table(NO_PARAMS) == Some(NoParams()) && Table(LIST_METHOD) == Some(ListMethod()) && Table(ODD_CALL) == Some(OddCall())
    && Table(PLAIN_CALL) == Some(PlainCall()) && Table(LINK_REPLY) == Some(TextReply("http://x"))
    && Table(BAD_LINK_REPLY) == Some(TextReply("http://[x")) && Table(LONE_ID) == Some(LoneId()) && Table(PING) == Some(Ping())
    && Table(LONE_REPLY) == Some(LoneReply())
  }

  // ----- the handshake -------------------------------------------------------------------------------------

  const NOBODY := Moment(0.0, None, 0.0)

  function Quiet(line: string, reply: Option<string>): Turn {
    Turn(line, NOBODY, true, reply, NOBODY, Written, Written)
  }

  function Opening(): seq<Turn> {
    [Quiet(INITIALIZE, Some(WELCOME)), Quiet(INITIALIZED, None)]
  }

  /** The session that shook hands and did nothing else. */
  predicate JustReady(c: Config, provider: Option<ProviderState>, s: State) {
    s.status == Running && s.phase == Ready && s.seen == {Int(0)} && s.provider == provider
  }

  lemma MethodsDiffer()
    ensures Str("tools/call") != Str("initialize") && Str("initialize") != Str("notifications/initialized")
    ensures Str("tools/call") != Str("notifications/initialized") && Str("tools/list") != Str("notifications/initialized")
  {
    assert "tools/call"[0] == 't' && "initialize"[0] == 'i' && "notifications/initialized"[0] == 'n' && "tools/list"[0] == 't';
  }

  lemma HandshakeIsGood(m: Object)
    requires m == Handshake()
    ensures Method(m) == Str("initialize") && Id(m) == Int(0) && "id" in m && GoodControl(m, New) && !UnhashableMethod(m)
  {
    MethodsDiffer();
  }

  lemma WelcomeAnswers(c: Config, s: State, t: Turn, m: Object)
    requires ReadsJson(c) && t.reply == Some(WELCOME) && m == Handshake() && t.client == Written
    ensures Answered(c, s, m, t) == Delivered(c, s, m, Welcome(), Written)
    ensures Delivered(c, s, m, Welcome(), Written).1 == Normal
  {
    MethodsDiffer();
    HandshakeIsGood(m);
    WelcomeIsGood(Welcome());
  }

  lemma WelcomeIsGood(response: Object)
    requires response == Welcome()
    ensures Correlates(response, Int(0)) && GoodInitializeResponse(response)
  {
  }

  lemma HandshakeHandled(c: Config, heard: State, t: Turn, m: Object) returns (r: (State, Signal))
    requires ReadsJson(c) && t == Quiet(INITIALIZE, Some(WELCOME)) && m == Handshake() && heard.phase == New
    ensures r == ControlHandled(c, heard, m, t) && r.1 == Normal
    ensures r.0.phase == Initialized && r.0.status == heard.status && r.0.seen == heard.seen && r.0.provider == heard.provider
  {
    HandshakeIsGood(m);
    var counted := heard.(summary := heard.summary.(controlMessages := heard.summary.controlMessages + 1));
    PassedRequest(c, counted, m, t);
    WelcomeAnswers(c, SentUpstream(counted, t.line, m), t, m);
    r := Delivered(c, SentUpstream(counted, t.line, m), m, Welcome(), Written);
  }

  lemma ControlRound(c: Config, s: State, t: Turn, m: Object, r: (State, Signal))
    requires s.status == Running && c.parse(t.line) == Some(m) && Method(m) != TOOLS_CALL
    requires GoodId(Id(m)) && (Id(m).Null? || Id(m) !in s.seen)
    requires r == ControlHandled(c, Admitted(Logged(s, Received(t.line)), m), m, t) && r.1 == Normal
    ensures Stepped(c, s, t) == r.0
  {
  }

  lemma FirstLine(provider: Option<ProviderState>, line: string, m: Object) returns (heard: State)
    requires Id(m) == Int(0)
    ensures heard == Admitted(Logged(Start(provider), Received(line)), m)
    ensures heard.status == Running && heard.phase == New && heard.seen == {Int(0)} && heard.provider == provider
  {
    heard := Admitted(Logged(Start(provider), Received(line)), m);
  }

  lemma FirstRound(c: Config, provider: Option<ProviderState>) returns (s: State)
    requires ReadsJson(c)
    ensures s == Stepped(c, Start(provider), Quiet(INITIALIZE, Some(WELCOME)))
    ensures s.status == Running && s.phase == Initialized && s.seen == {Int(0)} && s.provider == provider
  {
    var t, m := Quiet(INITIALIZE, Some(WELCOME)), Handshake();
    HandshakeIsGood(m);
    var heard := FirstLine(provider, t.line, m);
    var r := HandshakeHandled(c, heard, t, m);
    assert Method(m) != TOOLS_CALL by { MethodsDiffer(); }
    ControlRound(c, Start(provider), t, m, r);
    s := r.0;
  }

  lemma SecondRound(c: Config, before: State) returns (s: State)
    requires ReadsJson(c) && before.status == Running && before.phase == Initialized
    ensures s == Stepped(c, before, Quiet(INITIALIZED, None))
    ensures s.status == Running && s.phase == Ready && s.seen == before.seen && s.provider == before.provider
  {
    var t, m := Quiet(INITIALIZED, None), InitializedNote();
    MethodsDiffer();
    assert "id" !in m && Id(m) == Null;
    assert GoodControl(m, Initialized);
    s := Stepped(c, before, t);
  }

  /** After the two opening rounds the session is ready. */
  lemma OpeningMakesReady(c: Config, provider: Option<ProviderState>) returns (s: State)
    requires ReadsJson(c)
    ensures s == Run(c, provider, Opening()) && JustReady(c, provider, s)
  {
    var s1 := FirstRound(c, provider);
    s := SecondRound(c, s1);
    assert Opening()[..1] == [Opening()[0]] && [Opening()[0]][..0] == [];
    assert Run(c, provider, []) == Start(provider);
    assert Run(c, provider, Opening()[..1]) == s1;
  }

  /** What a run looks like one round after the opening. */
  lemma OneMoreRound(c: Config, provider: Option<ProviderState>, t: Turn) returns (s: State)
    requires ReadsJson(c)
    ensures JustReady(c, provider, s) && Run(c, provider, (Opening() + [t])[..2]) == s
    ensures Run(c, provider, Opening() + [t]) == Stepped(c, s, t)
  {
    s := OpeningMakesReady(c, provider);
    assert (Opening() + [t])[..2] == Opening();
    assert (Opening() + [t])[..|Opening() + [t]| - 1] == Opening();
  }

  lemma RaisesAfterOpening(c: Config, provider: Option<ProviderState>, s: State, t: Turn)
    requires Run(c, provider, (Opening() + [t])[..2]) == s && Aborting(c, s, t)
    ensures SessionEnding(c, provider, Opening() + [t], true) == RaisedOut
  {
    AbortingRoundsEndTheSession(c, provider, Opening() + [t], 2, true);
  }

  // ----- sessions that end by exception --------------------------------------------------------------------------

  lemma NoParamsIsRefused(lib: Library, m: Object, policy: Policy)
    requires m == NoParams()
    ensures Id(m) == Int(1) && Method(m) == TOOLS_CALL && "id" in m && McpEvaluated(lib, m, policy).Err?
  {
    assert Get(m, "params") == Null;
  }

  // A tools/call without params, in a ready session and under any policy: the client gets neither a
  // result nor an error, and no summary is returned.
  lemma MissingParamsRaises(c: Config, lib: Library, sc: Response.Scanner, policy: Policy, provider: Option<ProviderState>)
    requires Deployed(c, lib, sc, policy) && ReadsJson(c)
    ensures SessionEnding(c, provider, Opening() + [Quiet(NO_PARAMS, None)], true) == RaisedOut
  {
    var t := Quiet(NO_PARAMS, None);
    var s := OneMoreRound(c, provider, t);
    NoParamsIsRefused(lib, NoParams(), policy);
    assert MalformedCall(c, s, NO_PARAMS);
    RaisesAfterOpening(c, provider, s, t);
  }

  // A message whose method is a list: the same.
  lemma ListMethodRaises(c: Config, provider: Option<ProviderState>)
    requires ReadsJson(c)
    ensures SessionEnding(c, provider, Opening() + [Quiet(LIST_METHOD, None)], true) == RaisedOut
  {
    var t := Quiet(LIST_METHOD, None);
    var s := OneMoreRound(c, provider, t);
    var m := ListMethod();
    assert Id(m) == Int(1) && Method(m) == Arr([]) && Get(m, "jsonrpc") == Str("2.0");
    assert UnhashableControl(c, s, LIST_METHOD);
    RaisesAfterOpening(c, provider, s, t);
  }

  // ----- evaluations under the empty policy ----------------------------------------------------------------------

  const ALLOW_ALL := Policy(Allow, map[])

  lemma NoToolNameReasons(lib: Library, name: string)
    ensures ToolNameReasons(lib, name, ALLOW_ALL.rules) == [] && BaseDecision(lib, name, ALLOW_ALL) == Allow
  {
  }

  lemma PlainCallIsAllowed(lib: Library, m: Object)
    requires m == PlainCall()
    ensures Method(m) == TOOLS_CALL && "id" in m && Id(m) == Null && ParamsOf(m) == Obj(map["name" := Str("t")])
    ensures McpEvaluated(lib, m, ALLOW_ALL).Ok? && McpEvaluated(lib, m, ALLOW_ALL).value.evaluation.decision == Allow
  {
    NoToolNameReasons(lib, "t");
    var call := ToolCall("t", map[], false);
    assert !IsSpace("t"[0]);
    assert ParseMcpToolCall(m) == Ok(call);
    assert CapabilityActions(call) == Ok([] + [] + []);
    assert GatewayMarks(call) == [];
  }

  lemma OddCallIsUnclassified(lib: Library, m: Object)
    requires m == OddCall()
    ensures Method(m) == TOOLS_CALL && "id" in m && Id(m) == Int(1)
    ensures McpEvaluated(lib, m, ALLOW_ALL).Ok?
    ensures var r := McpEvaluated(lib, m, ALLOW_ALL).value;
            Unclassified(r.call) && !r.call.taskAugmented && r.call.name == "t" && !Blocks(r.evaluation.reasons)
  {
    NoToolNameReasons(lib, "t");
    var call := ToolCall("t", map["x" := Int(1)], false);
    assert !IsSpace("t"[0]);
    assert ParseMcpToolCall(m) == Ok(call);
    assert "x" in call.arguments;
    assert CapabilityActions(call) == Ok([] + [] + []);
    assert AllActionReasons(lib, [], ALLOW_ALL.rules) == [];
  }

  // ----- operator lines ----------------------------------------------------------------------------------------

  predicate OneWord(s: string) {
    s != "" && forall i :: 0 <= i < |s| ==> !IsSpace(s[i])
  }

  lemma {:induction false} WordLengthOf(word: string, rest: string)
    requires (forall i :: 0 <= i < |word| ==> !IsSpace(word[i])) && (rest == "" || IsSpace(rest[0]))
    ensures WordLength(word + rest) == |word|
  {
    if word != "" {
      assert (word + rest)[1..] == word[1..] + rest;
      WordLengthOf(word[1..], rest);
    } else {
      assert word + rest == rest;
    }
  }

  lemma WordAlone(word: string)
    requires OneWord(word)
    ensures Words(word) == [word]
  {
    WordLengthOf(word, "");
    assert word + "" == word && word[..|word|] == word && word[|word|..] == "";
  }

  lemma WordThen(word: string, rest: string)
    requires OneWord(word)
    ensures Words(word + " " + rest) == [word] + Words(rest)
  {
    var tail := " " + rest;
    assert word + " " + rest == word + tail && tail[1..] == rest;
    WordLengthOf(word, tail);
    assert (word + tail)[..|word|] == word && (word + tail)[|word|..] == tail;
  }

  lemma ApproveApproves()
    ensures ApprovingLine("approve")
  {
    WordAlone("approve");
    assert Lower("approve") == "approve";
  }

  lemma GrantLineParts(tail: string)
    requires tail == "60" + " " + "2"
    ensures "grant 60 2" == "grant" + " " + tail
  {
  }

  lemma GrantWords()
    ensures Words("grant 60 2") == ["grant", "60", "2"]
  {
    var tail := "60" + " " + "2";
    ThreeWords("grant", "60", "2", tail);
    GrantLineParts(tail);
  }

  lemma ThreeWords(a: string, b: string, c: string, tail: string)
    requires OneWord(a) && OneWord(b) && OneWord(c) && tail == b + " " + c
    ensures Words(a + " " + tail) == [a, b, c]
  {
    WordAlone(c);
    WordThen(b, c);
    WordThen(a, tail);
  }

  lemma GrantNumbers()
    ensures PyInt("60") == Some(60) && PyInt("2") == Some(2)
  {
    assert "60"[..1] == "6" && "6"[..0] == "" && "2"[..0] == "";
    assert DigitValue("6") == 6 && DigitValue("60") == 60 && DigitValue("2") == 2;
  }

  // ----- an unclassified call that is forwarded ---------------------------------------------------------------------

  const OPEN_PROMPT := Some(ProviderState(map[], false))

  // An argument no capability covers, an operator who types `approve`: the call is written upstream.
  lemma UnclassifiedCallIsForwarded(c: Config, lib: Library, sc: Response.Scanner)
    requires Deployed(c, lib, sc, ALLOW_ALL) && ReadsJson(c)
    requires GoodTimeout(c.timeout) && c.upstream.Digest? && c.policyHash.Digest?
    requires c.encodable(SemanticRequest(OddCall())) && c.encodable(Str("t"))
    ensures c.evaluate(OddCall()).Ok? && Unclassified(c.evaluate(OddCall()).value.call)
    ensures var turns := Opening() + [Turn(ODD_CALL, Moment(0.0, Some("approve"), 0.0), true, None, NOBODY, Written, Written)];
            ShowsForwarded(Run(c, OPEN_PROMPT, Opening()).log, Run(c, OPEN_PROMPT, turns).log)
  {
    var t := Turn(ODD_CALL, Moment(0.0, Some("approve"), 0.0), true, None, NOBODY, Written, Written);
    var s := OneMoreRound(c, OPEN_PROMPT, t);
    assert (Opening() + [t])[..2] == Opening();
    OddCallIsUnclassified(lib, OddCall());
    ApproveApproves();
    UnclassifiedIsForwardedIff(c, lib, sc, ALLOW_ALL, s, t);
  }

  // ----- answers with links -----------------------------------------------------------------------------------------

  const LINK_TEXT := "{\n  \"result\": \"http://x\"\n}"
  const BAD_LINK_TEXT := "{\n  \"result\": \"http://[x\"\n}"

  /** json.dumps and urlparse on the two answers. */
  predicate KnowsLinks(sc: Response.Scanner) {
    && sc.encodable(Obj(PlainCall())) && sc.encodable(Obj(TextReply("http://x"))) && sc.encodable(Obj(TextReply("http://[x")))
    && sc.text(Obj(map["result" := Str("http://x")])) == Some(LINK_TEXT)
    && sc.text(Obj(map["result" := Str("http://[x")])) == Some(BAD_LINK_TEXT)
    && sc.hosts(LINK_TEXT) == Some(["x"]) && sc.hosts(BAD_LINK_TEXT) == None && !sc.secret(LINK_TEXT)
  }

  lemma ReplyIsScannable(sc: Response.Scanner, m: Object, response: Object, text: string)
    requires m == PlainCall() && response == TextReply(text) && sc.encodable(Obj(m)) && sc.encodable(Obj(response))
    requires sc.text(Obj(map["result" := Str(text)])).Some?
    ensures Response.Scannable(sc, m, response) && Correlates(response, Null)
    ensures Response.Envelope(response) == Obj(map["result" := Str(text)])
    ensures var data := Response.ResponseResult(sc, m, response);
            data.fields == [] && data.expected == [] && data.content == sc.text(Obj(map["result" := Str(text)])).value
            && (|data.content| <= 100 ==> Response.ValidToolResult(sc, data))
  {
    assert "result" in response && "error" !in response && "method" !in response;
    assert Get(response, "id") == Null && Get(response, "jsonrpc") == Str("2.0");
    assert !IsSpace("t"[0]);
  }

  lemma PlainCallIsAdmitted(c: Config, lib: Library, sc: Response.Scanner, s: State, m: Object)
    requires Deployed(c, lib, sc, ALLOW_ALL) && ReadsJson(c) && s.status == Running && s.phase == Ready && m == PlainCall()
    ensures AdmittedCall(c, s, PLAIN_CALL) && c.parse(PLAIN_CALL) == Some(m) && Id(m) == Null && c.evaluate(m).Ok?
    ensures LetThrough(c, s.provider, m, c.evaluate(m).value, NOBODY)
  {
    PlainCallIsAllowed(lib, m);
  }

  lemma BadLinkIsUnreadable(c: Config, lib: Library, sc: Response.Scanner, m: Object, response: Object)
    requires Deployed(c, lib, sc, ALLOW_ALL) && KnowsLinks(sc) && m == PlainCall() && response == TextReply("http://[x")
    requires c.parse(BAD_LINK_REPLY) == Some(response)
    ensures c.scan(m, response) == Err(UnreadableUrl) && CorrelatedResponse(c, Some(BAD_LINK_REPLY), Null) == Some(response)
  {
    ReplyIsScannable(sc, m, response, "http://[x");
    Response.UnreadableUrlIff(sc, m, response);
  }

  lemma BadLinkRound(c: Config, lib: Library, sc: Response.Scanner, s: State)
    requires Deployed(c, lib, sc, ALLOW_ALL) && ReadsJson(c) && KnowsLinks(sc) && s.status == Running && s.phase == Ready
    ensures UnreadableAnswer(c, s, Quiet(PLAIN_CALL, Some(BAD_LINK_REPLY)))
  {
    PlainCallIsAdmitted(c, lib, sc, s, PlainCall());
    BadLinkIsUnreadable(c, lib, sc, PlainCall(), TextReply("http://[x"));
  }

  // A clean call answered with an unfinished IPv6 address: no reply, no summary.
  lemma UnreadableLinkRaises(c: Config, lib: Library, sc: Response.Scanner, provider: Option<ProviderState>)
    requires Deployed(c, lib, sc, ALLOW_ALL) && ReadsJson(c) && KnowsLinks(sc)
    ensures SessionEnding(c, provider, Opening() + [Quiet(PLAIN_CALL, Some(BAD_LINK_REPLY))], true) == RaisedOut
  {
    var t := Quiet(PLAIN_CALL, Some(BAD_LINK_REPLY));
    var s := OneMoreRound(c, provider, t);
    BadLinkRound(c, lib, sc, s);
    RaisesAfterOpening(c, provider, s, t);
  }

  lemma MissingCharacter(v: string, marker: string, k: nat)
    requires k < |marker| && marker[k] !in v
    ensures !Contains(v, marker)
  {
  }

  lemma LinkTextLacks(c: char)
    requires c in {'d', 'f', 'i', 'v', 'm', 'o', 'n'}
    ensures c !in LINK_TEXT
  {
  }

  lemma LinkTextIsLower()
    ensures Lower(LINK_TEXT) == LINK_TEXT
  {
  }

  lemma NoPromptMarker()
    ensures !Response.HasMarker(LINK_TEXT, Response.PROMPT_MARKERS)
  {
    LinkTextIsLower();
    LinkTextLacks('d');
    MissingCharacter(LINK_TEXT, "developer message", 0);
    LinkTextLacks('f');
    MissingCharacter(LINK_TEXT, "follow these instructions", 0);
    LinkTextLacks('i');
    MissingCharacter(LINK_TEXT, "ignore previous instructions", 0);
    LinkTextLacks('v');
    MissingCharacter(LINK_TEXT, "reveal the system prompt", 2);
    LinkTextLacks('m');
    MissingCharacter(LINK_TEXT, "system message", 5);
  }

  lemma NoExfiltrationMarker()
    ensures !Response.HasMarker(LINK_TEXT, Response.EXFILTRATION_MARKERS)
  {
    LinkTextIsLower();
    LinkTextLacks('f');
    MissingCharacter(LINK_TEXT, "exfiltrate", 2);
    LinkTextLacks('o');
    MissingCharacter(LINK_TEXT, "post the data", 1);
    LinkTextLacks('n');
    MissingCharacter(LINK_TEXT, "send this to", 2);
    MissingCharacter(LINK_TEXT, "upload this", 3);
  }

  lemma LinkTextIsHarmless(sc: Response.Scanner)
    requires KnowsLinks(sc)
    ensures !Response.Suspicious(sc, LINK_TEXT) && Response.HasUnexpectedUrl(sc, LINK_TEXT, [])
  {
    NoPromptMarker();
    NoExfiltrationMarker();
    assert !Response.ExpectedHost(sc, Response.HostsIn(sc, LINK_TEXT)[0], []);
  }

  lemma LinkReplyIsForReview(c: Config, lib: Library, sc: Response.Scanner) returns (scan: ScanReport)
    requires Deployed(c, lib, sc, ALLOW_ALL) && KnowsLinks(sc)
    ensures c.scan(PlainCall(), TextReply("http://x")) == Ok(scan) && scan.outcome == Review
  {
    var m, response := PlainCall(), TextReply("http://x");
    ReplyIsScannable(sc, m, response, "http://x");
    Response.UnreadableUrlIff(sc, m, response);
    LinkTextIsHarmless(sc);
    Response.ResponseOutcome(sc, m, response);
    scan := c.scan(m, response).value;
  }

  // ----- a response that a grant releases ------------------------------------------------------------------------------

  const GRANTING := Moment(0.0, Some("grant 60 2"), 0.0)
  const LATER := Moment(1.0, None, 1.0)

  function LinkRound(answer: Moment): Turn {
    Turn(PLAIN_CALL, NOBODY, true, Some(LINK_REPLY), answer, Written, Written)
  }

  lemma GrantLineReads(fingerprint: Json)
    requires fingerprint.Digest?
    ensures ReadLine("grant 60 2", fingerprint) == Ok(Parsed(true, 60, 2))
  {
    assert Lower("grant 60 2") == "grant 60 2" && StripLowerLine("grant 60 2") == "grant 60 2";
    GrantWords();
    GrantNumbers();
    OnlyExactLinesApprove("grant 60 2", fingerprint);
  }

  lemma GrantIsGiven(request: Request)
    requires request.requestFingerprint.Digest? && request.grantAllowed
    ensures OutcomeOf(OPEN_PROMPT.value, request, GRANTING) == Outcome(true, ExplicitApproval)
    ensures var p := AfterAuthorize(OPEN_PROMPT.value, request, GRANTING);
            Live(p.store, request.scopeFingerprint, 1.0) && !p.closed
  {
    GrantLineReads(request.requestFingerprint);
  }

  lemma LinkRoundAnswers(c: Config, lib: Library, sc: Response.Scanner, s: State, answer: Moment) returns (scan: ScanReport)
    requires Deployed(c, lib, sc, ALLOW_ALL) && ReadsJson(c) && KnowsLinks(sc)
    requires s.status == Running && s.phase == Ready
    ensures Answers(c, s, LinkRound(answer), PlainCall(), TextReply("http://x"), scan) && scan.outcome == Review
  {
    PlainCallIsAdmitted(c, lib, sc, s, PlainCall());
    scan := LinkReplyIsForReview(c, lib, sc);
    ReplyIsScannable(sc, PlainCall(), TextReply("http://x"), "http://x");
  }

  /** Everything a release request needs. */
  predicate CanAsk(c: Config) {
    GoodTimeout(c.timeout) && c.upstream.Digest? && c.policyHash.Digest? && c.encodable(SemanticRequest(PlainCall()))
  }

  lemma ReleaseCanBeAsked(c: Config, lib: Library, sc: Response.Scanner, scan: ScanReport) returns (request: Request)
    requires Deployed(c, lib, sc, ALLOW_ALL) && CanAsk(c) && scan.outcome == Review
    requires c.scan(PlainCall(), TextReply("http://x")) == Ok(scan)
    ensures ResponseRequest(c, PlainCall(), scan) == Ok(request)
    ensures request.grantAllowed && request.requestFingerprint.Digest?
  {
    var rules, projection := Response.ReportOf(sc, PlainCall(), TextReply("http://x"));
    request := ResponseRequest(c, PlainCall(), scan).value;
  }

  /** An allowed call goes upstream without a question. */
  lemma UpstreamedPlainly(c: Config, lib: Library, s: State, t: Turn, m: Object, result: GatewayResult)
    requires m == PlainCall() && McpEvaluated(lib, m, ALLOW_ALL) == Ok(result)
    ensures var sent := Upstreamed(c, s, t, m, result);
            sent.provider == s.provider && sent.status == s.status && sent.phase == s.phase
  {
    PlainCallIsAllowed(lib, m);
  }

  /** A response for review that the operator grants is relayed. */
  lemma ReleasedNow(c: Config, s: State, t: Turn, m: Object, response: Object, scan: ScanReport, request: Request)
    requires s.provider.Some? && scan.outcome == Review && ResponseRequest(c, m, scan) == Ok(request)
    requires OutcomeOf(s.provider.value, request, t.responseMoment).approved && t.client == Written && Writable(c, response)
    requires Method(m) == TOOLS_CALL
    ensures var judged := PostFlightJudged(c, s, m, response, scan, t.responseMoment);
            var r := JudgedResponse(c, judged.0, judged.1, m, response, scan.decision, t);
            && r.1 == Normal && r.0.status == s.status && r.0.phase == s.phase
            && r.0.provider == Some(AfterAuthorize(s.provider.value, request, t.responseMoment))
  {
    MethodsDiffer();
  }

  lemma GrantedRound(c: Config, lib: Library, sc: Response.Scanner, s: State) returns (s': State, scan: ScanReport, request: Request)
    requires Deployed(c, lib, sc, ALLOW_ALL) && ReadsJson(c) && KnowsLinks(sc) && CanAsk(c)
    requires JustReady(c, OPEN_PROMPT, s)
    ensures s' == Stepped(c, s, LinkRound(GRANTING)) && s'.status == Running && s'.phase == Ready
    ensures c.scan(PlainCall(), TextReply("http://x")) == Ok(scan) && ResponseRequest(c, PlainCall(), scan) == Ok(request)
    ensures scan.outcome == Review && request.grantAllowed && request.requestFingerprint.Digest?
    ensures s'.provider == Some(AfterAuthorize(OPEN_PROMPT.value, request, GRANTING))
  {
    var t, m, response := LinkRound(GRANTING), PlainCall(), TextReply("http://x");
    scan := LinkRoundAnswers(c, lib, sc, s, GRANTING);
    request := ReleaseCanBeAsked(c, lib, sc, scan);
    GrantIsGiven(request);
    ScannedIsWritable(c, lib, sc, ALLOW_ALL, m, response);
    var sent, handled := AnsweringRound(c, s, t, m, response, scan);
    UpstreamedPlainly(c, lib, s, t, m, c.evaluate(m).value);
    ReleasedNow(c, sent, t, m, response, scan, request);
    s' := Stepped(c, s, t);
  }

  lemma ReleasedRound(c: Config, lib: Library, sc: Response.Scanner, s: State, scan: ScanReport, request: Request) returns (log: seq<Event>)
    requires Deployed(c, lib, sc, ALLOW_ALL) && ReadsJson(c) && KnowsLinks(sc)
    requires s.status == Running && s.phase == Ready && s.provider.Some? && scan.outcome == Review
    requires c.scan(PlainCall(), TextReply("http://x")) == Ok(scan) && ResponseRequest(c, PlainCall(), scan) == Ok(request)
    requires Live(s.provider.value.store, request.scopeFingerprint, 1.0)
    ensures log == Stepped(c, s, LinkRound(LATER)).log && ReleasedByGrant(log)
  {
    var again := LinkRoundAnswers(c, lib, sc, s, LATER);
    LiveGrantReleases(c, lib, sc, ALLOW_ALL, s, LinkRound(LATER), PlainCall(), PlainCall(), TextReply("http://x"), again);
    log := Stepped(c, s, LinkRound(LATER)).log;
  }

  /** The last thing that happened: an answer went to the client, released by a session grant. */
  predicate ReleasedByGrant(log: seq<Event>) {
    && |log| > 2 && log[|log| - 1] == Relayed(PlainCall(), TextReply("http://x"))
    && log[|log| - 2].Asked? && log[|log| - 2].ask.outcome == Outcome(true, SessionGrant)
  }

  lemma LastRound(c: Config, provider: Option<ProviderState>, turns: seq<Turn>, t: Turn, s: State)
    requires Run(c, provider, turns) == s
    ensures Run(c, provider, turns + [t]) == Stepped(c, s, t)
  {
    assert (turns + [t])[..|turns + [t]| - 1] == turns;
  }

  // Two calls without an id get the same answer with a link. The operator answers the first with
  // `grant 60 2`; one second later the second answer goes out without a question.
  lemma GrantReleasesTheNextAnswer(c: Config, lib: Library, sc: Response.Scanner)
    requires Deployed(c, lib, sc, ALLOW_ALL) && ReadsJson(c) && KnowsLinks(sc) && CanAsk(c)
    ensures ReleasedByGrant(Run(c, OPEN_PROMPT, Opening() + [LinkRound(GRANTING)] + [LinkRound(LATER)]).log)
  {
    var s := OneMoreRound(c, OPEN_PROMPT, LinkRound(GRANTING));
    var s', scan, request := GrantedRound(c, lib, sc, s);
    GrantIsGiven(request);
    var log := ReleasedRound(c, lib, sc, s', scan, request);
    LastRound(c, OPEN_PROMPT, Opening() + [LinkRound(GRANTING)], LinkRound(LATER), s');
  }

  // ----- messages that cannot be written ---------------------------------------------------------------------------------

  // An ASCII line whose id is an escaped lone surrogate, and an unknown method: the note about it cannot be
  // encoded, so the session raises on its first message.
  lemma LoneIdRaises(c: Config, provider: Option<ProviderState>)
    requires ReadsJson(c) && EncodesByParts(c) && !c.encodable(Str([LONE]))
    ensures SessionEnding(c, provider, [Quiet(LONE_ID, None)], true) == RaisedOut
  {
    var turns := [Quiet(LONE_ID, None)];
    assert turns[..0] == [] && Id(LoneId()) == Str([LONE]);
    UnwritableIdAborts(c, Start(provider), turns[0]);
    AbortingRoundsEndTheSession(c, provider, turns, 0, true);
  }

  lemma PingIsGood(m: Object)
    requires m == Ping()
    ensures Method(m) == Str("ping") && Method(m) != TOOLS_CALL && Id(m) == Int(1) && "id" in m && GoodControl(m, Ready)
    ensures Method(m) != Str("initialize") && Correlates(LoneReply(), Int(1))
  {
    assert "ping"[0] == 'p' && "tools/call"[0] == 't' && "initialize"[0] == 'i' && "notifications/initialized"[0] == 'n' && "tools/list"[0] == 't';
  }

  // A ping whose answer holds an escaped lone surrogate: the answer cannot be relayed, and the session raises.
  lemma LoneAnswerRaises(c: Config, provider: Option<ProviderState>)
    requires ReadsJson(c) && !Writable(c, LoneReply())
    ensures SessionEnding(c, provider, Opening() + [Quiet(PING, Some(LONE_REPLY))], true) == RaisedOut
  {
    var t := Quiet(PING, Some(LONE_REPLY));
    var s := OneMoreRound(c, provider, t);
    PingIsGood(Ping());
    ControlAnswerAborts(c, s, t);
    RaisesAfterOpening(c, provider, s, t);
  }

  // ----- all this can be met ------------------------------------------------------------------------------------------------

  predicate IsLone(j: Json) {
    j.Str? && LONE in j.s
  }

  /** Encoding as far as the messages above need it: no lone surrogate in a string or in a member of an object. */
  predicate NoLone(j: Json) {
    !IsLone(j) && (j.Obj? ==> forall k :: k in j.fields ==> !IsLone(j.fields[k]))
  }

  lemma LocalErrorHoldsTheId(id: Json, code: int, d: Decision)
    ensures NoLone(Obj(LocalError(id, code, DecisionName(d)))) <==> !IsLone(id)
  {
    var m := LocalError(id, code, DecisionName(d));
    assert m["id"] == id && LONE !in "2.0";
  }

  lemma PlainStrings()
    ensures NoLone(Obj(Welcome())) && NoLone(Obj(PlainCall())) && NoLone(Obj(TextReply("http://x"))) && NoLone(Obj(TextReply("http://[x")))
    ensures NoLone(SemanticRequest(PlainCall())) && NoLone(SemanticRequest(OddCall()))
  {
    assert LONE !in "2.0" && LONE !in "tools/call" && LONE !in "http://x" && LONE !in "http://[x";
  }

  lemma EncodingByParts(c: Config)
    requires forall j: Json :: c.encodable(j) == NoLone(j)
    ensures EncodesByParts(c)
  {
    forall id: Json, code: int, d: Decision | GoodId(id)
      ensures Writable(c, LocalError(id, code, DecisionName(d))) <==> GoodForOutput(c, id)
    {
      LocalErrorHoldsTheId(id, code, d);
    }
  }

  function LinkJson(j: Json): Option<string> {
    if j == Obj(map["result" := Str("http://x")]) then Some(LINK_TEXT)
    else if j == Obj(map["result" := Str("http://[x")]) then Some(BAD_LINK_TEXT)
    else None
  }

  function LinkHosts(text: string): Option<seq<string>> {
    if text == LINK_TEXT then Some(["x"]) else None
  }

  lemma LinksDiffer()
    ensures LinkJson(Obj(map["result" := Str("http://[x")])) == Some(BAD_LINK_TEXT) && LINK_TEXT != BAD_LINK_TEXT
  {
    assert |LINK_TEXT| == 26 && |BAD_LINK_TEXT| == 27;
    var a: Object, b: Object := map["result" := Str("http://x")], map["result" := Str("http://[x")];
    assert |"http://x"| == 8 && |"http://[x"| == 9;
    assert a["result"] != b["result"];
  }

  // There are deployments that meet everything asked for above, for every policy.
  lemma SuchSessionsExist(lib: Library, policy: Policy) returns (c: Config, sc: Response.Scanner)
    ensures Deployed(c, lib, sc, policy) && ReadsJson(c) && KnowsLinks(sc) && CanAsk(c)
    ensures EncodesByParts(c) && !c.encodable(Str([LONE])) && !Writable(c, LoneReply())
    ensures c.encodable(SemanticRequest(OddCall())) && c.encodable(Str("t"))
  {
    sc := Response.Scanner(lib.inClass, (s: string) => false, LinkHosts, (s: string) => false, (s: string) => false, LinkJson, NoLone);
    c := Config(Table, NoLone, m => McpEvaluated(lib, m, policy), (m, r) => Response.ResponseScanned(sc, m, r),
                Digest(Null), Digest(Null), 1.0);
    LinesDiffer();
    LinksDiffer();
    PlainStrings();
    EncodingByParts(c);
    LoneReplyHoldsIt(LoneReply());
  }

  lemma LoneReplyHoldsIt(m: Object)
    requires m == LoneReply()
    ensures !NoLone(Obj(m)) && !NoLone(Str([LONE])) && NoLone(Str("t"))
  {
    assert [LONE][0] == LONE;
    assert "result" in m && !NoLone(m["result"]);
  }
}
