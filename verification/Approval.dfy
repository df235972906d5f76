/**
 * Scoped approvals (approval.py): what an approval request binds, how an operator's line is read,
 * and the in-memory grants behind `TerminalApprovalProvider.authorize`.
 */
module Approval {
  import opened Basics
  import opened Json
  import opened Models
  import opened Evaluator
  import Matching

  const MAX_APPROVAL_LINE_CHARS := 128
  const MAX_GRANT_TTL_SECONDS := 300
  const MAX_GRANT_USES := 20

  datatype Request = Request(document: Json, requestFingerprint: Json, scopeFingerprint: Json, grantAllowed: bool)

  // ----- pre-flight requests --------------------------------------------------------------------

  function ParamsOf(message: Object): Json {
    if Get(message, "params").Obj? then Get(message, "params") else Obj(map[])
  }

  function SemanticRequest(message: Object): Json {
    Obj(map["method" := Str("tools/call"), "params" := ParamsOf(message)])
  }

  const CAPABILITY_NAMES: seq<string> := ["file", "network", "shell", "unclassified"]

  function Among(names: seq<string>): string -> bool {
    (name: string) => name in names
  }

  /** The sorted set of capability names. */
  function SortedCapabilities(capabilities: seq<string>): seq<string> {
    Filter(CAPABILITY_NAMES, Among(capabilities))
  }

  function Joined(words: seq<string>): string {
    if words == [] then "" else if |words| == 1 then words[0] else words[0] + "+" + Joined(words[1..])
  }

  function Strings(words: seq<string>): Json {
    Arr(seq(|words|, i requires 0 <= i < |words| => Str(words[i])))
  }

  function CallScope(message: Object, call: ToolCall, capabilities: seq<string>, upstream: Json, policyHash: Json): Json {
    Obj(map[
      "upstream_fingerprint" := upstream,
      "policy_hash" := policyHash,
      "tool_fingerprint" := Fingerprint("approval-tool-v1", Str(call.name)),
      "capabilities" := Strings(SortedCapabilities(capabilities)),
      "target_class" := Str(Joined(SortedCapabilities(capabilities))),
      "semantic_request_fingerprint" := Fingerprint("approval-semantic-request-v1", SemanticRequest(message))])
  }

  function RulesOf(reasons: seq<Reason>): Json {
    Arr(seq(|reasons|, i requires 0 <= i < |reasons| => Str(reasons[i].rule)))
  }

  predicate NonApprovable(reasons: seq<Reason>) {
    exists r :: r in reasons && r.rule == TASKS_UNSUPPORTED
  }

  predicate GoodTimeout(timeout: real) {
    0.05 <= timeout <= 300.0
  }

  function RequestFor(contract: string, decision: string, scope: Json, scopeFingerprint: Json, rules: Json,
                      timeout: real, grantAllowed: bool): Request
  {
    var core := Obj(map[
      "schema_version" := Int(1), "kind" := Str("approval_request"), "decision" := Str(decision),
      "scope" := scope, "scope_fingerprint" := scopeFingerprint, "rules" := rules,
      "timeout_seconds" := Real(timeout), "grant_allowed" := Bool(grantAllowed)]);
    Request(core, Fingerprint(contract, core), scopeFingerprint, grantAllowed)
  }

  /** `encodable` says which values can be written as canonical UTF-8 JSON. */
  function BuildApprovalRequest(encodable: Json -> bool, message: Object, result: GatewayResult,
                                upstream: Json, policyHash: Json, timeout: real): Result<Request, InputError>
  {
    if result.evaluation.decision != Warn then Err(InputError)
    else if NonApprovable(result.evaluation.reasons) then Err(InputError)
    else if !GoodTimeout(timeout) || !upstream.Digest? || !policyHash.Digest? then Err(InputError)
    else if !encodable(SemanticRequest(message)) || !encodable(Str(result.call.name)) then Err(InputError)
    else
      var scope := CallScope(message, result.call, result.capabilities, upstream, policyHash);
      Ok(RequestFor("approval-request-v1", "warn", scope, Fingerprint("approval-scope-v1", scope),
                    RulesOf(result.evaluation.reasons), timeout, true))
  }

  // ----- post-flight requests -------------------------------------------------------------------

  datatype PostFlight = Clean | Review | BlockNextStep

  /** What a scan report hands to the approval: outcome, decision, correlation and receipt. */
  datatype ScanReport = ScanReport(
    outcome: PostFlight, decision: Decision, resultFingerprint: Json, toolFingerprint: Json,
    receiptFingerprint: Json, rules: seq<string>)

  /** Why there is no report: the scanner's input error, or the ValueError urlparse raises on some text. */
  datatype ScanFailure = Unfit | UnreadableUrl

  function ResultScope(message: Object, scan: ScanReport, upstream: Json, policyHash: Json): Json {
    Obj(map[
      "upstream_fingerprint" := upstream,
      "policy_hash" := policyHash,
      "tool_fingerprint" := scan.toolFingerprint,
      "capabilities" := Strings(["tool-result"]),
      "target_class" := Str("tool-result"),
      "semantic_request_fingerprint" := Fingerprint("approval-semantic-request-v1", SemanticRequest(message)),
      "result_fingerprint" := scan.resultFingerprint,
      "result_receipt_fingerprint" := scan.receiptFingerprint])
  }

  function DecisionName(d: Decision): string {
    match d
    case Allow => "allow"
    case Warn => "warn"
    case Deny => "deny"
  }

  function BuildResultApprovalRequest(encodable: Json -> bool, message: Object, scan: ScanReport,
                                      upstream: Json, policyHash: Json, timeout: real): Result<Request, InputError>
  {
    if scan.outcome == Clean then Err(InputError)
    else if !GoodTimeout(timeout) || !upstream.Digest? || !policyHash.Digest? then Err(InputError)
    else if !scan.resultFingerprint.Digest? || !scan.toolFingerprint.Digest? || !scan.receiptFingerprint.Digest?
    then Err(InputError)
    else if !encodable(SemanticRequest(message)) then Err(InputError)
    else
      var scope := ResultScope(message, scan, upstream, policyHash);
      Ok(RequestFor("result-approval-request-v1", DecisionName(scan.decision), scope,
                    Fingerprint("result-approval-scope-v1", scope), Strings(scan.rules), timeout,
                    scan.outcome == Review))
  }

  // ----- what a scope binds -----------------------------------------------------------------------

  lemma FieldsAgree(a: Object, b: Object, key: string)
    requires Obj(a) == Obj(b)
    ensures a == b && (key in a ==> key in b && a[key] == b[key])
  {
  }

  /** The same parameters; a message without a parameter object has none. */
  predicate SameParams(m1: Object, m2: Object) {
    if Get(m1, "params").Obj? then
      if Get(m2, "params").Obj? then Get(m1, "params").fields == Get(m2, "params").fields else Get(m1, "params").fields == map[]
    else Get(m2, "params").Obj? ==> Get(m2, "params").fields == map[]
  }

  lemma SameParamsIff(m1: Object, m2: Object)
    ensures ParamsOf(m1) == ParamsOf(m2) <==> SameParams(m1, m2)
  {
  }

  predicate IsCapability(k: string) {
    k == "file" || k == "network" || k == "shell" || k == "unclassified"
  }

  lemma SortedHolds(capabilities: seq<string>, k: string)
    ensures k in SortedCapabilities(capabilities) <==> IsCapability(k) && k in capabilities
  {
    FilterMember(CAPABILITY_NAMES, Among(capabilities), k);
  }

  lemma {:induction false} StringsBind(a: seq<string>, b: seq<string>)
    requires Strings(a) == Strings(b)
    ensures a == b
  {
    assert |Strings(a).items| == |a| && |Strings(b).items| == |b|;
    forall i | 0 <= i < |a|
      ensures a[i] == b[i]
    {
      assert Strings(a).items[i] == Str(a[i]) && Strings(b).items[i] == Str(b[i]);
    }
  }

  /** Equal pre-flight scopes: same upstream, policy, tool, capabilities and complete params. */
  lemma CallScopeBinds(m1: Object, c1: ToolCall, k1: seq<string>, u1: Json, p1: Json,
                       m2: Object, c2: ToolCall, k2: seq<string>, u2: Json, p2: Json)
    requires Fingerprint("approval-scope-v1", CallScope(m1, c1, k1, u1, p1))
             == Fingerprint("approval-scope-v1", CallScope(m2, c2, k2, u2, p2))
    ensures u1 == u2 && p1 == p2 && c1.name == c2.name && SameParams(m1, m2)
    ensures forall k :: IsCapability(k) ==> (k in k1 <==> k in k2)
  {
    var a, b := CallScope(m1, c1, k1, u1, p1), CallScope(m2, c2, k2, u2, p2);
    FingerprintInjective("approval-scope-v1", a, "approval-scope-v1", b);
    FieldsAgree(a.fields, b.fields, "upstream_fingerprint");
    FieldsAgree(a.fields, b.fields, "policy_hash");
    FieldsAgree(a.fields, b.fields, "tool_fingerprint");
    FieldsAgree(a.fields, b.fields, "semantic_request_fingerprint");
    FingerprintInjective("approval-tool-v1", Str(c1.name), "approval-tool-v1", Str(c2.name));
    SemanticBinds(m1, m2);
    ScopeHoldsCapabilities(m1, c1, k1, u1, p1, m2, c2, k2, u2, p2);
  }

  lemma CapabilitiesBind(k1: seq<string>, k2: seq<string>)
    requires Strings(SortedCapabilities(k1)) == Strings(SortedCapabilities(k2))
    ensures forall k :: IsCapability(k) ==> (k in k1 <==> k in k2)
  {
    StringsBind(SortedCapabilities(k1), SortedCapabilities(k2));
    forall k | IsCapability(k)
      ensures k in k1 <==> k in k2
    {
      SortedHolds(k1, k);
      SortedHolds(k2, k);
    }
  }

  lemma ScopeHoldsCapabilities(m1: Object, c1: ToolCall, k1: seq<string>, u1: Json, p1: Json,
                               m2: Object, c2: ToolCall, k2: seq<string>, u2: Json, p2: Json)
    requires CallScope(m1, c1, k1, u1, p1) == CallScope(m2, c2, k2, u2, p2)
    ensures forall k :: IsCapability(k) ==> (k in k1 <==> k in k2)
  {
    FieldsAgree(CallScope(m1, c1, k1, u1, p1).fields, CallScope(m2, c2, k2, u2, p2).fields, "capabilities");
    CapabilitiesBind(k1, k2);
  }

  lemma SemanticBinds(m1: Object, m2: Object)
    requires Fingerprint("approval-semantic-request-v1", SemanticRequest(m1))
             == Fingerprint("approval-semantic-request-v1", SemanticRequest(m2))
    ensures SameParams(m1, m2)
  {
    SameParamsIff(m1, m2);
    FingerprintInjective("approval-semantic-request-v1", SemanticRequest(m1), "approval-semantic-request-v1", SemanticRequest(m2));
    FieldsAgree(SemanticRequest(m1).fields, SemanticRequest(m2).fields, "params");
  }

  /** Equal post-flight scopes: besides all that, the same response and the same receipt. */
  lemma ResultScopeBinds(m1: Object, s1: ScanReport, u1: Json, p1: Json, m2: Object, s2: ScanReport, u2: Json, p2: Json)
    requires Fingerprint("result-approval-scope-v1", ResultScope(m1, s1, u1, p1))
             == Fingerprint("result-approval-scope-v1", ResultScope(m2, s2, u2, p2))
    ensures u1 == u2 && p1 == p2 && s1.toolFingerprint == s2.toolFingerprint && SameParams(m1, m2)
    ensures s1.resultFingerprint == s2.resultFingerprint && s1.receiptFingerprint == s2.receiptFingerprint
  {
    var a, b := ResultScope(m1, s1, u1, p1), ResultScope(m2, s2, u2, p2);
    FingerprintInjective("result-approval-scope-v1", a, "result-approval-scope-v1", b);
    FieldsAgree(a.fields, b.fields, "upstream_fingerprint");
    FieldsAgree(a.fields, b.fields, "policy_hash");
    FieldsAgree(a.fields, b.fields, "tool_fingerprint");
    FieldsAgree(a.fields, b.fields, "semantic_request_fingerprint");
    FieldsAgree(a.fields, b.fields, "result_fingerprint");
    FieldsAgree(a.fields, b.fields, "result_receipt_fingerprint");
    SemanticBinds(m1, m2);
  }

  /** A pre-flight scope is never a post-flight scope. */
  lemma ScopesAreSeparate(call: Json, result: Json)
    ensures Fingerprint("approval-scope-v1", call) != Fingerprint("result-approval-scope-v1", result)
  {
    assert "approval-scope-v1"[0] != "result-approval-scope-v1"[0];
    if Fingerprint("approval-scope-v1", call) == Fingerprint("result-approval-scope-v1", result) {
      FingerprintInjective("approval-scope-v1", call, "result-approval-scope-v1", result);
    }
  }

  // ----- which requests are made ------------------------------------------------------------------------------

  /** What every request needs: a timeout in its bounds and fingerprints of where it comes from. */
  predicate Provenance(timeout: real, upstream: Json, policyHash: Json) {
    0.05 <= timeout && timeout <= 300.0 && upstream.Digest? && policyHash.Digest?
  }

  /** What the operator reads in a request. */
  predicate Shows(request: Request, decision: string, rules: seq<string>, timeout: real, grantAllowed: bool) {
    && request.document.Obj? && request.grantAllowed == grantAllowed
    && Get(request.document.fields, "kind") == Str("approval_request")
    && Get(request.document.fields, "decision") == Str(decision)
    && Get(request.document.fields, "rules") == Strings(rules)
    && Get(request.document.fields, "timeout_seconds") == Real(timeout)
    && Get(request.document.fields, "grant_allowed") == Bool(grantAllowed)
    && Get(request.document.fields, "scope_fingerprint") == request.scopeFingerprint && request.requestFingerprint.Digest?
  }

  function RuleNames(reasons: seq<Reason>): seq<string> {
    seq(|reasons|, i requires 0 <= i < |reasons| => reasons[i].rule)
  }

  lemma RequestShows(contract: string, decision: string, scope: Json, scopeFingerprint: Json, rules: seq<string>, timeout: real, grantAllowed: bool)
    ensures Shows(RequestFor(contract, decision, scope, scopeFingerprint, Strings(rules), timeout, grantAllowed),
                  decision, rules, timeout, grantAllowed)
  {
  }

  predicate Unapprovable(reasons: seq<Reason>) {
    exists i :: 0 <= i < |reasons| && reasons[i].rule == "gateway.tasks.unsupported"
  }

  lemma UnapprovableIff(reasons: seq<Reason>)
    ensures NonApprovable(reasons) <==> Unapprovable(reasons)
  {
    if NonApprovable(reasons) {
      var r :| r in reasons && r.rule == TASKS_UNSUPPORTED;
      var i :| 0 <= i < |reasons| && reasons[i] == r;
    }
  }

  /** The parameters of the message can be encoded with the method. */
  predicate ParamsEncodable(encodable: Json -> bool, message: Object) {
    encodable(Obj(map["method" := Str("tools/call"),
                      "params" := if Get(message, "params").Obj? then Get(message, "params") else Obj(map[])]))
  }

  // A warned call can be asked about if and only if no reason says that tasks are unsupported, its provenance is
  // in order, and its parameters and tool name can be encoded; what is shown is the warning with its rules.
  lemma CallRequestIff(encodable: Json -> bool, message: Object, result: GatewayResult, upstream: Json, policyHash: Json, timeout: real)
    ensures var r := BuildApprovalRequest(encodable, message, result, upstream, policyHash, timeout);
            && (r.Ok? <==>
                  && result.evaluation.decision == Warn && !Unapprovable(result.evaluation.reasons)
                  && Provenance(timeout, upstream, policyHash)
                  && ParamsEncodable(encodable, message) && encodable(Str(result.call.name)))
            && (r.Ok? ==> Shows(r.value, "warn", RuleNames(result.evaluation.reasons), timeout, true))
  {
    var reasons := result.evaluation.reasons;
    UnapprovableIff(reasons);
    assert Strings(RuleNames(reasons)) == RulesOf(reasons);
    var scope := CallScope(message, result.call, result.capabilities, upstream, policyHash);
    RequestShows("approval-request-v1", "warn", scope, Fingerprint("approval-scope-v1", scope), RuleNames(reasons), timeout, true);
  }

  // The release of a response can be asked for if and only if it is not clean, its provenance and its own
  // fingerprints are in order, and the parameters can be encoded; only a review can be granted.
  lemma ReleaseRequestIff(encodable: Json -> bool, message: Object, scan: ScanReport, upstream: Json, policyHash: Json, timeout: real)
    ensures var r := BuildResultApprovalRequest(encodable, message, scan, upstream, policyHash, timeout);
            && (r.Ok? <==>
                  && scan.outcome != Clean && Provenance(timeout, upstream, policyHash)
                  && scan.resultFingerprint.Digest? && scan.toolFingerprint.Digest? && scan.receiptFingerprint.Digest?
                  && ParamsEncodable(encodable, message))
            && (r.Ok? ==> Shows(r.value, DecisionName(scan.decision), scan.rules, timeout, scan.outcome == Review))
  {
    var scope := ResultScope(message, scan, upstream, policyHash);
    RequestShows("result-approval-request-v1", DecisionName(scan.decision), scope, Fingerprint("result-approval-scope-v1", scope),
                 scan.rules, timeout, scan.outcome == Review);
  }

  // ----- the operator's line ------------------------------------------------------------------------

  /** str.split(): maximal runs of non-blank characters. */
  function Words(s: string): seq<string>
    decreases |s|
  {
    if s == "" then []
    else if IsSpace(s[0]) then Words(s[1..])
    else
      var n := WordLength(s);
      [s[..n]] + Words(s[n..])
  }

  function WordLength(s: string): (n: nat)
    ensures n <= |s| && (s != "" && !IsSpace(s[0]) ==> n > 0)
  {
    if s == "" || IsSpace(s[0]) then 0 else 1 + WordLength(s[1..])
  }

  predicate IsDigit(c: char) {
    '0' <= c <= '9'
  }

  /** Decimal digits with single underscores between them. */
  predicate DigitText(s: string) {
    && s != "" && IsDigit(s[0]) && IsDigit(s[|s| - 1])
    && (forall i :: 0 <= i < |s| ==> IsDigit(s[i]) || s[i] == '_')
    && (forall i :: 0 < i < |s| ==> IsDigit(s[i]) || IsDigit(s[i - 1]))
  }

  function DigitValue(s: string): int {
    if s == "" then 0
    else if s[|s| - 1] == '_' then DigitValue(s[..|s| - 1])
    else 10 * DigitValue(s[..|s| - 1]) + (s[|s| - 1] as int - '0' as int)
  }

  /** int() of a word. */
  function PyInt(s: string): Option<int> {
    if s != "" && (s[0] == '-' || s[0] == '+') then
      if DigitText(s[1..]) then Some(if s[0] == '-' then -DigitValue(s[1..]) else DigitValue(s[1..])) else None
    else if DigitText(s) then Some(DigitValue(s)) else None
  }

  /** The strict approval response document that a terminal line stands for. */
  function ResponseFromLine(line: string, requestFingerprint: Json): Object {
    var parts := Words(line);
    var numbers := |parts| == 3 && parts[0] == "grant" && PyInt(parts[1]).Some? && PyInt(parts[2]).Some?;
    map[
      "schema_version" := Int(1), "kind" := Str("approval_response"), "request_fingerprint" := requestFingerprint,
      "decision" := Str(if parts == ["approve"] || numbers then "approve" else "deny"),
      "grant" := if numbers
                 then Obj(map["ttl_seconds" := Int(PyInt(parts[1]).value), "max_uses" := Int(PyInt(parts[2]).value)])
                 else Null]
  }

  datatype Parsed = Parsed(approved: bool, ttl: int, uses: int)

  predicate GoodGrant(grant: Json) {
    && grant.Obj? && grant.fields.Keys == {"ttl_seconds", "max_uses"}
    && grant.fields["ttl_seconds"].Int? && 1 <= grant.fields["ttl_seconds"].n <= MAX_GRANT_TTL_SECONDS
    && grant.fields["max_uses"].Int? && 1 <= grant.fields["max_uses"].n <= MAX_GRANT_USES
  }

  function ParseApprovalResponse(data: Object, expected: Json): Result<Parsed, InputError> {
    if data.Keys != {"schema_version", "kind", "request_fingerprint", "decision", "grant"} then Err(InputError)
    else if !PyEqual(data["schema_version"], Int(1)) || data["kind"] != Str("approval_response") then Err(InputError)
    else if data["request_fingerprint"] != expected || !expected.Digest? then Err(InputError)
    else if data["decision"] != Str("approve") && data["decision"] != Str("deny") then Err(InputError)
    else if data["grant"] != Null && !GoodGrant(data["grant"]) then Err(InputError)
    else if data["decision"] == Str("deny") && data["grant"] != Null then Err(InputError)
    else if data["grant"] == Null then Ok(Parsed(data["decision"] == Str("approve"), 0, 0))
    else Ok(Parsed(true, data["grant"].fields["ttl_seconds"].n, data["grant"].fields["max_uses"].n))
  }

  function StripLowerLine(line: string): string {
    if |line| > MAX_APPROVAL_LINE_CHARS then "" else Matching.Lower(line)
  }

  /** What the provider makes of one line for one pending request. */
  function ReadLine(line: string, requestFingerprint: Json): Result<Parsed, InputError> {
    ParseApprovalResponse(ResponseFromLine(StripLowerLine(line), requestFingerprint), requestFingerprint)
  }

  /**
   * Only `approve` and `grant <ttl> <uses>` within the bounds approve anything; every other line,
   * also an overlong one, denies or is invalid, and a grant always stays within 300 s and 20 uses.
   */
  lemma OnlyExactLinesApprove(line: string, requestFingerprint: Json)
    requires requestFingerprint.Digest?
    ensures var r, parts := ReadLine(line, requestFingerprint), Words(StripLowerLine(line));
            && (r.Ok? && r.value.approved && r.value.uses == 0 <==> parts == ["approve"])
            && (r.Ok? && r.value.approved && r.value.uses != 0 <==>
                  |parts| == 3 && parts[0] == "grant" && PyInt(parts[1]).Some? && PyInt(parts[2]).Some?
                  && 1 <= PyInt(parts[1]).value <= MAX_GRANT_TTL_SECONDS && 1 <= PyInt(parts[2]).value <= MAX_GRANT_USES)
            && (r.Ok? && r.value.uses != 0 ==> r.value == Parsed(true, PyInt(parts[1]).value, PyInt(parts[2]).value))
            && (r.Ok? && !r.value.approved ==> r.value.uses == 0)
  {
    var parts := Words(StripLowerLine(line));
    var data := ResponseFromLine(StripLowerLine(line), requestFingerprint);
    assert data.Keys == {"schema_version", "kind", "request_fingerprint", "decision", "grant"};
    if |parts| == 3 && parts[0] == "grant" && PyInt(parts[1]).Some? && PyInt(parts[2]).Some? {
      var grant := data["grant"];
      assert grant.fields.Keys == {"ttl_seconds", "max_uses"};
      assert grant.fields["ttl_seconds"] == Int(PyInt(parts[1]).value);
      assert grant.fields["max_uses"] == Int(PyInt(parts[2]).value);
    }
  }
}
