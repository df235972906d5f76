/**
 * Post-flight scanning (result_scanner.py, runtime_response.py) and the receipt that binds its
 * decision (receipts.py).
 */
module Response {
  import opened Basics
  import opened Json
  import opened Models
  import opened Matching
  import opened Evaluator
  import opened Approval

  const MAX_CONTENT_CHARS := 512 * 1024
  const MAX_LINE_CHARS := 16 * 1024
  const MAX_FIELDS := 128
  const MAX_FIELD_NAME_CHARS := 128
  const MAX_FIELD_VALUE_CHARS := 64 * 1024
  const MAX_EXPECTED_DOMAINS := 64
  const MAX_TEXT_CHARS := 256

  const PROMPT_MARKERS: seq<string> := [
    "developer message", "follow these instructions", "ignore previous instructions",
    "reveal the system prompt", "system message"]
  const EXFILTRATION_MARKERS: seq<string> := ["exfiltrate", "post the data", "send this to", "upload this"]

  /**
   * Regular expressions, URL parsing and JSON text: what the scanner takes from its libraries. `hosts`
   * gives the host of every URL in a text, or nothing when urlparse raises on one of them; `text` is the
   * indented JSON of a value, or nothing when json.dumps raises; `encodable` says which values can be
   * written as canonical UTF-8 JSON.
   */
  datatype Scanner = Scanner(
    inClass: ClassSemantics, secret: string -> bool, hosts: string -> Option<seq<string>>, piiName: string -> bool,
    goodDomain: string -> bool, text: Json -> Option<string>, encodable: Json -> bool)

  datatype Field = Field(name: string, value: string)

  /** A tool result; the fields are listed by name. */
  datatype ToolResult = ToolResult(
    requestId: Json, resultId: Json, tool: string, sourceTrust: string, content: string,
    fields: seq<Field>, expected: seq<string>)

  // ----- findings ---------------------------------------------------------------------------------

  datatype Rule = Exfiltration | ExternalUrl | PiiFieldName | PromptInjection | SecretLike

  datatype Place = Content | FieldName(field: nat) | FieldValue(field: nat)

  datatype Location = At(place: Place) | UrlIn(place: Place, index: nat)

  /** The rule fixes the effect, so a finding is its (rule, location) key. */
  datatype Finding = Finding(rule: Rule, location: Location)

  datatype Value = Value(place: Place, text: string)

  predicate Denies(r: Rule) {
    r.Exfiltration? || r.PromptInjection? || r.SecretLike?
  }

  predicate HasMarker(value: string, markers: seq<string>) {
    exists m :: m in markers && Contains(Lower(value), m)
  }

  predicate ExpectedHost(sc: Scanner, host: string, expected: seq<string>) {
    Lower(host) != "" && exists p :: p in expected && DomainMatches(sc.inClass, Lower(host), p)
  }

  function PiiFindings(sc: Scanner, fields: seq<Field>): seq<Finding> {
    if fields == [] then []
    else
      var i := |fields| - 1;
      PiiFindings(sc, fields[..i]) + if sc.piiName(fields[i].name) then [Finding(PiiFieldName, At(FieldName(i)))] else []
  }

  function ValuesOf(content: string, fields: seq<Field>): seq<Value> {
    [Value(Content, content)]
    + seq(|fields|, i requires 0 <= i < |fields| => Value(FieldValue(i), fields[i].value))
  }

  function TextFindings(sc: Scanner, v: Value): seq<Finding> {
    (if HasMarker(v.text, PROMPT_MARKERS) then [Finding(PromptInjection, At(v.place))] else [])
    + (if HasMarker(v.text, EXFILTRATION_MARKERS) then [Finding(Exfiltration, At(v.place))] else [])
    + (if sc.secret(v.text) then [Finding(SecretLike, At(v.place))] else [])
  }

  function UrlFindings(sc: Scanner, hosts: seq<string>, expected: seq<string>, place: Place): seq<Finding> {
    if hosts == [] then []
    else
      var i := |hosts| - 1;
      UrlFindings(sc, hosts[..i], expected, place)
      + if ExpectedHost(sc, hosts[i], expected) then [] else [Finding(ExternalUrl, UrlIn(place, i))]
  }

  function HostsIn(sc: Scanner, text: string): seq<string> {
    if sc.hosts(text).Some? then sc.hosts(text).value else []
  }

  /** urlparse takes every URL of every value. */
  predicate UrlsAreReadable(sc: Scanner, values: seq<Value>) {
    forall i :: 0 <= i < |values| ==> sc.hosts(values[i].text).Some?
  }

  function OneValue(sc: Scanner, v: Value, expected: seq<string>): seq<Finding> {
    TextFindings(sc, v) + UrlFindings(sc, HostsIn(sc, v.text), expected, v.place)
  }

  function ValueFindings(sc: Scanner, values: seq<Value>, expected: seq<string>): seq<Finding> {
    if values == [] then []
    else
      ValueFindings(sc, values[..|values| - 1], expected) + OneValue(sc, values[|values| - 1], expected)
  }

  function FindingsOf(sc: Scanner, data: ToolResult): seq<Finding> {
    PiiFindings(sc, data.fields) + ValueFindings(sc, ValuesOf(data.content, data.fields), data.expected)
  }

  // ----- the collecting loops -------------------------------------------------------------------------

  lemma PiiPlaces(sc: Scanner, fields: seq<Field>)
    ensures forall f :: f in PiiFindings(sc, fields) ==>
      f.rule == PiiFieldName && f.location.place.FieldName? && f.location.place.field < |fields|
  {
  }

  lemma UrlPlaces(sc: Scanner, hosts: seq<string>, expected: seq<string>, place: Place)
    ensures forall f :: f in UrlFindings(sc, hosts, expected, place) ==>
      f.rule == ExternalUrl && f.location.UrlIn? && f.location.place == place && f.location.index < |hosts|
  {
  }

  predicate PlacedIn(f: Finding, values: seq<Value>) {
    exists k :: 0 <= k < |values| && f.location.place == values[k].place
  }

  lemma OneValuePlaces(sc: Scanner, v: Value, expected: seq<string>)
    ensures forall f :: f in OneValue(sc, v, expected) ==> f.rule != PiiFieldName && f.location.place == v.place
  {
    UrlPlaces(sc, HostsIn(sc, v.text), expected, v.place);
  }

  lemma {:induction false} ValuePlaces(sc: Scanner, values: seq<Value>, expected: seq<string>)
    ensures forall f :: f in ValueFindings(sc, values, expected) ==> f.rule != PiiFieldName && PlacedIn(f, values)
  {
    if values != [] {
      var n := |values| - 1;
      ValuePlaces(sc, values[..n], expected);
      OneValuePlaces(sc, values[n], expected);
      forall f | f in ValueFindings(sc, values, expected)
        ensures f.rule != PiiFieldName && PlacedIn(f, values)
      {
        if f in ValueFindings(sc, values[..n], expected) {
          var k :| 0 <= k < n && f.location.place == values[..n][k].place;
          assert values[k].place == f.location.place;
        }
      }
    }
  }

  method CollectPii(sc: Scanner, fields: seq<Field>) returns (findings: seq<Finding>)
    ensures findings == PiiFindings(sc, fields)
  {
    findings := [];
    for i := 0 to |fields|
      invariant findings == PiiFindings(sc, fields[..i])
    {
      PiiPlaces(sc, fields[..i]);
      assert fields[..i + 1][..i] == fields[..i];
      if sc.piiName(fields[i].name) {
        findings := AppendNew(findings, Finding(PiiFieldName, At(FieldName(i))));
      }
    }
    assert fields[..|fields|] == fields;
  }

  method CollectUrls(sc: Scanner, hosts: seq<string>, expected: seq<string>, place: Place, before: seq<Finding>)
    returns (findings: seq<Finding>)
    requires forall f :: f in before ==> f.location == At(place) || f.location.place != place
    ensures findings == before + UrlFindings(sc, hosts, expected, place)
  {
    findings := before;
    for i := 0 to |hosts|
      invariant findings == before + UrlFindings(sc, hosts[..i], expected, place)
    {
      UrlPlaces(sc, hosts[..i], expected, place);
      assert hosts[..i + 1][..i] == hosts[..i];
      if !ExpectedHost(sc, hosts[i], expected) {
        findings := AppendNew(findings, Finding(ExternalUrl, UrlIn(place, i)));
      }
    }
    assert hosts[..|hosts|] == hosts;
  }

  method CollectTexts(sc: Scanner, v: Value, before: seq<Finding>) returns (findings: seq<Finding>)
    requires forall f :: f in before ==> f.location.place != v.place
    ensures findings == before + TextFindings(sc, v)
  {
    findings := before;
    if HasMarker(v.text, PROMPT_MARKERS) {
      findings := AppendNew(findings, Finding(PromptInjection, At(v.place)));
    }
    if HasMarker(v.text, EXFILTRATION_MARKERS) {
      findings := AppendNew(findings, Finding(Exfiltration, At(v.place)));
    }
    if sc.secret(v.text) {
      findings := AppendNew(findings, Finding(SecretLike, At(v.place)));
    }
  }

  method CollectValue(sc: Scanner, v: Value, expected: seq<string>, before: seq<Finding>)
    returns (r: Option<seq<Finding>>)
    requires Elsewhere(before, v.place)
    ensures r == if sc.hosts(v.text).Some? then Some(before + OneValue(sc, v, expected)) else None
  {
    var texts := CollectTexts(sc, v, before);
    if sc.hosts(v.text).None? {
      return None;
    }
    var findings := CollectUrls(sc, sc.hosts(v.text).value, expected, v.place, texts);
    Regroup(before, TextFindings(sc, v), UrlFindings(sc, HostsIn(sc, v.text), expected, v.place));
    r := Some(findings);
  }

  predicate DistinctPlaces(values: seq<Value>) {
    forall j, k :: 0 <= j < k < |values| ==> values[j].place != values[k].place
  }

  predicate Elsewhere(findings: seq<Finding>, place: Place) {
    forall f :: f in findings ==> f.location.place != place
  }

  lemma NewPlace(sc: Scanner, expected: seq<string>, before: seq<Finding>, findings: seq<Finding>, values: seq<Value>, i: nat)
    requires i < |values| && DistinctPlaces(values) && Elsewhere(before, values[i].place)
    requires findings == before + ValueFindings(sc, values[..i], expected)
    ensures Elsewhere(findings, values[i].place)
  {
    ValuePlaces(sc, values[..i], expected);
    forall f | f in ValueFindings(sc, values[..i], expected)
      ensures f.location.place != values[i].place
    {
      var k :| 0 <= k < i && f.location.place == values[..i][k].place;
      assert values[k].place != values[i].place;
    }
  }

  lemma ValueStep(sc: Scanner, values: seq<Value>, i: nat, expected: seq<string>)
    requires i < |values|
    ensures ValueFindings(sc, values[..i + 1], expected)
            == ValueFindings(sc, values[..i], expected) + OneValue(sc, values[i], expected)
  {
    assert values[..i + 1][..i] == values[..i];
  }

  method CollectValues(sc: Scanner, values: seq<Value>, expected: seq<string>, before: seq<Finding>)
    returns (r: Option<seq<Finding>>)
    requires DistinctPlaces(values)
    requires forall i :: 0 <= i < |values| ==> Elsewhere(before, values[i].place)
    ensures r == if UrlsAreReadable(sc, values) then Some(before + ValueFindings(sc, values, expected)) else None
  {
    var findings := before;
    ghost var found: seq<Finding> := [];
    for i := 0 to |values|
      invariant found == ValueFindings(sc, values[..i], expected) && findings == before + found
      invariant forall k :: 0 <= k < i ==> sc.hosts(values[k].text).Some?
    {
      NewPlace(sc, expected, before, findings, values, i);
      ValueStep(sc, values, i, expected);
      Regroup(before, found, OneValue(sc, values[i], expected));
      var next := CollectValue(sc, values[i], expected, findings);
      if next.None? {
        return None;
      }
      findings := next.value;
      found := found + OneValue(sc, values[i], expected);
    }
    assert values[..|values|] == values;
    r := Some(findings);
  }

  /**
   * The scanner's loops; remembering `(rule, location)` keys never suppresses a finding. A URL that
   * urlparse refuses ends them by its exception.
   */
  method CollectFindings(sc: Scanner, data: ToolResult) returns (r: Option<seq<Finding>>)
    ensures r == if UrlsAreReadable(sc, ValuesOf(data.content, data.fields)) then Some(FindingsOf(sc, data)) else None
  {
    var pii := CollectPii(sc, data.fields);
    PiiPlaces(sc, data.fields);
    r := CollectValues(sc, ValuesOf(data.content, data.fields), data.expected, pii);
  }

  // ----- the report -----------------------------------------------------------------------------------

  /** No line of `s` is longer than `limit`. */
  predicate ShortLines(s: string, limit: nat) {
    forall i :: 0 <= i < |s| - limit ==> BreaksWithin(s, i, limit)
  }

  predicate BreaksWithin(s: string, i: int, limit: nat)
    requires 0 <= i < |s| - limit
  {
    exists k :: i <= k <= i + limit && LineBreak(s[k])
  }

  predicate RequiredText(s: string) {
    !Blank(s) && |s| <= MAX_TEXT_CHARS
  }

  predicate GoodField(f: Field) {
    && 0 < |f.name| <= MAX_FIELD_NAME_CHARS
    && |f.value| <= MAX_FIELD_VALUE_CHARS && ShortLines(f.value, MAX_LINE_CHARS)
  }

  /** A fingerprint, or a non-blank bounded text. */
  predicate RequiredId(id: Json) {
    id.Digest? || (id.Str? && RequiredText(id.s))
  }

  predicate ValidToolResult(sc: Scanner, data: ToolResult) {
    && RequiredId(data.requestId) && RequiredId(data.resultId) && RequiredText(data.tool)
    && data.sourceTrust in {"trusted-local", "unknown", "untrusted"}
    && |data.content| <= MAX_CONTENT_CHARS && ShortLines(data.content, MAX_LINE_CHARS)
    && |data.fields| <= MAX_FIELDS && (forall f :: f in data.fields ==> GoodField(f))
    && |data.expected| <= MAX_EXPECTED_DOMAINS && (forall d :: d in data.expected ==> sc.goodDomain(d))
  }

  function OutcomeFor(findings: seq<Finding>): PostFlight {
    if exists f :: f in findings && Denies(f.rule) then BlockNextStep
    else if findings != [] then Review
    else Clean
  }

  function DecisionOf(outcome: PostFlight): Decision {
    match outcome
    case Clean => Allow
    case Review => Warn
    case BlockNextStep => Deny
  }

  function RuleId(r: Rule): string {
    match r
    case Exfiltration => "tool-result.exfiltration-direction"
    case ExternalUrl => "tool-result.external-url"
    case PiiFieldName => "tool-result.pii-field-name"
    case PromptInjection => "tool-result.prompt-injection"
    case SecretLike => "tool-result.secret-like-content"
  }

  const ALL_RULES: seq<Rule> := [Exfiltration, ExternalUrl, PiiFieldName, PromptInjection, SecretLike]

  function OccursIn(findings: seq<Finding>): Rule -> bool {
    (r: Rule) => exists f :: f in findings && f.rule == r
  }

  /** The rule identifiers that occur, sorted. */
  function RulesIn(findings: seq<Finding>): seq<string> {
    var rules := Filter(ALL_RULES, OccursIn(findings));
    seq(|rules|, i requires 0 <= i < |rules| => RuleId(rules[i]))
  }

  /** decision_receipt without its fingerprint; evaluator and built-in policy are constants. */
  function ReceiptCore(decision: Decision, rules: seq<string>, projection: Json): Json {
    Obj(map[
      "schema_version" := Int(1), "kind" := Str("decision_receipt"),
      "evaluator" := Str("policylatch"), "policy" := Str("builtin:tool-result-v1"),
      "request" := Digest(projection), "decision" := Str(DecisionName(decision)),
      "rules" := Strings(rules), "execution" := Obj(map["claimed" := Bool(false)]), "extensions" := Obj(map[])])
  }

  function Projection(data: ToolResult): Json {
    Obj(map[
      "contract" := Str("tool-result-v1"), "source_trust" := Str(data.sourceTrust),
      "content_present" := Bool(data.content != ""), "field_count" := Int(|data.fields|),
      "expected_domain_count" := Int(|data.expected|)])
  }

  function ReportFor(data: ToolResult, findings: seq<Finding>): ScanReport {
    var outcome := OutcomeFor(findings);
    ScanReport(outcome, DecisionOf(outcome), FieldFingerprint("result_id", data.resultId),
               FieldFingerprint("tool", Str(data.tool)),
               Digest(ReceiptCore(DecisionOf(outcome), RulesIn(findings), Projection(data))), RulesIn(findings))
  }

  function ToolResultScanned(sc: Scanner, data: ToolResult): Result<ScanReport, ScanFailure> {
    if !ValidToolResult(sc, data) then Err(Unfit)
    else if !UrlsAreReadable(sc, ValuesOf(data.content, data.fields)) then Err(UnreadableUrl)
    else Ok(ReportFor(data, FindingsOf(sc, data)))
  }

  method ScanToolResult(sc: Scanner, data: ToolResult) returns (r: Result<ScanReport, ScanFailure>)
    ensures r == ToolResultScanned(sc, data)
  {
    if !ValidToolResult(sc, data) {
      return Err(Unfit);
    }
    var findings := CollectFindings(sc, data);
    r := if findings.None? then Err(UnreadableUrl) else Ok(ReportFor(data, findings.value));
  }

  // ----- runtime responses ----------------------------------------------------------------------------

  predicate ExactlyOneAnswer(response: Object) {
    ("result" in response) != ("error" in response)
  }

  function Envelope(response: Object): Json
    requires ExactlyOneAnswer(response)
  {
    if "result" in response then Obj(map["result" := response["result"]]) else Obj(map["error" := response["error"]])
  }

  predicate Scannable(sc: Scanner, request: Object, response: Object) {
    && Get(request, "params").Obj? && Get(Get(request, "params").fields, "name").Str?
    && ExactlyOneAnswer(response)
    && sc.text(Envelope(response)).Some? && sc.encodable(Obj(request)) && sc.encodable(Obj(response))
  }

  function ResponseResult(sc: Scanner, request: Object, response: Object): ToolResult
    requires Scannable(sc, request, response)
  {
    ToolResult(
      Fingerprint("runtime-request-v1", Obj(request)), Fingerprint("runtime-response-v1", Obj(response)),
      Get(Get(request, "params").fields, "name").s, "untrusted", sc.text(Envelope(response)).value, [], [])
  }

  function ResponseScanned(sc: Scanner, request: Object, response: Object): Result<ScanReport, ScanFailure> {
    if !Scannable(sc, request, response) then Err(Unfit)
    else ToolResultScanned(sc, ResponseResult(sc, request, response))
  }

  // ----- what the report means ----------------------------------------------------------------------

  predicate Suspicious(sc: Scanner, text: string) {
    HasMarker(text, PROMPT_MARKERS) || HasMarker(text, EXFILTRATION_MARKERS) || sc.secret(text)
  }

  predicate HasUnexpectedUrl(sc: Scanner, text: string, expected: seq<string>) {
    exists i :: 0 <= i < |HostsIn(sc, text)| && !ExpectedHost(sc, HostsIn(sc, text)[i], expected)
  }

  lemma {:induction false} UrlFindingsExist(sc: Scanner, hosts: seq<string>, expected: seq<string>, place: Place)
    ensures UrlFindings(sc, hosts, expected, place) != []
            <==> exists i :: 0 <= i < |hosts| && !ExpectedHost(sc, hosts[i], expected)
  {
    if hosts != [] {
      var n := |hosts| - 1;
      UrlFindingsExist(sc, hosts[..n], expected, place);
      if UrlFindings(sc, hosts[..n], expected, place) != [] {
        var i :| 0 <= i < n && !ExpectedHost(sc, hosts[..n][i], expected);
        assert !ExpectedHost(sc, hosts[i], expected);
      }
      assert forall i :: 0 <= i < n ==> hosts[..n][i] == hosts[i];
    }
  }

  /** A response with a URL that urlparse refuses is neither reported on nor refused. */
  lemma UnreadableUrlIff(sc: Scanner, request: Object, response: Object)
    ensures ResponseScanned(sc, request, response) == Err(UnreadableUrl)
            <==> Scannable(sc, request, response) && ValidToolResult(sc, ResponseResult(sc, request, response))
                 && sc.hosts(sc.text(Envelope(response)).value).None?
  {
    if Scannable(sc, request, response) {
      var data := ResponseResult(sc, request, response);
      assert ValuesOf(data.content, []) == [Value(Content, data.content)];
      assert ValuesOf(data.content, [])[0].text == data.content;
    }
  }

  /** The findings of a response: one text, no fields. */
  lemma ResponseFindings(sc: Scanner, data: ToolResult) returns (findings: seq<Finding>)
    requires data.fields == [] && data.expected == []
    ensures findings == FindingsOf(sc, data)
    ensures findings == TextFindings(sc, Value(Content, data.content)) + UrlFindings(sc, HostsIn(sc, data.content), [], Content)
  {
    var v := Value(Content, data.content);
    assert ValuesOf(data.content, []) == [v];
    assert [v][..0] == [];
    assert ValueFindings(sc, [v], []) == [] + OneValue(sc, v, []);
    findings := FindingsOf(sc, data);
  }

  lemma OutcomeOfFindings(sc: Scanner, text: string, findings: seq<Finding>)
    requires findings == TextFindings(sc, Value(Content, text)) + UrlFindings(sc, HostsIn(sc, text), [], Content)
    ensures OutcomeFor(findings)
            == if Suspicious(sc, text) then BlockNextStep
               else if HasUnexpectedUrl(sc, text, []) then Review
               else Clean
  {
    var texts := TextFindings(sc, Value(Content, text));
    UrlFindingsExist(sc, HostsIn(sc, text), [], Content);
    UrlPlaces(sc, HostsIn(sc, text), [], Content);
    if Suspicious(sc, text) {
      assert Denies(texts[0].rule) && texts[0] in findings;
    }
  }

  /** What one response text means: suspicious text blocks, a bare URL asks for review, else clean. */
  lemma ResponseOutcome(sc: Scanner, request: Object, response: Object)
    requires ResponseScanned(sc, request, response).Ok?
    ensures var text := sc.text(Envelope(response)).value;
            ResponseScanned(sc, request, response).value.outcome
            == if Suspicious(sc, text) then BlockNextStep
               else if HasUnexpectedUrl(sc, text, []) then Review
               else Clean
  {
    var data := ResponseResult(sc, request, response);
    var findings := ResponseFindings(sc, data);
    OutcomeOfFindings(sc, data.content, findings);
  }

  /** The receipt core and the fingerprinted response of a scanned response. */
  lemma ReportOf(sc: Scanner, request: Object, response: Object) returns (rules: seq<string>, projection: Json)
    requires ResponseScanned(sc, request, response).Ok?
    ensures var scan := ResponseScanned(sc, request, response).value;
            && scan.decision == DecisionOf(scan.outcome)
            && scan.receiptFingerprint == Digest(ReceiptCore(scan.decision, rules, projection))
            && scan.resultFingerprint == FieldFingerprint("result_id", Fingerprint("runtime-response-v1", Obj(response)))
            && scan.toolFingerprint.Digest?
  {
    var data := ResponseResult(sc, request, response);
    rules, projection := RulesIn(FindingsOf(sc, data)), Projection(data);
  }

  lemma ReceiptFixesDecision(d1: Decision, s1: seq<string>, p1: Json, d2: Decision, s2: seq<string>, p2: Json)
    requires ReceiptCore(d1, s1, p1) == ReceiptCore(d2, s2, p2)
    ensures d1 == d2
  {
    FieldsAgree(ReceiptCore(d1, s1, p1).fields, ReceiptCore(d2, s2, p2).fields, "decision");
  }

  /** The receipt fingerprint fixes the decision and so the outcome. */
  lemma ReceiptFixesOutcome(sc: Scanner, q1: Object, r1: Object, q2: Object, r2: Object)
    requires ResponseScanned(sc, q1, r1).Ok? && ResponseScanned(sc, q2, r2).Ok?
    requires ResponseScanned(sc, q1, r1).value.receiptFingerprint == ResponseScanned(sc, q2, r2).value.receiptFingerprint
    ensures ResponseScanned(sc, q1, r1).value.outcome == ResponseScanned(sc, q2, r2).value.outcome
  {
    var s1, p1 := ReportOf(sc, q1, r1);
    var s2, p2 := ReportOf(sc, q2, r2);
    ReceiptFixesDecision(ResponseScanned(sc, q1, r1).value.decision, s1, p1,
                         ResponseScanned(sc, q2, r2).value.decision, s2, p2);
  }

  /** The result fingerprint fixes the whole response, its id included. */
  lemma ResultFixesResponse(sc: Scanner, q1: Object, r1: Object, q2: Object, r2: Object)
    requires ResponseScanned(sc, q1, r1).Ok? && ResponseScanned(sc, q2, r2).Ok?
    requires ResponseScanned(sc, q1, r1).value.resultFingerprint == ResponseScanned(sc, q2, r2).value.resultFingerprint
    ensures r1 == r2
  {
    var s1, p1 := ReportOf(sc, q1, r1);
    var s2, p2 := ReportOf(sc, q2, r2);
    ResultIdFixesResponse(Obj(r1), Obj(r2));
  }

  lemma ResultIdFixesResponse(r1: Json, r2: Json)
    requires FieldFingerprint("result_id", Fingerprint("runtime-response-v1", r1))
             == FieldFingerprint("result_id", Fingerprint("runtime-response-v1", r2))
    ensures r1 == r2
  {
    FieldsAgree(FieldFingerprint("result_id", Fingerprint("runtime-response-v1", r1)).of.fields,
                FieldFingerprint("result_id", Fingerprint("runtime-response-v1", r2)).of.fields, "result_id");
    FingerprintInjective("runtime-response-v1", r1, "runtime-response-v1", r2);
  }
}
