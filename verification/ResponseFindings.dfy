/**
 * What the tool-result scanner finds, read off the result: every finding with its place, the outcome of
 * results with any number of fields, and what that means for a runtime response.
 */
module ResponseFindings {
  import opened Basics
  import opened Json
  import opened Models
  import opened Matching
  import opened Evaluator
  import opened Approval
  import opened Response
  import Decisions

  // ----- findings -------------------------------------------------------------------------------------------

  /** The texts of a result: its content, and the value of each field. */
  function TextIn(data: ToolResult, place: Place): Option<string> {
    match place
    case Content => Some(data.content)
    case FieldValue(i) => if i < |data.fields| then Some(data.fields[i].value) else None
    case FieldName(_) => None
  }

  predicate MentionsAny(text: string, phrases: seq<string>) {
    exists m :: m in phrases && Contains(Lower(text), m)
  }

  /** A host outside the declared domains; a URL without a host is always outside. */
  predicate Outside(sc: Scanner, host: string, expected: seq<string>) {
    host == "" || forall p :: p in expected ==> !DomainMatches(sc.inClass, Lower(host), p)
  }

  /** What makes a rule apply to one text. */
  predicate Smuggles(sc: Scanner, rule: Rule, text: string) {
    match rule
    case PromptInjection =>
      MentionsAny(text, ["developer message", "follow these instructions", "ignore previous instructions",
                         "reveal the system prompt", "system message"])
    case Exfiltration => MentionsAny(text, ["exfiltrate", "post the data", "send this to", "upload this"])
    case SecretLike => sc.secret(text)
    case _ => false
  }

  /** The `k`-th URL of a text leads outside. */
  predicate LeadsOutside(sc: Scanner, text: string, k: nat, expected: seq<string>) {
    sc.hosts(text).Some? && k < |sc.hosts(text).value| && Outside(sc, sc.hosts(text).value[k], expected)
  }

  predicate IsFinding(sc: Scanner, data: ToolResult, f: Finding) {
    match f
    case Finding(PiiFieldName, At(FieldName(i))) => i < |data.fields| && sc.piiName(data.fields[i].name)
    case Finding(ExternalUrl, UrlIn(place, k)) =>
      TextIn(data, place).Some? && LeadsOutside(sc, TextIn(data, place).value, k, data.expected)
    case Finding(rule, At(place)) => TextIn(data, place).Some? && Smuggles(sc, rule, TextIn(data, place).value)
    case _ => false
  }

  lemma OutsideIff(sc: Scanner, host: string, expected: seq<string>)
    ensures Outside(sc, host, expected) <==> !ExpectedHost(sc, host, expected)
  {
    assert Lower(host) == "" <==> host == "";
  }

  lemma {:induction false} PiiMembers(sc: Scanner, fields: seq<Field>, f: Finding)
    ensures f in PiiFindings(sc, fields)
            <==> f.rule == PiiFieldName && f.location.At? && f.location.place.FieldName?
                 && f.location.place.field < |fields| && sc.piiName(fields[f.location.place.field].name)
  {
    if fields != [] {
      PiiMembers(sc, fields[..|fields| - 1], f);
    }
  }

  lemma {:induction false} UrlMembers(sc: Scanner, hosts: seq<string>, expected: seq<string>, place: Place, f: Finding)
    ensures f in UrlFindings(sc, hosts, expected, place)
            <==> f.rule == ExternalUrl && f.location.UrlIn? && f.location.place == place
                 && f.location.index < |hosts| && Outside(sc, hosts[f.location.index], expected)
  {
    if hosts != [] {
      UrlMembers(sc, hosts[..|hosts| - 1], expected, place, f);
      OutsideIff(sc, hosts[|hosts| - 1], expected);
    }
  }

  lemma MarkersMean(text: string, markers: seq<string>)
    ensures HasMarker(text, markers) <==> MentionsAny(text, markers)
  {
  }

  /** The findings of one value. */
  predicate FoundIn(sc: Scanner, v: Value, expected: seq<string>, f: Finding) {
    f.location.place == v.place
    && match f.location
       case At(_) => Smuggles(sc, f.rule, v.text)
       case UrlIn(_, k) => f.rule == ExternalUrl && LeadsOutside(sc, v.text, k, expected)
  }

  lemma TextMembers(sc: Scanner, v: Value, f: Finding)
    ensures f in TextFindings(sc, v) <==> f.location == At(v.place) && Smuggles(sc, f.rule, v.text)
  {
    MarkersMean(v.text, PROMPT_MARKERS);
    MarkersMean(v.text, EXFILTRATION_MARKERS);
  }

  lemma OneValueMembers(sc: Scanner, v: Value, expected: seq<string>, f: Finding)
    ensures f in OneValue(sc, v, expected) <==> FoundIn(sc, v, expected, f)
  {
    TextMembers(sc, v, f);
    UrlMembers(sc, HostsIn(sc, v.text), expected, v.place, f);
  }

  predicate FoundInSome(sc: Scanner, values: seq<Value>, expected: seq<string>, f: Finding) {
    exists i :: 0 <= i < |values| && FoundIn(sc, values[i], expected, f)
  }

  lemma FoundInSomeStep(sc: Scanner, init: seq<Value>, last: Value, expected: seq<string>, f: Finding)
    ensures FoundInSome(sc, init + [last], expected, f) <==> FoundInSome(sc, init, expected, f) || FoundIn(sc, last, expected, f)
  {
    var values := init + [last];
    if i :| 0 <= i < |init| && FoundIn(sc, init[i], expected, f) {
      assert FoundIn(sc, values[i], expected, f);
    }
    assert values[|init|] == last;
  }

  lemma JoinedMembers(a: seq<Finding>, b: seq<Finding>, all: seq<Finding>, f: Finding)
    requires all == a + b
    ensures f in all <==> f in a || f in b
  {
  }

  lemma {:induction false} ValueMembers(sc: Scanner, values: seq<Value>, expected: seq<string>, f: Finding) returns (all: seq<Finding>)
    ensures all == ValueFindings(sc, values, expected) && (f in all <==> FoundInSome(sc, values, expected, f))
  {
    if values == [] {
      all := [];
    } else {
      var init, last := values[..|values| - 1], values[|values| - 1];
      var before := ValueMembers(sc, init, expected, f);
      all := MoreMembers(sc, values, init, last, expected, f, before);
    }
  }

  lemma MoreMembers(sc: Scanner, values: seq<Value>, init: seq<Value>, last: Value, expected: seq<string>, f: Finding, before: seq<Finding>)
    returns (all: seq<Finding>)
    requires values == init + [last] && before == ValueFindings(sc, init, expected)
    requires f in before <==> FoundInSome(sc, init, expected, f)
    ensures all == ValueFindings(sc, values, expected) && (f in all <==> FoundInSome(sc, values, expected, f))
  {
    OneValueMembers(sc, last, expected, f);
    FoundInSomeStep(sc, init, last, expected, f);
    assert values[..|init|] == init && values[..|init| + 1] == values;
    ValueStep(sc, values, |init|, expected);
    all := before + OneValue(sc, last, expected);
    JoinedMembers(before, OneValue(sc, last, expected), all, f);
  }

  /** The values of a result are its texts, each at its place. */
  lemma ValuesAreTexts(data: ToolResult, v: Value)
    ensures v in ValuesOf(data.content, data.fields) <==> TextIn(data, v.place) == Some(v.text)
  {
    var values := ValuesOf(data.content, data.fields);
    if TextIn(data, v.place) == Some(v.text) {
      assert values[if v.place.Content? then 0 else v.place.field + 1] == v;
    }
  }

  // The findings of a result are exactly: the field names that look personal, the texts that smuggle, direct
  // or leak, each at its place, and the URLs outside the declared domains, each by its position.
  lemma FindingsIff(sc: Scanner, data: ToolResult, f: Finding)
    ensures f in FindingsOf(sc, data) <==> IsFinding(sc, data, f)
  {
    var values := ValuesOf(data.content, data.fields);
    PiiMembers(sc, data.fields, f);
    var found := ValueMembers(sc, values, data.expected, f);
    if i :| 0 <= i < |values| && FoundIn(sc, values[i], data.expected, f) {
      ValuesAreTexts(data, values[i]);
    }
    if TextIn(data, f.location.place).Some? {
      var v := Value(f.location.place, TextIn(data, f.location.place).value);
      ValuesAreTexts(data, v);
      var i :| 0 <= i < |values| && values[i] == v;
    }
  }

  // ----- outcomes -------------------------------------------------------------------------------------------

  predicate Blocking(sc: Scanner, text: string) {
    Smuggles(sc, PromptInjection, text) || Smuggles(sc, Exfiltration, text) || Smuggles(sc, SecretLike, text)
  }

  predicate HasOutsideUrl(sc: Scanner, text: string, expected: seq<string>) {
    exists k: nat :: sc.hosts(text).Some? && k < |sc.hosts(text).value| && LeadsOutside(sc, text, k, expected)
  }

  /** Some text of the result blocks the next step. */
  predicate SomeTextBlocks(sc: Scanner, data: ToolResult) {
    Blocking(sc, data.content) || exists i :: 0 <= i < |data.fields| && Blocking(sc, data.fields[i].value)
  }

  predicate SomeUrlIsOutside(sc: Scanner, data: ToolResult) {
    HasOutsideUrl(sc, data.content, data.expected)
    || exists i :: 0 <= i < |data.fields| && HasOutsideUrl(sc, data.fields[i].value, data.expected)
  }

  predicate SomeNameIsPersonal(sc: Scanner, data: ToolResult) {
    exists i :: 0 <= i < |data.fields| && sc.piiName(data.fields[i].name)
  }

  lemma BlockingFinding(sc: Scanner, data: ToolResult, place: Place) returns (f: Finding)
    requires TextIn(data, place).Some? && Blocking(sc, TextIn(data, place).value)
    ensures IsFinding(sc, data, f) && Denies(f.rule)
  {
    var text := TextIn(data, place).value;
    f := Finding(if Smuggles(sc, PromptInjection, text) then PromptInjection
                 else if Smuggles(sc, Exfiltration, text) then Exfiltration else SecretLike, At(place));
  }

  lemma UrlFinding(sc: Scanner, data: ToolResult, place: Place) returns (f: Finding)
    requires TextIn(data, place).Some? && HasOutsideUrl(sc, TextIn(data, place).value, data.expected)
    ensures IsFinding(sc, data, f)
  {
    var text := TextIn(data, place).value;
    var k: nat :| sc.hosts(text).Some? && k < |sc.hosts(text).value| && LeadsOutside(sc, text, k, data.expected);
    f := Finding(ExternalUrl, UrlIn(place, k));
  }

  lemma SomeTextBlocksIff(sc: Scanner, data: ToolResult)
    ensures SomeTextBlocks(sc, data) <==> exists f :: IsFinding(sc, data, f) && Denies(f.rule)
  {
    if Blocking(sc, data.content) {
      var f := BlockingFinding(sc, data, Content);
    } else if SomeTextBlocks(sc, data) {
      var i :| 0 <= i < |data.fields| && Blocking(sc, data.fields[i].value);
      var f := BlockingFinding(sc, data, FieldValue(i));
    }
    if f :| IsFinding(sc, data, f) && Denies(f.rule) {
      assert Blocking(sc, TextIn(data, f.location.place).value);
    }
  }

  predicate SomethingToReview(sc: Scanner, data: ToolResult) {
    SomeUrlIsOutside(sc, data) || SomeNameIsPersonal(sc, data)
  }

  lemma SomethingToReviewIff(sc: Scanner, data: ToolResult)
    requires !SomeTextBlocks(sc, data)
    ensures SomethingToReview(sc, data) <==> exists f :: IsFinding(sc, data, f)
  {
    if HasOutsideUrl(sc, data.content, data.expected) {
      var f := UrlFinding(sc, data, Content);
    } else if SomeUrlIsOutside(sc, data) {
      var i :| 0 <= i < |data.fields| && HasOutsideUrl(sc, data.fields[i].value, data.expected);
      var f := UrlFinding(sc, data, FieldValue(i));
    } else if SomeNameIsPersonal(sc, data) {
      var i :| 0 <= i < |data.fields| && sc.piiName(data.fields[i].name);
      assert IsFinding(sc, data, Finding(PiiFieldName, At(FieldName(i))));
    }
    if f :| IsFinding(sc, data, f) {
      SomeTextBlocksIff(sc, data);
      assert f.location.UrlIn? ==> HasOutsideUrl(sc, TextIn(data, f.location.place).value, data.expected);
    }
  }

  // The outcome of any tool result, fields included: a text that smuggles, directs or leaks blocks the next
  // step; otherwise a URL outside the declared domains or a personal field name asks for a review.
  lemma ToolResultOutcome(sc: Scanner, data: ToolResult)
    requires ToolResultScanned(sc, data).Ok?
    ensures ToolResultScanned(sc, data).value.outcome
            == if SomeTextBlocks(sc, data) then BlockNextStep else if SomethingToReview(sc, data) then Review else Clean
    ensures ToolResultScanned(sc, data).value.decision
            == if SomeTextBlocks(sc, data) then Deny else if SomethingToReview(sc, data) then Warn else Allow
  {
    var findings := FindingsOf(sc, data);
    forall f
      ensures f in findings <==> IsFinding(sc, data, f)
    {
      FindingsIff(sc, data, f);
    }
    SomeTextBlocksIff(sc, data);
    if !SomeTextBlocks(sc, data) {
      SomethingToReviewIff(sc, data);
      if findings != [] {
        assert findings[0] in findings;
      }
    }
  }

  // ----- which results are scanned ----------------------------------------------------------------------------

  lemma OneLineIsShort(s: string, limit: nat)
    requires BreakAt(s) == |s|
    ensures ShortLines(s, limit) <==> |s| <= limit
  {
    if |s| > limit {
      assert !BreaksWithin(s, 0, limit);
    }
  }

  lemma FirstLineIsShort(s: string, limit: nat, n: nat, rest: string)
    requires n == BreakAt(s) < |s| && rest == s[n + 1..]
    ensures ShortLines(s, limit) <==> n <= limit && ShortLines(rest, limit)
  {
    if ShortLines(s, limit) {
      if |s| > limit {
        assert BreaksWithin(s, 0, limit);
      }
      forall i | 0 <= i < |rest| - limit
        ensures BreaksWithin(rest, i, limit)
      {
        assert BreaksWithin(s, i + n + 1, limit);
        var k :| i + n + 1 <= k <= i + n + 1 + limit && LineBreak(s[k]);
        assert rest[k - n - 1] == s[k];
      }
    }
    if n <= limit && ShortLines(rest, limit) {
      forall i | 0 <= i < |s| - limit
        ensures BreaksWithin(s, i, limit)
      {
        if i <= n {
          assert LineBreak(s[n]);
        } else {
          assert BreaksWithin(rest, i - n - 1, limit);
          var k :| i - n - 1 <= k <= i - n - 1 + limit && LineBreak(rest[k]);
          assert s[k + n + 1] == rest[k];
        }
      }
    }
  }

  /** No stretch longer than the limit is without a line break if and only if no line is longer than it. */
  lemma {:induction false} ShortLinesIff(s: string, limit: nat)
    ensures ShortLines(s, limit) <==> forall line :: line in SplitLines(s) ==> |line| <= limit
    decreases |s|
  {
    if s != "" {
      var n := BreakAt(s);
      if n == |s| {
        OneLineIsShort(s, limit);
        assert SplitLines(s) == [s] by {
          assert s[..n] == s;
        }
      } else {
        var rest := s[n + 1..];
        ShortLinesIff(rest, limit);
        FirstLineIsShort(s, limit, n, rest);
        assert SplitLines(s) == [s[..n]] + SplitLines(rest);
      }
    }
  }

  /** Bounded text in lines of at most sixteen kibibytes. */
  predicate TextFits(s: string, limit: nat) {
    |s| <= limit && forall line :: line in SplitLines(s) ==> |line| <= 16_384
  }

  predicate NameFits(s: string) {
    Strip(s) != "" && |s| <= 256
  }

  predicate IdFits(id: Json) {
    id.Digest? || (id.Str? && NameFits(id.s))
  }

  predicate FieldFits(f: Field) {
    1 <= |f.name| <= 128 && TextFits(f.value, 65_536)
  }

  /** A result the scanner takes. */
  predicate Fits(sc: Scanner, data: ToolResult) {
    && IdFits(data.requestId) && IdFits(data.resultId) && NameFits(data.tool)
    && (data.sourceTrust == "trusted-local" || data.sourceTrust == "unknown" || data.sourceTrust == "untrusted")
    && TextFits(data.content, 524_288) && |data.fields| <= 128 && |data.expected| <= 64
    && (forall i :: 0 <= i < |data.fields| ==> FieldFits(data.fields[i]))
    && (forall i :: 0 <= i < |data.expected| ==> sc.goodDomain(data.expected[i]))
  }

  lemma GoodFieldIff(f: Field)
    ensures GoodField(f) <==> FieldFits(f)
  {
    ShortLinesIff(f.value, 16_384);
  }

  lemma FieldsFitIff(fields: seq<Field>)
    ensures (forall f :: f in fields ==> GoodField(f)) <==> forall i :: 0 <= i < |fields| ==> FieldFits(fields[i])
  {
    forall f | f in fields
      ensures GoodField(f) <==> FieldFits(f)
    {
      GoodFieldIff(f);
    }
    if forall i :: 0 <= i < |fields| ==> FieldFits(fields[i]) {
      forall f | f in fields
        ensures GoodField(f)
      {
        var i :| 0 <= i < |fields| && fields[i] == f;
      }
    }
  }

  lemma DomainsFitIff(sc: Scanner, expected: seq<string>)
    ensures (forall d :: d in expected ==> sc.goodDomain(d)) <==> forall i :: 0 <= i < |expected| ==> sc.goodDomain(expected[i])
  {
    if forall i :: 0 <= i < |expected| ==> sc.goodDomain(expected[i]) {
      forall d | d in expected
        ensures sc.goodDomain(d)
      {
        var i :| 0 <= i < |expected| && expected[i] == d;
      }
    }
  }

  lemma NameFitsIff(s: string)
    ensures RequiredText(s) <==> NameFits(s)
  {
    Decisions.BlankIff(s);
  }

  lemma IdFitsIff(id: Json)
    ensures RequiredId(id) <==> IdFits(id)
  {
    if id.Str? {
      NameFitsIff(id.s);
    }
  }

  // A tool result is refused if and only if one of its bounds or names does not hold, line by line and field by field.
  lemma RefusedIff(sc: Scanner, data: ToolResult)
    ensures ToolResultScanned(sc, data) == Err(Unfit) <==> !Fits(sc, data)
  {
    IdFitsIff(data.requestId);
    IdFitsIff(data.resultId);
    NameFitsIff(data.tool);
    ShortLinesIff(data.content, 16_384);
    FieldsFitIff(data.fields);
    DomainsFitIff(sc, data.expected);
  }

  // ----- the rules of a report --------------------------------------------------------------------------------

  predicate NamesRule(id: string, rule: Rule) {
    match rule
    case Exfiltration => id == "tool-result.exfiltration-direction"
    case ExternalUrl => id == "tool-result.external-url"
    case PiiFieldName => id == "tool-result.pii-field-name"
    case PromptInjection => id == "tool-result.prompt-injection"
    case SecretLike => id == "tool-result.secret-like-content"
  }

  lemma RuleIsNamed(id: string, rule: Rule)
    ensures id == RuleId(rule) <==> NamesRule(id, rule)
  {
  }

  lemma RuleIsListed(rule: Rule)
    ensures rule in ALL_RULES
  {
    assert ALL_RULES[0] == Exfiltration && ALL_RULES[1] == ExternalUrl && ALL_RULES[2] == PiiFieldName;
    assert ALL_RULES[3] == PromptInjection && ALL_RULES[4] == SecretLike;
  }

  lemma RulesInIff(findings: seq<Finding>, id: string)
    ensures id in RulesIn(findings) <==> exists f :: f in findings && id == RuleId(f.rule)
  {
    var rules := Filter(ALL_RULES, OccursIn(findings));
    if f :| f in findings && id == RuleId(f.rule) {
      RuleIsListed(f.rule);
      FilterMember(ALL_RULES, OccursIn(findings), f.rule);
      var i :| 0 <= i < |rules| && rules[i] == f.rule;
      assert RulesIn(findings)[i] == id;
    }
    if id in RulesIn(findings) {
      var i :| 0 <= i < |rules| && RulesIn(findings)[i] == id;
      FilterMember(ALL_RULES, OccursIn(findings), rules[i]);
    }
  }

  // The rules a report names, and an approval of its release shows, are exactly those of its findings.
  lemma ReportedRulesIff(sc: Scanner, data: ToolResult, id: string)
    requires ToolResultScanned(sc, data).Ok?
    ensures id in ToolResultScanned(sc, data).value.rules <==> exists f :: IsFinding(sc, data, f) && NamesRule(id, f.rule)
  {
    var findings := FindingsOf(sc, data);
    RulesInIff(findings, id);
    forall f
      ensures f in findings <==> IsFinding(sc, data, f)
    {
      FindingsIff(sc, data, f);
    }
    forall f: Finding
      ensures id == RuleId(f.rule) <==> NamesRule(id, f.rule)
    {
      RuleIsNamed(id, f.rule);
    }
  }

  // ----- runtime responses ----------------------------------------------------------------------------------

  /** The JSON text of the one result or error of a response. */
  predicate AnswerText(sc: Scanner, response: Object, text: string) {
    || ("result" in response && sc.text(Obj(map["result" := response["result"]])) == Some(text))
    || ("error" in response && sc.text(Obj(map["error" := response["error"]])) == Some(text))
  }

  // A response is judged by the JSON text of its result or error alone, and no domain is expected.
  lemma ResponseOutcomeByText(sc: Scanner, request: Object, response: Object, text: string)
    requires ResponseScanned(sc, request, response).Ok? && AnswerText(sc, response, text)
    ensures ResponseScanned(sc, request, response).value.outcome
            == if Blocking(sc, text) then BlockNextStep
               else if sc.hosts(text).Some? && sc.hosts(text).value != [] then Review
               else Clean
  {
    var data := ResponseResult(sc, request, response);
    assert data.content == text && data.fields == [] && data.expected == [];
    ToolResultOutcome(sc, data);
    if sc.hosts(text).Some? && sc.hosts(text).value != [] {
      assert LeadsOutside(sc, text, 0, []);
    }
  }

  /** A response the gateway can scan: for a named call, with one answer that has bounded text and can be fingerprinted. */
  predicate ResponseFits(sc: Scanner, request: Object, response: Object) {
    && Get(request, "params").Obj? && Get(Get(request, "params").fields, "name").Str?
    && NameFits(Get(Get(request, "params").fields, "name").s)
    && (("result" in response && "error" !in response) || ("error" in response && "result" !in response))
    && (var text := sc.text(if "result" in response then Obj(map["result" := response["result"]]) else Obj(map["error" := response["error"]]));
        text.Some? && TextFits(text.value, 524_288))
    && sc.encodable(Obj(request)) && sc.encodable(Obj(response))
  }

  // A response makes the session stop as unfit if and only if it is not such a one.
  lemma ResponseRefusedIff(sc: Scanner, request: Object, response: Object)
    ensures ResponseScanned(sc, request, response) == Err(Unfit) <==> !ResponseFits(sc, request, response)
  {
    if Scannable(sc, request, response) {
      RefusedIff(sc, ResponseResult(sc, request, response));
    }
  }
}
