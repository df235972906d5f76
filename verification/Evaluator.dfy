/**
 * The policy evaluators: evaluate_action (evaluator.py), scan_manifest (scanners.py) and
 * evaluate_mcp_request (gateway.py), with the tool-name rules of tool_policy.py.
 *
 * Each evaluator that collects reasons in loops is a method, proved to compute the function
 * beside it; that function says which reasons there are by filtering the pattern lists.
 */
module Evaluator {
  import opened Basics
  import opened Json
  import opened Matching
  import opened Models

  /**
   * Library behaviour the evaluators rely on: bracket classes, and the host name urlparse finds in a
   * target, or nothing when it raises.
   */
  datatype Library = Library(inClass: ClassSemantics, hostname: string -> Option<string>)

  /** An InputError, or the ValueError of urlparse: the one is a kind of the other, and both leave the evaluator. */
  datatype InputError = InputError

  const OUTSIDE := "outside-allowlist"
  const TASKS_UNSUPPORTED := "gateway.tasks.unsupported"
  const ARGUMENTS_UNCLASSIFIED := "gateway.arguments.unclassified"
  const MAX_TOOL_NAME_CHARS := 256
  const MAX_REQUEST_ID_CHARS := 256
  const RECOGNIZED_ARGUMENT_KEYS := {"command", "path", "url", "domain"}

  // ----- reasons from pattern lists ---------------------------------------------------------

  datatype Subject =
    | TextSubject(text: string)
    | PathSubject(path: string)
    | DomainSubject(domain: string)
    | NameSubject(name: string)

  predicate Hits(lib: Library, s: Subject, pattern: string) {
    match s
    case TextSubject(text) => TextMatches(lib.inClass, text, pattern)
    case PathSubject(path) => PathMatches(lib.inClass, path, pattern)
    case DomainSubject(domain) => DomainMatches(lib.inClass, domain, pattern)
    case NameSubject(name) => NameMatches(lib.inClass, name, pattern)
  }

  /** One reason per matching pattern, in list order. */
  function Found(lib: Library, s: Subject, patterns: seq<string>, rule: string, effect: Effect): seq<Reason> {
    if patterns == [] then []
    else (if Hits(lib, s, patterns[0]) then [Reason(rule, effect, patterns[0])] else [])
         + Found(lib, s, patterns[1..], rule, effect)
  }

  lemma {:induction false} FoundAppend(lib: Library, s: Subject, ps: seq<string>, qs: seq<string>, rule: string, effect: Effect)
    ensures Found(lib, s, ps + qs, rule, effect)
            == Found(lib, s, ps, rule, effect) + Found(lib, s, qs, rule, effect)
  {
    if ps == [] {
      assert ps + qs == qs;
    } else {
      var head := if Hits(lib, s, ps[0]) then [Reason(rule, effect, ps[0])] else [];
      assert (ps + qs)[1..] == ps[1..] + qs;
      FoundAppend(lib, s, ps[1..], qs, rule, effect);
      Regroup(head, Found(lib, s, ps[1..], rule, effect), Found(lib, s, qs, rule, effect));
    }
  }

  lemma FoundMember(lib: Library, s: Subject, patterns: seq<string>, rule: string, effect: Effect, r: Reason)
    ensures r in Found(lib, s, patterns, rule, effect)
            <==> r.rule == rule && r.effect == effect && r.matched in patterns && Hits(lib, s, r.matched)
  {
    if patterns != [] {
      FoundMember(lib, s, patterns[1..], rule, effect, r);
      assert r.matched in patterns <==> r.matched == patterns[0] || r.matched in patterns[1..];
    }
  }

  predicate AnyHit(lib: Library, s: Subject, patterns: seq<string>) {
    exists p :: p in patterns && Hits(lib, s, p)
  }

  lemma FoundStep(lib: Library, s: Subject, patterns: seq<string>, i: nat, rule: string, effect: Effect)
    requires i < |patterns|
    ensures Found(lib, s, patterns[..i + 1], rule, effect)
            == Found(lib, s, patterns[..i], rule, effect)
               + if Hits(lib, s, patterns[i]) then [Reason(rule, effect, patterns[i])] else []
  {
    assert patterns[..i + 1] == patterns[..i] + [patterns[i]];
    FoundAppend(lib, s, patterns[..i], [patterns[i]], rule, effect);
    assert [patterns[i]][1..] == [];
  }

  method CollectFound(lib: Library, s: Subject, patterns: seq<string>, rule: string, effect: Effect,
                      reasons0: seq<Reason>)
    returns (reasons: seq<Reason>)
    ensures reasons == reasons0 + Found(lib, s, patterns, rule, effect)
  {
    reasons := reasons0;
    for i := 0 to |patterns|
      invariant reasons == reasons0 + Found(lib, s, patterns[..i], rule, effect)
    {
      FoundStep(lib, s, patterns, i, rule, effect);
      if Hits(lib, s, patterns[i]) {
        reasons := reasons + [Reason(rule, effect, patterns[i])];
      }
    }
    assert patterns[..|patterns|] == patterns;
  }

  // ----- evaluate_action --------------------------------------------------------------------

  /** A validated action; a network action carries its one non-blank url or domain. */
  datatype Action = Shell(command: string) | File(path: string) | Network(target: string)

  datatype Evaluation = Evaluation(decision: Decision, reasons: seq<Reason>)

  /** The shell lists, read by actions and by manifest scans alike. */
  function ShellReasons(lib: Library, text: string, rules: Rules): seq<Reason> {
    Found(lib, TextSubject(text), PatternsOf(rules, "shell", "deny_patterns"), "shell.deny_patterns", DenyEffect)
    + Found(lib, TextSubject(text), PatternsOf(rules, "shell", "warn_patterns"), "shell.warn_patterns", WarnEffect)
  }

  /** The folded host of a target; empty when there is none. */
  function HostOf(lib: Library, target: string): string {
    if lib.hostname(target).Some? then Lower(lib.hostname(target).value) else ""
  }

  function ActionReasons(lib: Library, action: Action, rules: Rules): seq<Reason> {
    match action
    case Shell(command) =>
      ShellReasons(lib, command, rules)
    case File(path) =>
      Found(lib, PathSubject(path), PatternsOf(rules, "files", "deny_paths"), "files.deny_paths", DenyEffect)
      + Found(lib, PathSubject(path), PatternsOf(rules, "files", "warn_paths"), "files.warn_paths", WarnEffect)
    case Network(target) =>
      var d := DomainSubject(HostOf(lib, target));
      var allowed := PatternsOf(rules, "network", "allow_domains");
      Found(lib, d, PatternsOf(rules, "network", "deny_domains"), "network.deny_domains", DenyEffect)
      + if allowed != [] && !AnyHit(lib, d, allowed)
        then [Reason("network.allow_domains", WarnEffect, OUTSIDE)] else []
  }

  predicate HasHost(lib: Library, action: Action) {
    action.Network? ==> HostOf(lib, action.target) != ""
  }

  function Evaluated(lib: Library, action: Action, policy: Policy): Result<Evaluation, InputError> {
    if !HasHost(lib, action) then Err(InputError)
    else
      var reasons := ActionReasons(lib, action, policy.rules);
      Ok(Evaluation(DecisionFor(reasons, policy.default), reasons))
  }

  method CollectShell(lib: Library, text: string, rules: Rules, reasons0: seq<Reason>) returns (reasons: seq<Reason>)
    ensures reasons == reasons0 + ShellReasons(lib, text, rules)
  {
    reasons := CollectFound(lib, TextSubject(text), PatternsOf(rules, "shell", "deny_patterns"),
                            "shell.deny_patterns", DenyEffect, reasons0);
    reasons := CollectFound(lib, TextSubject(text), PatternsOf(rules, "shell", "warn_patterns"),
                            "shell.warn_patterns", WarnEffect, reasons);
  }

  method EvaluateAction(lib: Library, action: Action, policy: Policy) returns (r: Result<Evaluation, InputError>)
    ensures r == Evaluated(lib, action, policy)
  {
    var reasons: seq<Reason> := [];
    match action {
      case Shell(command) =>
        reasons := CollectShell(lib, command, policy.rules, reasons);
      case File(path) =>
        reasons := CollectFound(lib, PathSubject(path), PatternsOf(policy.rules, "files", "deny_paths"),
                                "files.deny_paths", DenyEffect, reasons);
        reasons := CollectFound(lib, PathSubject(path), PatternsOf(policy.rules, "files", "warn_paths"),
                                "files.warn_paths", WarnEffect, reasons);
      case Network(target) =>
        if lib.hostname(target).None? {
          return Err(InputError);
        }
        var domain := Lower(lib.hostname(target).value);
        if domain == "" {
          return Err(InputError);
        }
        reasons := CollectFound(lib, DomainSubject(domain), PatternsOf(policy.rules, "network", "deny_domains"),
                                "network.deny_domains", DenyEffect, reasons);
        var allowed := PatternsOf(policy.rules, "network", "allow_domains");
        if allowed != [] && !AnyHit(lib, DomainSubject(domain), allowed) {
          reasons := reasons + [Reason("network.allow_domains", WarnEffect, OUTSIDE)];
        }
    }
    assert reasons == ActionReasons(lib, action, policy.rules);
    r := Ok(Evaluation(DecisionFor(reasons, policy.default), reasons));
  }

  // ----- tool names ---------------------------------------------------------------------------

  predicate ToolNameIsAllowed(lib: Library, name: string, rules: Rules) {
    AnyHit(lib, NameSubject(name), PatternsOf(rules, "mcp_tools", "allow_names"))
  }

  function ToolNameReasons(lib: Library, name: string, rules: Rules): seq<Reason> {
    Found(lib, NameSubject(name), PatternsOf(rules, "mcp_tools", "deny_names"), "mcp_tools.deny_names", DenyEffect)
    + (if PatternsOf(rules, "mcp_tools", "allow_names") != [] && !ToolNameIsAllowed(lib, name, rules)
       then [Reason("mcp_tools.allow_names", DenyEffect, OUTSIDE)] else [])
    + Found(lib, TextSubject(name), PatternsOf(rules, "mcp_tools", "warn_if_name_contains"),
            "mcp_tools.warn_if_name_contains", WarnEffect)
  }

  function BaseDecision(lib: Library, name: string, policy: Policy): Decision {
    if ToolNameIsAllowed(lib, name, policy.rules) then Allow else policy.default
  }

  // ----- scan_manifest --------------------------------------------------------------------------

  /** A validated manifest entry; a tool without a server command has the empty command. */
  datatype ManifestEntry = ManifestEntry(name: string, description: string, command: string, schema: string)

  function DocumentReasons(lib: Library, e: ManifestEntry, rules: Rules): seq<Reason> {
    Found(lib, TextSubject(e.description), PatternsOf(rules, "mcp_tools", "deny_if_description_contains"),
          "mcp_tools.deny_if_description_contains", DenyEffect)
    + Found(lib, TextSubject(e.schema), PatternsOf(rules, "mcp_tools", "warn_if_schema_contains"),
            "mcp_tools.warn_if_schema_contains", WarnEffect)
  }

  function EntryReasons(lib: Library, e: ManifestEntry, rules: Rules): seq<Reason> {
    ToolNameReasons(lib, e.name, rules) + ShellReasons(lib, e.command, rules) + DocumentReasons(lib, e, rules)
  }

  function ScannedEntry(lib: Library, e: ManifestEntry, policy: Policy): Evaluation {
    var reasons := EntryReasons(lib, e, policy.rules);
    Evaluation(DecisionFor(reasons, BaseDecision(lib, e.name, policy)), reasons)
  }

  method CollectDocument(lib: Library, e: ManifestEntry, rules: Rules, reasons0: seq<Reason>)
    returns (reasons: seq<Reason>)
    ensures reasons == reasons0 + DocumentReasons(lib, e, rules)
  {
    reasons := CollectFound(lib, TextSubject(e.description),
                            PatternsOf(rules, "mcp_tools", "deny_if_description_contains"),
                            "mcp_tools.deny_if_description_contains", DenyEffect, reasons0);
    reasons := CollectFound(lib, TextSubject(e.schema), PatternsOf(rules, "mcp_tools", "warn_if_schema_contains"),
                            "mcp_tools.warn_if_schema_contains", WarnEffect, reasons);
  }

  method ScanEntry(lib: Library, e: ManifestEntry, policy: Policy) returns (r: Evaluation)
    ensures r == ScannedEntry(lib, e, policy)
  {
    var rules := policy.rules;
    var reasons := ToolNameReasons(lib, e.name, rules);
    reasons := CollectShell(lib, e.command, rules, reasons);
    reasons := CollectDocument(lib, e, rules, reasons);
    r := Evaluation(DecisionFor(reasons, BaseDecision(lib, e.name, policy)), reasons);
  }

  /** One evaluation per entry, in order. */
  function Scanned(lib: Library, entries: seq<ManifestEntry>, policy: Policy): seq<Evaluation> {
    if entries == [] then []
    else Scanned(lib, entries[..|entries| - 1], policy) + [ScannedEntry(lib, entries[|entries| - 1], policy)]
  }

  method ScanManifest(lib: Library, entries: seq<ManifestEntry>, policy: Policy) returns (output: seq<Evaluation>)
    ensures output == Scanned(lib, entries, policy)
  {
    output := [];
    for i := 0 to |entries|
      invariant output == Scanned(lib, entries[..i], policy)
    {
      var e := ScanEntry(lib, entries[i], policy);
      output := output + [e];
      assert entries[..i + 1][..i] == entries[..i];
    }
    assert entries[..|entries|] == entries;
  }

  // ----- evaluate_mcp_request -------------------------------------------------------------------

  datatype ToolCall = ToolCall(name: string, arguments: Object, taskAugmented: bool)

  /** One call with its evaluation; capabilities keep the order in which they were projected. */
  datatype GatewayResult = GatewayResult(call: ToolCall, evaluation: Evaluation, capabilities: seq<string>)

  predicate Blank(s: string) {
    forall i :: 0 <= i < |s| ==> IsSpace(s[i])
  }

  function ParseMcpToolCall(request: Object): Result<ToolCall, InputError> {
    var id := Get(request, "id");
    var params := Get(request, "params");
    if Get(request, "jsonrpc") != Str("2.0") then Err(InputError)
    else if Get(request, "method") != Str("tools/call") then Err(InputError)
    else if !(id.Null? || id.Str? || id.Int?) then Err(InputError)
    else if id.Str? && |id.s| > MAX_REQUEST_ID_CHARS then Err(InputError)
    else if !params.Obj? then Err(InputError)
    else
      var name := Get(params.fields, "name");
      var arguments := if "arguments" in params.fields then params.fields["arguments"] else Obj(map[]);
      if !name.Str? || Blank(name.s) || |name.s| > MAX_TOOL_NAME_CHARS then Err(InputError)
      else if !arguments.Obj? then Err(InputError)
      else if "task" in params.fields && !params.fields["task"].Obj? then Err(InputError)
      else Ok(ToolCall(name.s, arguments.fields, "task" in params.fields))
  }

  predicate GoodText(arguments: Object, key: string) {
    key in arguments ==> arguments[key].Str? && !Blank(arguments[key].s)
  }

  predicate Present(arguments: Object, key: string) {
    key in arguments && arguments[key].Str? && !Blank(arguments[key].s)
  }

  /** The recognized arguments as actions: command, then path, then the one network target. */
  function CapabilityActions(call: ToolCall): Result<seq<Action>, InputError> {
    var a := call.arguments;
    if !GoodText(a, "command") || !GoodText(a, "path") then Err(InputError)
    else if ("url" in a && !a["url"].Str?) || ("domain" in a && !a["domain"].Str?) then Err(InputError)
    else if Present(a, "url") && Present(a, "domain") then Err(InputError)
    else if ("url" in a || "domain" in a) && !Present(a, "url") && !Present(a, "domain") then Err(InputError)
    else
      Ok((if "command" in a then [Shell(a["command"].s)] else [])
         + (if "path" in a then [File(a["path"].s)] else [])
         + (if Present(a, "url") then [Network(a["url"].s)]
            else if Present(a, "domain") then [Network(a["domain"].s)] else []))
  }

  predicate Unclassified(call: ToolCall) {
    exists k :: k in call.arguments && k !in RECOGNIZED_ARGUMENT_KEYS
  }

  function GatewayMarks(call: ToolCall): seq<Reason> {
    (if call.taskAugmented then [Reason(TASKS_UNSUPPORTED, WarnEffect, "task")] else [])
    + (if Unclassified(call) then [Reason(ARGUMENTS_UNCLASSIFIED, WarnEffect, "unclassified")] else [])
  }

  function AllActionReasons(lib: Library, actions: seq<Action>, rules: Rules): seq<Reason> {
    if actions == [] then []
    else AllActionReasons(lib, actions[..|actions| - 1], rules) + ActionReasons(lib, actions[|actions| - 1], rules)
  }

  lemma AllActionReasonsStep(lib: Library, actions: seq<Action>, i: nat, rules: Rules)
    requires i < |actions|
    ensures AllActionReasons(lib, actions[..i + 1], rules)
            == AllActionReasons(lib, actions[..i], rules) + ActionReasons(lib, actions[i], rules)
  {
    assert actions[..i + 1][..i] == actions[..i];
  }

  function ActionType(a: Action): string {
    match a
    case Shell(_) => "shell"
    case File(_) => "file"
    case Network(_) => "network"
  }

  function Capabilities(call: ToolCall, actions: seq<Action>): seq<string> {
    var names := seq(|actions|, i requires 0 <= i < |actions| => ActionType(actions[i]))
                 + (if Unclassified(call) then ["unclassified"] else []);
    if names == [] then ["unclassified"] else names
  }

  function McpEvaluated(lib: Library, request: Object, policy: Policy): Result<GatewayResult, InputError> {
    var call := ParseMcpToolCall(request);
    if call.Err? then Err(InputError)
    else
      var actions := CapabilityActions(call.value);
      if actions.Err? || !AllHosts(lib, actions.value) then Err(InputError)
      else
        var reasons := ToolNameReasons(lib, call.value.name, policy.rules) + GatewayMarks(call.value)
                       + AllActionReasons(lib, actions.value, policy.rules);
        var decision := DecisionFor(reasons, BaseDecision(lib, call.value.name, policy));
        Ok(GatewayResult(call.value, Evaluation(decision, reasons), Capabilities(call.value, actions.value)))
  }

  predicate AllHosts(lib: Library, actions: seq<Action>) {
    forall i :: 0 <= i < |actions| ==> HasHost(lib, actions[i])
  }

  lemma NextHost(lib: Library, actions: seq<Action>, i: nat)
    requires i < |actions| && AllHosts(lib, actions[..i])
    ensures HasHost(lib, actions[i]) ==> AllHosts(lib, actions[..i + 1])
    ensures !HasHost(lib, actions[i]) ==> !AllHosts(lib, actions)
  {
    forall k | 0 <= k < i
      ensures HasHost(lib, actions[k])
    {
      assert actions[..i][k] == actions[k];
    }
  }

  /** The explicit findings of all projected actions, or the first input error. */
  method CollectActionReasons(lib: Library, actions: seq<Action>, policy: Policy)
    returns (r: Result<seq<Reason>, InputError>)
    ensures r == if AllHosts(lib, actions) then Ok(AllActionReasons(lib, actions, policy.rules)) else Err(InputError)
  {
    var reasons: seq<Reason> := [];
    for i := 0 to |actions|
      invariant AllHosts(lib, actions[..i])
      invariant reasons == AllActionReasons(lib, actions[..i], policy.rules)
    {
      var one := EvaluateAction(lib, actions[i], policy);
      NextHost(lib, actions, i);
      if one.Err? {
        return Err(InputError);
      }
      AllActionReasonsStep(lib, actions, i, policy.rules);
      reasons := reasons + one.value.reasons;
    }
    assert actions[..|actions|] == actions;
    r := Ok(reasons);
  }

  method EvaluateMcpRequest(lib: Library, request: Object, policy: Policy)
    returns (r: Result<GatewayResult, InputError>)
    ensures r == McpEvaluated(lib, request, policy)
  {
    var parsed := ParseMcpToolCall(request);
    if parsed.Err? {
      return Err(InputError);
    }
    var call := parsed.value;
    var reasons := ToolNameReasons(lib, call.name, policy.rules);
    var actions := CapabilityActions(call);
    if actions.Err? {
      return Err(InputError);
    }
    reasons := reasons + GatewayMarks(call);
    var found := CollectActionReasons(lib, actions.value, policy);
    if found.Err? {
      return Err(InputError);
    }
    reasons := reasons + found.value;
    var decision := DecisionFor(reasons, BaseDecision(lib, call.name, policy));
    r := Ok(GatewayResult(call, Evaluation(decision, reasons), Capabilities(call, actions.value)));
  }

  // ----- what the evaluators promise --------------------------------------------------------------

  /** Precedence: deny on any deny finding, otherwise warn on any finding, otherwise the fallback. */
  lemma {:induction false} ShellDecision(lib: Library, command: string, policy: Policy)
    ensures var deny := AnyHit(lib, TextSubject(command), PatternsOf(policy.rules, "shell", "deny_patterns"));
            var warn := AnyHit(lib, TextSubject(command), PatternsOf(policy.rules, "shell", "warn_patterns"));
            Evaluated(lib, Shell(command), policy).value.decision
            == if deny then Deny else if warn then Warn else policy.default
  {
    TwoListDecision(lib, TextSubject(command), PatternsOf(policy.rules, "shell", "deny_patterns"),
                    PatternsOf(policy.rules, "shell", "warn_patterns"), "shell.deny_patterns",
                    "shell.warn_patterns", [], [], policy.default);
    assert ActionReasons(lib, Shell(command), policy.rules)
           == [] + Found(lib, TextSubject(command), PatternsOf(policy.rules, "shell", "deny_patterns"), "shell.deny_patterns", DenyEffect)
              + Found(lib, TextSubject(command), PatternsOf(policy.rules, "shell", "warn_patterns"), "shell.warn_patterns", WarnEffect) + [];
  }

  lemma {:induction false} FileDecision(lib: Library, path: string, policy: Policy)
    ensures var deny := AnyHit(lib, PathSubject(path), PatternsOf(policy.rules, "files", "deny_paths"));
            var warn := AnyHit(lib, PathSubject(path), PatternsOf(policy.rules, "files", "warn_paths"));
            Evaluated(lib, File(path), policy).value.decision
            == if deny then Deny else if warn then Warn else policy.default
  {
    TwoListDecision(lib, PathSubject(path), PatternsOf(policy.rules, "files", "deny_paths"),
                    PatternsOf(policy.rules, "files", "warn_paths"), "files.deny_paths",
                    "files.warn_paths", [], [], policy.default);
    assert ActionReasons(lib, File(path), policy.rules)
           == [] + Found(lib, PathSubject(path), PatternsOf(policy.rules, "files", "deny_paths"), "files.deny_paths", DenyEffect)
              + Found(lib, PathSubject(path), PatternsOf(policy.rules, "files", "warn_paths"), "files.warn_paths", WarnEffect) + [];
  }

  /** How a deny list and a warn list decide, inside any other reasons. */
  lemma {:induction false} TwoListDecision(lib: Library, s: Subject, deny: seq<string>, warn: seq<string>,
                                           denyRule: string, warnRule: string,
                                           before: seq<Reason>, after: seq<Reason>, default: Decision)
    ensures var reasons := before + Found(lib, s, deny, denyRule, DenyEffect)
                           + Found(lib, s, warn, warnRule, WarnEffect) + after;
            DecisionFor(reasons, default)
            == if Blocks(before) || Blocks(after) || AnyHit(lib, s, deny) then Deny
               else if before != [] || after != [] || AnyHit(lib, s, warn) then Warn
               else default
  {
    var d, w := Found(lib, s, deny, denyRule, DenyEffect), Found(lib, s, warn, warnRule, WarnEffect);
    var reasons := before + d + w + after;
    FoundIsAnyHit(lib, s, deny, denyRule, DenyEffect);
    FoundIsAnyHit(lib, s, warn, warnRule, WarnEffect);
    forall r | r in w ensures r.effect == WarnEffect {
      FoundMember(lib, s, warn, warnRule, WarnEffect, r);
    }
    forall r | r in d ensures r.effect == DenyEffect {
      FoundMember(lib, s, deny, denyRule, DenyEffect, r);
    }
    if d != [] {
      assert d[0] in reasons;
    }
    if Blocks(before) {
      var r :| r in before && r.effect == DenyEffect;
      assert r in reasons;
    }
    if Blocks(after) {
      var r :| r in after && r.effect == DenyEffect;
      assert r in reasons;
    }
    if Blocks(reasons) {
      var r :| r in reasons && r.effect == DenyEffect;
      assert r in before || r in d || r in w || r in after;
    }
  }

  lemma FoundIsAnyHit(lib: Library, s: Subject, patterns: seq<string>, rule: string, effect: Effect)
    ensures Found(lib, s, patterns, rule, effect) != [] <==> AnyHit(lib, s, patterns)
  {
    var f := Found(lib, s, patterns, rule, effect);
    if f != [] {
      FoundMember(lib, s, patterns, rule, effect, f[0]);
      assert f[0] in f;
    }
    if AnyHit(lib, s, patterns) {
      var p :| p in patterns && Hits(lib, s, p);
      FoundMember(lib, s, patterns, rule, effect, Reason(rule, effect, p));
    }
  }

  /** A task-augmented call is never allowed, and always carries the non-approvable mark. */
  lemma {:induction false} TaskCallsAreNeverAllowed(lib: Library, request: Object, policy: Policy)
    requires McpEvaluated(lib, request, policy).Ok?
    requires McpEvaluated(lib, request, policy).value.call.taskAugmented
    ensures var e := McpEvaluated(lib, request, policy).value.evaluation;
            e.decision != Allow && exists r :: r in e.reasons && r.rule == TASKS_UNSUPPORTED
  {
    var e := McpEvaluated(lib, request, policy).value.evaluation;
    var mark := Reason(TASKS_UNSUPPORTED, WarnEffect, "task");
    assert mark in GatewayMarks(McpEvaluated(lib, request, policy).value.call);
    assert mark in e.reasons;
  }

  /** Nor is a call with arguments that no capability covers: at best it is a warning. */
  lemma {:induction false} UnclassifiedCallsAreNeverAllowed(lib: Library, request: Object, policy: Policy)
    requires McpEvaluated(lib, request, policy).Ok?
    requires Unclassified(McpEvaluated(lib, request, policy).value.call)
    ensures var e := McpEvaluated(lib, request, policy).value.evaluation;
            && e.decision == (if Blocks(e.reasons) then Deny else Warn)
            && exists r :: r in e.reasons && r.rule == ARGUMENTS_UNCLASSIFIED
  {
    var e := McpEvaluated(lib, request, policy).value.evaluation;
    var mark := Reason(ARGUMENTS_UNCLASSIFIED, WarnEffect, "unclassified");
    assert mark in GatewayMarks(McpEvaluated(lib, request, policy).value.call);
    assert mark in e.reasons;
  }
}
