/**
 * What the evaluators decide, read off their inputs: which findings an action, a manifest entry or an
 * MCP call has, and when it is denied, warned about or left to the fallback.
 */
module Decisions {
  import opened Basics
  import opened Json
  import opened Matching
  import opened Models
  import opened Evaluator

  // ----- hits, by kind of pattern list ----------------------------------------------------------------------

  predicate TextHit(lib: Library, text: string, patterns: seq<string>) {
    exists p :: p in patterns && TextMatches(lib.inClass, text, p)
  }

  predicate PathHit(lib: Library, path: string, patterns: seq<string>) {
    exists p :: p in patterns && PathMatches(lib.inClass, path, p)
  }

  predicate DomainHit(lib: Library, domain: string, patterns: seq<string>) {
    exists p :: p in patterns && DomainMatches(lib.inClass, domain, p)
  }

  predicate NameHit(lib: Library, name: string, patterns: seq<string>) {
    exists p :: p in patterns && NameMatches(lib.inClass, name, p)
  }

  /** A reason that names a pattern of the rule list it comes from. */
  predicate From(r: Reason, rules: Rules, section: string, name: string, rule: string, effect: Effect) {
    r.rule == rule && r.effect == effect && r.matched in PatternsOf(rules, section, name)
  }

  predicate ShellFinding(lib: Library, text: string, rules: Rules, r: Reason) {
    && (From(r, rules, "shell", "deny_patterns", "shell.deny_patterns", DenyEffect) || From(r, rules, "shell", "warn_patterns", "shell.warn_patterns", WarnEffect))
    && TextMatches(lib.inClass, text, r.matched)
  }

  predicate FileFinding(lib: Library, path: string, rules: Rules, r: Reason) {
    && (From(r, rules, "files", "deny_paths", "files.deny_paths", DenyEffect) || From(r, rules, "files", "warn_paths", "files.warn_paths", WarnEffect))
    && PathMatches(lib.inClass, path, r.matched)
  }

  /** A domain may not be on the deny list, and has to be on the allow list if there is one. */
  predicate HostFinding(lib: Library, host: string, rules: Rules, r: Reason) {
    || (From(r, rules, "network", "deny_domains", "network.deny_domains", DenyEffect) && DomainMatches(lib.inClass, host, r.matched))
    || (r == Reason("network.allow_domains", WarnEffect, OUTSIDE) && OffList(lib, host, rules))
  }

  predicate OffList(lib: Library, host: string, rules: Rules) {
    var allowed := PatternsOf(rules, "network", "allow_domains");
    allowed != [] && !DomainHit(lib, host, allowed)
  }

  predicate NameOffList(lib: Library, name: string, rules: Rules) {
    var allowed := PatternsOf(rules, "mcp_tools", "allow_names");
    allowed != [] && !NameHit(lib, name, allowed)
  }

  predicate ToolNameFinding(lib: Library, name: string, rules: Rules, r: Reason) {
    || (From(r, rules, "mcp_tools", "deny_names", "mcp_tools.deny_names", DenyEffect) && NameMatches(lib.inClass, name, r.matched))
    || (r == Reason("mcp_tools.allow_names", DenyEffect, OUTSIDE) && NameOffList(lib, name, rules))
    || (From(r, rules, "mcp_tools", "warn_if_name_contains", "mcp_tools.warn_if_name_contains", WarnEffect) && TextMatches(lib.inClass, name, r.matched))
  }

  // ----- actions --------------------------------------------------------------------------------------------

  lemma ShellFindings(lib: Library, text: string, rules: Rules, r: Reason)
    ensures r in ShellReasons(lib, text, rules) <==> ShellFinding(lib, text, rules, r)
  {
    var s := TextSubject(text);
    FoundMember(lib, s, PatternsOf(rules, "shell", "deny_patterns"), "shell.deny_patterns", DenyEffect, r);
    FoundMember(lib, s, PatternsOf(rules, "shell", "warn_patterns"), "shell.warn_patterns", WarnEffect, r);
  }

  lemma FileFindings(lib: Library, path: string, rules: Rules, r: Reason)
    ensures r in ActionReasons(lib, File(path), rules) <==> FileFinding(lib, path, rules, r)
  {
    var s := PathSubject(path);
    FoundMember(lib, s, PatternsOf(rules, "files", "deny_paths"), "files.deny_paths", DenyEffect, r);
    FoundMember(lib, s, PatternsOf(rules, "files", "warn_paths"), "files.warn_paths", WarnEffect, r);
  }

  lemma AnyDomainHit(lib: Library, host: string, patterns: seq<string>)
    ensures AnyHit(lib, DomainSubject(host), patterns) <==> DomainHit(lib, host, patterns)
  {
    forall p | p in patterns
      ensures Hits(lib, DomainSubject(host), p) <==> DomainMatches(lib.inClass, host, p) {
    }
  }

  lemma AnyNameHit(lib: Library, name: string, patterns: seq<string>)
    ensures AnyHit(lib, NameSubject(name), patterns) <==> NameHit(lib, name, patterns)
  {
    forall p | p in patterns
      ensures Hits(lib, NameSubject(name), p) <==> NameMatches(lib.inClass, name, p) {
    }
  }

  lemma HostFindings(lib: Library, target: string, rules: Rules, r: Reason)
    ensures r in ActionReasons(lib, Network(target), rules) <==> HostFinding(lib, HostOf(lib, target), rules, r)
  {
    var host := HostOf(lib, target);
    FoundMember(lib, DomainSubject(host), PatternsOf(rules, "network", "deny_domains"), "network.deny_domains", DenyEffect, r);
    AnyDomainHit(lib, host, PatternsOf(rules, "network", "allow_domains"));
  }

  lemma ToolNameFindings(lib: Library, name: string, rules: Rules, r: Reason)
    ensures r in ToolNameReasons(lib, name, rules) <==> ToolNameFinding(lib, name, rules, r)
  {
    FoundMember(lib, NameSubject(name), PatternsOf(rules, "mcp_tools", "deny_names"), "mcp_tools.deny_names", DenyEffect, r);
    FoundMember(lib, TextSubject(name), PatternsOf(rules, "mcp_tools", "warn_if_name_contains"),
                "mcp_tools.warn_if_name_contains", WarnEffect, r);
    AnyNameHit(lib, name, PatternsOf(rules, "mcp_tools", "allow_names"));
  }

  /** Decisions from findings: deny beats warn beats the fallback. */
  lemma DecisionFromFindings(reasons: seq<Reason>, fallback: Decision, denied: bool, cautioned: bool)
    requires denied <==> exists r :: r in reasons && r.effect == DenyEffect
    requires !denied ==> (cautioned <==> exists r :: r in reasons)
    ensures DecisionFor(reasons, fallback) == if denied then Deny else if cautioned then Warn else fallback
  {
    if reasons != [] {
      assert reasons[0] in reasons;
    }
  }

  /** The folded host name that urlparse finds in a target. */
  predicate NamesHost(lib: Library, target: string, host: string) {
    lib.hostname(target).Some? && host == Lower(lib.hostname(target).value) && host != ""
  }

  /**
   * A network action: denied by a deny_domains pattern that matches the folded host, a warning when
   * there is an allow list without a match, otherwise the default; without a host an error.
   */
  lemma NetworkDecision(lib: Library, target: string, policy: Policy)
    ensures Evaluated(lib, Network(target), policy).Ok? <==> exists host :: NamesHost(lib, target, host)
    ensures forall host :: NamesHost(lib, target, host) ==>
              Evaluated(lib, Network(target), policy).value.decision
              == if DomainHit(lib, host, PatternsOf(policy.rules, "network", "deny_domains")) then Deny
                 else if OffList(lib, host, policy.rules) then Warn
                 else policy.default
  {
    var found := HostOf(lib, target);
    if found != "" {
      assert NamesHost(lib, target, found);
    }
    forall host | NamesHost(lib, target, host)
      ensures host == found {
    }
    if found != "" {
      NetworkDecisionFor(lib, target, policy, found);
    }
  }

  lemma NetworkDecisionFor(lib: Library, target: string, policy: Policy, host: string)
    requires host == HostOf(lib, target) && host != ""
    ensures Evaluated(lib, Network(target), policy).Ok?
    ensures Evaluated(lib, Network(target), policy).value.decision
            == if DomainHit(lib, host, PatternsOf(policy.rules, "network", "deny_domains")) then Deny
               else if OffList(lib, host, policy.rules) then Warn
               else policy.default
  {
    var reasons := ActionReasons(lib, Network(target), policy.rules);
    var deny := PatternsOf(policy.rules, "network", "deny_domains");
    forall r
      ensures r in reasons <==> HostFinding(lib, host, policy.rules, r)
    {
      HostFindings(lib, target, policy.rules, r);
    }
    if DomainHit(lib, host, deny) {
      var r := HostCause(lib, host, policy.rules, true);
    }
    if OffList(lib, host, policy.rules) {
      var r := HostCause(lib, host, policy.rules, false);
    }
    DecisionFromFindings(reasons, policy.default, DomainHit(lib, host, deny), OffList(lib, host, policy.rules));
  }

  // ----- blank texts ------------------------------------------------------------------------------------------

  lemma {:induction false} StripLeftOf(s: string)
    ensures StripLeft(s) == "" <==> Blank(s)
    ensures StripLeft(s) != "" ==> !IsSpace(StripLeft(s)[0])
  {
    if s != "" && IsSpace(s[0]) {
      StripLeftOf(s[1..]);
      assert s == [s[0]] + s[1..];
    }
  }

  lemma {:induction false} StripRightKeeps(s: string)
    requires s != "" && !IsSpace(s[0])
    ensures StripRight(s) != ""
  {
    if IsSpace(s[|s| - 1]) {
      StripRightKeeps(s[..|s| - 1]);
    }
  }

  lemma {:induction false} StripLeftCuts(s: string) returns (a: string)
    ensures s == a + StripLeft(s) && Blank(a)
  {
    a := "";
    if s != "" && IsSpace(s[0]) {
      var b := StripLeftCuts(s[1..]);
      a := [s[0]] + b;
      assert s == [s[0]] + s[1..];
    }
  }

  lemma {:induction false} StripRightCuts(s: string) returns (b: string)
    ensures s == StripRight(s) + b && Blank(b) && StripRight(s) <= s
    ensures StripRight(s) != "" ==> !IsSpace(StripRight(s)[|StripRight(s)| - 1])
  {
    b := "";
    if s != "" && IsSpace(s[|s| - 1]) {
      var c := StripRightCuts(s[..|s| - 1]);
      b := c + [s[|s| - 1]];
      assert s == s[..|s| - 1] + [s[|s| - 1]];
    }
  }

  // Stripping takes away blanks at both ends and nothing else.
  lemma StripCuts(s: string) returns (a: string, b: string)
    ensures s == a + Strip(s) + b && Blank(a) && Blank(b)
    ensures Strip(s) != "" ==> !IsSpace(Strip(s)[0]) && !IsSpace(Strip(s)[|Strip(s)| - 1])
  {
    a := StripLeftCuts(s);
    b := StripRightCuts(StripLeft(s));
    StripLeftOf(s);
  }

  // A text is blank, and so refused as a name, a command or a path, if and only if nothing is left when it is stripped.
  lemma BlankIff(s: string)
    ensures Blank(s) <==> Strip(s) == ""
  {
    StripLeftOf(s);
    if StripLeft(s) != "" {
      StripRightKeeps(StripLeft(s));
    }
  }

  // ----- MCP calls: which requests are accepted ---------------------------------------------------------------

  /** A tools/call for the tool `name` with the arguments `a`; `task` says whether it is task-augmented. */
  predicate ReadsAs(request: Object, name: string, a: Object, task: bool) {
    && Get(request, "jsonrpc") == Str("2.0") && Get(request, "method") == Str("tools/call")
    && (match Get(request, "id")
        case Null => true
        case Int(_) => true
        case Str(id) => |id| <= 256
        case _ => false)
    && Get(request, "params").Obj?
    && var params := Get(request, "params").fields;
       && Get(params, "name") == Str(name) && !Blank(name) && |name| <= 256
       && (if "arguments" in params then params["arguments"] == Obj(a) else a == map[])
       && (task <==> "task" in params) && (task ==> params["task"].Obj?)
  }

  predicate AbsentOrText(a: Object, key: string) {
    key in a ==> a[key].Str? && !Blank(a[key].s)
  }

  predicate AbsentOrBlank(a: Object, key: string) {
    key in a ==> a[key].Str? && Blank(a[key].s)
  }

  /** The one network target among the arguments. */
  predicate OnlyTarget(a: Object, target: string) {
    && !Blank(target)
    && ((Get(a, "url") == Str(target) && AbsentOrBlank(a, "domain")) || (Get(a, "domain") == Str(target) && AbsentOrBlank(a, "url")))
  }

  /** Command and path are texts, and a url or domain gives exactly one target, which has a host. */
  ghost predicate GoodArguments(lib: Library, a: Object) {
    && AbsentOrText(a, "command") && AbsentOrText(a, "path")
    && ("url" in a || "domain" in a ==> exists t :: OnlyTarget(a, t) && HostOf(lib, t) != "")
  }

  /** Every accepted request reads as a call. */
  lemma AcceptedReadsAs(lib: Library, request: Object, policy: Policy) returns (name: string, a: Object, task: bool)
    requires McpEvaluated(lib, request, policy).Ok?
    ensures ReadsAs(request, name, a, task)
  {
    var call := ParseMcpToolCall(request).value;
    name, a, task := call.name, call.arguments, call.taskAugmented;
  }

  lemma ReadsAsParses(request: Object, name: string, a: Object, task: bool)
    requires ReadsAs(request, name, a, task)
    ensures ParseMcpToolCall(request) == Ok(ToolCall(name, a, task))
  {
  }

  /** The projections of good arguments: a command, a path and a target, each if it is there. */
  function ShellPart(a: Object): seq<Action> {
    if Get(a, "command").Str? then [Shell(Get(a, "command").s)] else []
  }

  function FilePart(a: Object): seq<Action> {
    if Get(a, "path").Str? then [File(Get(a, "path").s)] else []
  }

  predicate IsNetworkPart(a: Object, part: seq<Action>) {
    if "url" in a || "domain" in a then |part| == 1 && part[0].Network? && OnlyTarget(a, part[0].target) else part == []
  }

  ghost predicate TargetsAreGood(a: Object) {
    "url" in a || "domain" in a ==> exists t :: OnlyTarget(a, t)
  }

  lemma ActionsOf(name: string, a: Object, task: bool) returns (network: seq<Action>)
    ensures var actions := CapabilityActions(ToolCall(name, a, task));
            && (actions.Ok? <==> AbsentOrText(a, "command") && AbsentOrText(a, "path") && TargetsAreGood(a))
            && (actions.Ok? ==> actions.value == ShellPart(a) + FilePart(a) + network && IsNetworkPart(a, network))
  {
    network := [];
    if Present(a, "url") {
      network := [Network(a["url"].s)];
      assert AbsentOrBlank(a, "domain") ==> OnlyTarget(a, a["url"].s);
    } else if Present(a, "domain") {
      network := [Network(a["domain"].s)];
      assert AbsentOrBlank(a, "url") ==> OnlyTarget(a, a["domain"].s);
    }
  }

  lemma OneTarget(a: Object, s: string, t: string)
    requires OnlyTarget(a, s) && OnlyTarget(a, t)
    ensures s == t
  {
  }

  lemma HostsOf(lib: Library, a: Object, network: seq<Action>)
    requires IsNetworkPart(a, network)
    ensures AllHosts(lib, ShellPart(a) + FilePart(a) + network)
            <==> ("url" in a || "domain" in a ==> exists t :: OnlyTarget(a, t) && HostOf(lib, t) != "")
  {
    var actions := ShellPart(a) + FilePart(a) + network;
    if network != [] {
      assert actions[|actions| - 1] == network[0];
      forall t | OnlyTarget(a, t)
        ensures t == network[0].target
      {
        OneTarget(a, t, network[0].target);
      }
    }
  }

  // A request that reads as a call is accepted if and only if its arguments are good, and it is then
  // evaluated as that call.
  lemma McpAcceptedIff(lib: Library, request: Object, policy: Policy, name: string, a: Object, task: bool)
    requires ReadsAs(request, name, a, task)
    ensures McpEvaluated(lib, request, policy).Ok? <==> GoodArguments(lib, a)
    ensures GoodArguments(lib, a) ==> McpEvaluated(lib, request, policy).value.call == ToolCall(name, a, task)
  {
    ReadsAsParses(request, name, a, task);
    var network := ActionsOf(name, a, task);
    if CapabilityActions(ToolCall(name, a, task)).Ok? {
      HostsOf(lib, a, network);
    }
  }

  predicate Classified(a: Object) {
    "command" in a || "path" in a || "url" in a || "domain" in a
  }

  /** The capabilities of an accepted request, in order. */
  lemma Projected(lib: Library, request: Object, policy: Policy, name: string, a: Object, task: bool) returns (network: seq<Action>)
    requires ReadsAs(request, name, a, task) && GoodArguments(lib, a)
    ensures IsNetworkPart(a, network) && McpEvaluated(lib, request, policy).Ok?
    ensures McpEvaluated(lib, request, policy).value.capabilities
            == Capabilities(ToolCall(name, a, task), ShellPart(a) + FilePart(a) + network)
  {
    ReadsAsParses(request, name, a, task);
    McpAcceptedIff(lib, request, policy, name, a, task);
    network := ActionsOf(name, a, task);
  }

  lemma PartsArePresent(lib: Library, a: Object, network: seq<Action>)
    requires GoodArguments(lib, a) && IsNetworkPart(a, network)
    ensures (ShellPart(a) != [] <==> "command" in a) && (FilePart(a) != [] <==> "path" in a)
    ensures network != [] <==> "url" in a || "domain" in a
    ensures forall x :: x in network ==> x.Network?
  {
  }

  lemma UnclassifiedIff(name: string, a: Object, task: bool)
    ensures Unclassified(ToolCall(name, a, task)) <==> ExtraArguments(a)
  {
  }

  // Its capabilities are those of its arguments, and `unclassified` when there are others or none.
  lemma McpCapabilitiesIff(lib: Library, request: Object, policy: Policy, name: string, a: Object, task: bool, k: string)
    requires ReadsAs(request, name, a, task) && GoodArguments(lib, a)
    ensures McpEvaluated(lib, request, policy).Ok?
    ensures k in McpEvaluated(lib, request, policy).value.capabilities
            <==> || (k == "shell" && "command" in a) || (k == "file" && "path" in a)
                 || (k == "network" && ("url" in a || "domain" in a))
                 || (k == "unclassified" && (ExtraArguments(a) || !Classified(a)))
  {
    var network := Projected(lib, request, policy, name, a, task);
    PartsArePresent(lib, a, network);
    UnclassifiedIff(name, a, task);
    var names := CapabilityNames(ToolCall(name, a, task), ShellPart(a), FilePart(a), network);
  }

  lemma CapabilityNames(call: ToolCall, shell: seq<Action>, file: seq<Action>, network: seq<Action>) returns (names: seq<string>)
    requires |shell| <= 1 && |file| <= 1 && |network| <= 1
    requires forall x :: x in shell ==> x.Shell?
    requires forall x :: x in file ==> x.File?
    requires forall x :: x in network ==> x.Network?
    ensures names == Capabilities(call, shell + file + network)
    ensures forall k :: k in names <==>
              || (k == "shell" && shell != []) || (k == "file" && file != []) || (k == "network" && network != [])
              || (k == "unclassified" && (Unclassified(call) || (shell == [] && file == [] && network == [])))
  {
    var actions := shell + file + network;
    names := Capabilities(call, actions);
    forall i | 0 <= i < |actions|
      ensures names[i] == ActionType(actions[i])
    {
    }
    if shell != [] {
      assert actions[0] == shell[0] && names[0] == "shell";
    }
    if file != [] {
      assert file[0] in file && actions[|shell|] == file[0] && names[|shell|] == "file";
    }
    if network != [] {
      assert network[0] in network && actions[|shell + file|] == network[0] && names[|shell + file|] == "network";
    }
    if Unclassified(call) || actions == [] {
      assert names[|actions|] == "unclassified";
    }
  }

  // ----- MCP calls: findings ------------------------------------------------------------------------------------

  predicate ExtraArguments(a: Object) {
    exists k :: k in a && k != "command" && k != "path" && k != "url" && k != "domain"
  }

  predicate CommandFinding(lib: Library, a: Object, rules: Rules, r: Reason) {
    Get(a, "command").Str? && ShellFinding(lib, Get(a, "command").s, rules, r)
  }

  predicate PathFinding(lib: Library, a: Object, rules: Rules, r: Reason) {
    Get(a, "path").Str? && FileFinding(lib, Get(a, "path").s, rules, r)
  }

  ghost predicate TargetFinding(lib: Library, a: Object, rules: Rules, r: Reason) {
    exists t :: OnlyTarget(a, t) && HostFinding(lib, HostOf(lib, t), rules, r)
  }

  /** The findings of a call, read off its name and arguments. */
  ghost predicate CallFinding(lib: Library, name: string, a: Object, task: bool, rules: Rules, r: Reason) {
    || ToolNameFinding(lib, name, rules, r)
    || (task && r == Reason("gateway.tasks.unsupported", WarnEffect, "task"))
    || (ExtraArguments(a) && r == Reason("gateway.arguments.unclassified", WarnEffect, "unclassified"))
    || CommandFinding(lib, a, rules, r) || PathFinding(lib, a, rules, r) || TargetFinding(lib, a, rules, r)
  }

  lemma ReasonsOfMore(lib: Library, xs: seq<Action>, y: Action, rules: Rules, before: seq<Reason>, last: seq<Reason>)
    requires before == AllActionReasons(lib, xs, rules) && last == ActionReasons(lib, y, rules)
    ensures AllActionReasons(lib, xs + [y], rules) == before + last
  {
    AllActionReasonsStep(lib, xs + [y], |xs|, rules);
    assert (xs + [y])[..|xs|] == xs && (xs + [y])[..|xs| + 1] == xs + [y];
  }

  lemma ReasonsOfOne(lib: Library, x: Action, rules: Rules)
    ensures AllActionReasons(lib, [x], rules) == ActionReasons(lib, x, rules)
  {
    assert [x][..0] == [];
  }

  lemma ReasonsWithPart(lib: Library, xs: seq<Action>, part: seq<Action>, rules: Rules)
    requires |part| <= 1
    ensures AllActionReasons(lib, xs + part, rules) == AllActionReasons(lib, xs, rules) + AllActionReasons(lib, part, rules)
  {
    if part == [] {
      assert xs + part == xs;
    } else {
      ReasonsOfMore(lib, xs, part[0], rules, AllActionReasons(lib, xs, rules), ActionReasons(lib, part[0], rules));
      ReasonsOfOne(lib, part[0], rules);
      assert part == [part[0]];
    }
  }

  lemma CommandFindings(lib: Library, a: Object, rules: Rules, r: Reason)
    ensures r in AllActionReasons(lib, ShellPart(a), rules) <==> CommandFinding(lib, a, rules, r)
  {
    if Get(a, "command").Str? {
      ReasonsOfOne(lib, Shell(Get(a, "command").s), rules);
      ShellFindings(lib, Get(a, "command").s, rules, r);
    }
  }

  lemma PathFindings(lib: Library, a: Object, rules: Rules, r: Reason)
    ensures r in AllActionReasons(lib, FilePart(a), rules) <==> PathFinding(lib, a, rules, r)
  {
    if Get(a, "path").Str? {
      ReasonsOfOne(lib, File(Get(a, "path").s), rules);
      FileFindings(lib, Get(a, "path").s, rules, r);
    }
  }

  lemma TargetFindings(lib: Library, a: Object, network: seq<Action>, rules: Rules, r: Reason)
    requires IsNetworkPart(a, network)
    ensures r in AllActionReasons(lib, network, rules) <==> TargetFinding(lib, a, rules, r)
  {
    if network != [] {
      var target := network[0].target;
      assert network == [Network(target)];
      ReasonsOfOne(lib, Network(target), rules);
      HostFindings(lib, target, rules, r);
      forall t | OnlyTarget(a, t)
        ensures t == target
      {
        OneTarget(a, t, target);
      }
    }
  }

  lemma MarkFindings(name: string, a: Object, task: bool, r: Reason)
    ensures r in GatewayMarks(ToolCall(name, a, task))
            <==> (task && r == Reason("gateway.tasks.unsupported", WarnEffect, "task"))
                 || (ExtraArguments(a) && r == Reason("gateway.arguments.unclassified", WarnEffect, "unclassified"))
  {
    UnclassifiedIff(name, a, task);
  }

  /** The reasons of an accepted request, in three parts. */
  lemma ReasonParts(lib: Library, request: Object, policy: Policy, name: string, a: Object, task: bool) returns (network: seq<Action>)
    requires ReadsAs(request, name, a, task) && GoodArguments(lib, a)
    ensures IsNetworkPart(a, network) && McpEvaluated(lib, request, policy).Ok?
    ensures McpEvaluated(lib, request, policy).value.evaluation.reasons
            == ToolNameReasons(lib, name, policy.rules) + GatewayMarks(ToolCall(name, a, task))
               + (AllActionReasons(lib, ShellPart(a), policy.rules) + AllActionReasons(lib, FilePart(a), policy.rules)
                  + AllActionReasons(lib, network, policy.rules))
    ensures McpEvaluated(lib, request, policy).value.evaluation.decision
            == DecisionFor(McpEvaluated(lib, request, policy).value.evaluation.reasons, BaseDecision(lib, name, policy))
  {
    ReadsAsParses(request, name, a, task);
    McpAcceptedIff(lib, request, policy, name, a, task);
    network := ActionsOf(name, a, task);
    ReasonsWithPart(lib, ShellPart(a), FilePart(a), policy.rules);
    ReasonsWithPart(lib, ShellPart(a) + FilePart(a), network, policy.rules);
  }

  // The reasons of an accepted request are exactly the findings of its name and of each of its arguments.
  lemma McpFindingsIff(lib: Library, request: Object, policy: Policy, name: string, a: Object, task: bool, r: Reason)
    requires ReadsAs(request, name, a, task) && GoodArguments(lib, a)
    ensures McpEvaluated(lib, request, policy).Ok?
    ensures r in McpEvaluated(lib, request, policy).value.evaluation.reasons <==> CallFinding(lib, name, a, task, policy.rules, r)
  {
    var network := ReasonParts(lib, request, policy, name, a, task);
    ToolNameFindings(lib, name, policy.rules, r);
    MarkFindings(name, a, task, r);
    CommandFindings(lib, a, policy.rules, r);
    PathFindings(lib, a, policy.rules, r);
    TargetFindings(lib, a, network, policy.rules, r);
  }

  // ----- MCP calls: decisions -----------------------------------------------------------------------------------

  predicate CommandHit(lib: Library, a: Object, patterns: seq<string>) {
    Get(a, "command").Str? && TextHit(lib, Get(a, "command").s, patterns)
  }

  predicate ArgumentPathHit(lib: Library, a: Object, patterns: seq<string>) {
    Get(a, "path").Str? && PathHit(lib, Get(a, "path").s, patterns)
  }

  ghost predicate TargetHit(lib: Library, a: Object, patterns: seq<string>) {
    exists t :: OnlyTarget(a, t) && DomainHit(lib, HostOf(lib, t), patterns)
  }

  ghost predicate TargetOffList(lib: Library, a: Object, rules: Rules) {
    exists t :: OnlyTarget(a, t) && OffList(lib, HostOf(lib, t), rules)
  }

  /** Some deny rule hits the name or an argument of the call. */
  ghost predicate DeniedCall(lib: Library, name: string, a: Object, rules: Rules) {
    || NameHit(lib, name, PatternsOf(rules, "mcp_tools", "deny_names")) || NameOffList(lib, name, rules)
    || CommandHit(lib, a, PatternsOf(rules, "shell", "deny_patterns"))
    || ArgumentPathHit(lib, a, PatternsOf(rules, "files", "deny_paths"))
    || TargetHit(lib, a, PatternsOf(rules, "network", "deny_domains"))
  }

  /** Something about the call asks for a review. */
  ghost predicate CautionedCall(lib: Library, name: string, a: Object, task: bool, rules: Rules) {
    || TextHit(lib, name, PatternsOf(rules, "mcp_tools", "warn_if_name_contains")) || task || ExtraArguments(a)
    || CommandHit(lib, a, PatternsOf(rules, "shell", "warn_patterns"))
    || ArgumentPathHit(lib, a, PatternsOf(rules, "files", "warn_paths"))
    || TargetOffList(lib, a, rules)
  }

  function EffectOf(deny: bool): Effect {
    if deny then DenyEffect else WarnEffect
  }

  lemma NameCause(lib: Library, name: string, rules: Rules, deny: bool) returns (r: Reason)
    requires if deny then NameHit(lib, name, PatternsOf(rules, "mcp_tools", "deny_names")) || NameOffList(lib, name, rules)
             else TextHit(lib, name, PatternsOf(rules, "mcp_tools", "warn_if_name_contains"))
    ensures ToolNameFinding(lib, name, rules, r) && r.effect == EffectOf(deny)
  {
    if !deny {
      var p :| p in PatternsOf(rules, "mcp_tools", "warn_if_name_contains") && TextMatches(lib.inClass, name, p);
      r := Reason("mcp_tools.warn_if_name_contains", WarnEffect, p);
    } else if NameOffList(lib, name, rules) {
      r := Reason("mcp_tools.allow_names", DenyEffect, OUTSIDE);
    } else {
      var p :| p in PatternsOf(rules, "mcp_tools", "deny_names") && NameMatches(lib.inClass, name, p);
      r := Reason("mcp_tools.deny_names", DenyEffect, p);
    }
  }

  function ShellList(deny: bool): string {
    if deny then "deny_patterns" else "warn_patterns"
  }

  lemma ShellCause(lib: Library, text: string, rules: Rules, deny: bool) returns (r: Reason)
    requires TextHit(lib, text, PatternsOf(rules, "shell", ShellList(deny)))
    ensures ShellFinding(lib, text, rules, r) && r.effect == EffectOf(deny)
  {
    var p :| p in PatternsOf(rules, "shell", ShellList(deny)) && TextMatches(lib.inClass, text, p);
    r := Reason(if deny then "shell.deny_patterns" else "shell.warn_patterns", EffectOf(deny), p);
  }

  function FileList(deny: bool): string {
    if deny then "deny_paths" else "warn_paths"
  }

  lemma FileCause(lib: Library, path: string, rules: Rules, deny: bool) returns (r: Reason)
    requires PathHit(lib, path, PatternsOf(rules, "files", FileList(deny)))
    ensures FileFinding(lib, path, rules, r) && r.effect == EffectOf(deny)
  {
    var p :| p in PatternsOf(rules, "files", FileList(deny)) && PathMatches(lib.inClass, path, p);
    r := Reason(if deny then "files.deny_paths" else "files.warn_paths", EffectOf(deny), p);
  }

  lemma HostCause(lib: Library, host: string, rules: Rules, deny: bool) returns (r: Reason)
    requires if deny then DomainHit(lib, host, PatternsOf(rules, "network", "deny_domains")) else OffList(lib, host, rules)
    ensures HostFinding(lib, host, rules, r) && r.effect == EffectOf(deny)
  {
    if deny {
      var p :| p in PatternsOf(rules, "network", "deny_domains") && DomainMatches(lib.inClass, host, p);
      r := Reason("network.deny_domains", DenyEffect, p);
    } else {
      r := Reason("network.allow_domains", WarnEffect, OUTSIDE);
    }
  }

  lemma DenyCause(lib: Library, name: string, a: Object, task: bool, rules: Rules) returns (r: Reason)
    requires DeniedCall(lib, name, a, rules)
    ensures CallFinding(lib, name, a, task, rules, r) && r.effect == DenyEffect
  {
    if NameHit(lib, name, PatternsOf(rules, "mcp_tools", "deny_names")) || NameOffList(lib, name, rules) {
      r := NameCause(lib, name, rules, true);
    } else if CommandHit(lib, a, PatternsOf(rules, "shell", "deny_patterns")) {
      r := ShellCause(lib, Get(a, "command").s, rules, true);
    } else if ArgumentPathHit(lib, a, PatternsOf(rules, "files", "deny_paths")) {
      r := FileCause(lib, Get(a, "path").s, rules, true);
    } else {
      var t :| OnlyTarget(a, t) && DomainHit(lib, HostOf(lib, t), PatternsOf(rules, "network", "deny_domains"));
      r := HostCause(lib, HostOf(lib, t), rules, true);
      assert TargetFinding(lib, a, rules, r);
    }
  }

  lemma WarnCause(lib: Library, name: string, a: Object, task: bool, rules: Rules) returns (r: Reason)
    requires CautionedCall(lib, name, a, task, rules)
    ensures CallFinding(lib, name, a, task, rules, r) && r.effect == WarnEffect
  {
    if TextHit(lib, name, PatternsOf(rules, "mcp_tools", "warn_if_name_contains")) {
      r := NameCause(lib, name, rules, false);
    } else if task {
      r := Reason("gateway.tasks.unsupported", WarnEffect, "task");
    } else if ExtraArguments(a) {
      r := Reason("gateway.arguments.unclassified", WarnEffect, "unclassified");
    } else if CommandHit(lib, a, PatternsOf(rules, "shell", "warn_patterns")) {
      r := ShellCause(lib, Get(a, "command").s, rules, false);
    } else if ArgumentPathHit(lib, a, PatternsOf(rules, "files", "warn_paths")) {
      r := FileCause(lib, Get(a, "path").s, rules, false);
    } else {
      var t :| OnlyTarget(a, t) && OffList(lib, HostOf(lib, t), rules);
      r := HostCause(lib, HostOf(lib, t), rules, false);
      assert TargetFinding(lib, a, rules, r);
    }
  }

  lemma CallIsDeniedIff(lib: Library, name: string, a: Object, task: bool, rules: Rules, reasons: seq<Reason>)
    requires forall r :: r in reasons <==> CallFinding(lib, name, a, task, rules, r)
    ensures Blocks(reasons) <==> DeniedCall(lib, name, a, rules)
  {
    if DeniedCall(lib, name, a, rules) {
      var r := DenyCause(lib, name, a, task, rules);
    }
  }

  lemma CallIsCautionedIff(lib: Library, name: string, a: Object, task: bool, rules: Rules, reasons: seq<Reason>)
    requires forall r :: r in reasons <==> CallFinding(lib, name, a, task, rules, r)
    requires !Blocks(reasons)
    ensures reasons != [] <==> CautionedCall(lib, name, a, task, rules)
  {
    if CautionedCall(lib, name, a, task, rules) {
      var r := WarnCause(lib, name, a, task, rules);
    }
    if reasons != [] {
      assert reasons[0] in reasons;
    }
  }

  // Every accepted request: denied if and only if a deny rule hits its name, command, path or host, or
  // its name is off the allow list; a warning if and only if it is not denied and a warn rule hits one of
  // these, its host is off the allow list, it is a task, or it has other arguments; otherwise allowed
  // when its name is on the allow list, and else left to the default.
  lemma McpDecisionIff(lib: Library, request: Object, policy: Policy, name: string, a: Object, task: bool)
    requires ReadsAs(request, name, a, task) && GoodArguments(lib, a)
    ensures McpEvaluated(lib, request, policy).Ok?
    ensures McpEvaluated(lib, request, policy).value.evaluation.decision
            == if DeniedCall(lib, name, a, policy.rules) then Deny
               else if CautionedCall(lib, name, a, task, policy.rules) then Warn
               else if NameHit(lib, name, PatternsOf(policy.rules, "mcp_tools", "allow_names")) then Allow
               else policy.default
  {
    var network := ReasonParts(lib, request, policy, name, a, task);
    var reasons := McpEvaluated(lib, request, policy).value.evaluation.reasons;
    forall r
      ensures r in reasons <==> CallFinding(lib, name, a, task, policy.rules, r)
    {
      McpFindingsIff(lib, request, policy, name, a, task, r);
    }
    CallIsDeniedIff(lib, name, a, task, policy.rules, reasons);
    if !Blocks(reasons) {
      CallIsCautionedIff(lib, name, a, task, policy.rules, reasons);
    }
    AnyNameHit(lib, name, PatternsOf(policy.rules, "mcp_tools", "allow_names"));
  }

  // ----- manifest entries -----------------------------------------------------------------------------------------

  predicate EntryFinding(lib: Library, e: ManifestEntry, rules: Rules, r: Reason) {
    || ToolNameFinding(lib, e.name, rules, r) || ShellFinding(lib, e.command, rules, r)
    || (From(r, rules, "mcp_tools", "deny_if_description_contains", "mcp_tools.deny_if_description_contains", DenyEffect) && TextMatches(lib.inClass, e.description, r.matched))
    || (From(r, rules, "mcp_tools", "warn_if_schema_contains", "mcp_tools.warn_if_schema_contains", WarnEffect) && TextMatches(lib.inClass, e.schema, r.matched))
  }

  lemma DocumentFindings(lib: Library, e: ManifestEntry, rules: Rules, r: Reason)
    ensures r in DocumentReasons(lib, e, rules) <==>
            || (From(r, rules, "mcp_tools", "deny_if_description_contains", "mcp_tools.deny_if_description_contains", DenyEffect) && TextMatches(lib.inClass, e.description, r.matched))
            || (From(r, rules, "mcp_tools", "warn_if_schema_contains", "mcp_tools.warn_if_schema_contains", WarnEffect) && TextMatches(lib.inClass, e.schema, r.matched))
  {
    FoundMember(lib, TextSubject(e.description), PatternsOf(rules, "mcp_tools", "deny_if_description_contains"),
                "mcp_tools.deny_if_description_contains", DenyEffect, r);
    FoundMember(lib, TextSubject(e.schema), PatternsOf(rules, "mcp_tools", "warn_if_schema_contains"),
                "mcp_tools.warn_if_schema_contains", WarnEffect, r);
  }

  lemma EntryFindings(lib: Library, e: ManifestEntry, rules: Rules, r: Reason)
    ensures r in EntryReasons(lib, e, rules) <==> EntryFinding(lib, e, rules, r)
  {
    ToolNameFindings(lib, e.name, rules, r);
    ShellFindings(lib, e.command, rules, r);
    DocumentFindings(lib, e, rules, r);
  }

  predicate DeniedEntry(lib: Library, e: ManifestEntry, rules: Rules) {
    || NameHit(lib, e.name, PatternsOf(rules, "mcp_tools", "deny_names")) || NameOffList(lib, e.name, rules)
    || TextHit(lib, e.command, PatternsOf(rules, "shell", "deny_patterns"))
    || TextHit(lib, e.description, PatternsOf(rules, "mcp_tools", "deny_if_description_contains"))
  }

  predicate CautionedEntry(lib: Library, e: ManifestEntry, rules: Rules) {
    || TextHit(lib, e.name, PatternsOf(rules, "mcp_tools", "warn_if_name_contains"))
    || TextHit(lib, e.command, PatternsOf(rules, "shell", "warn_patterns"))
    || TextHit(lib, e.schema, PatternsOf(rules, "mcp_tools", "warn_if_schema_contains"))
  }

  lemma DocumentCause(lib: Library, e: ManifestEntry, rules: Rules, deny: bool) returns (r: Reason)
    requires if deny then TextHit(lib, e.description, PatternsOf(rules, "mcp_tools", "deny_if_description_contains"))
             else TextHit(lib, e.schema, PatternsOf(rules, "mcp_tools", "warn_if_schema_contains"))
    ensures EntryFinding(lib, e, rules, r) && r.effect == EffectOf(deny)
  {
    if deny {
      var p :| p in PatternsOf(rules, "mcp_tools", "deny_if_description_contains") && TextMatches(lib.inClass, e.description, p);
      r := Reason("mcp_tools.deny_if_description_contains", DenyEffect, p);
    } else {
      var p :| p in PatternsOf(rules, "mcp_tools", "warn_if_schema_contains") && TextMatches(lib.inClass, e.schema, p);
      r := Reason("mcp_tools.warn_if_schema_contains", WarnEffect, p);
    }
  }

  lemma DenyEntryCause(lib: Library, e: ManifestEntry, rules: Rules) returns (r: Reason)
    requires DeniedEntry(lib, e, rules)
    ensures EntryFinding(lib, e, rules, r) && r.effect == DenyEffect
  {
    if NameHit(lib, e.name, PatternsOf(rules, "mcp_tools", "deny_names")) || NameOffList(lib, e.name, rules) {
      r := NameCause(lib, e.name, rules, true);
    } else if TextHit(lib, e.command, PatternsOf(rules, "shell", "deny_patterns")) {
      r := ShellCause(lib, e.command, rules, true);
    } else {
      r := DocumentCause(lib, e, rules, true);
    }
  }

  lemma WarnEntryCause(lib: Library, e: ManifestEntry, rules: Rules) returns (r: Reason)
    requires CautionedEntry(lib, e, rules)
    ensures EntryFinding(lib, e, rules, r) && r.effect == WarnEffect
  {
    if TextHit(lib, e.name, PatternsOf(rules, "mcp_tools", "warn_if_name_contains")) {
      r := NameCause(lib, e.name, rules, false);
    } else if TextHit(lib, e.command, PatternsOf(rules, "shell", "warn_patterns")) {
      r := ShellCause(lib, e.command, rules, false);
    } else {
      r := DocumentCause(lib, e, rules, false);
    }
  }

  lemma EntryIsDeniedIff(lib: Library, e: ManifestEntry, rules: Rules, reasons: seq<Reason>)
    requires forall r :: r in reasons <==> EntryFinding(lib, e, rules, r)
    ensures Blocks(reasons) <==> DeniedEntry(lib, e, rules)
  {
    if DeniedEntry(lib, e, rules) {
      var r := DenyEntryCause(lib, e, rules);
    }
  }

  lemma EntryIsCautionedIff(lib: Library, e: ManifestEntry, rules: Rules, reasons: seq<Reason>)
    requires forall r :: r in reasons <==> EntryFinding(lib, e, rules, r)
    requires !Blocks(reasons)
    ensures reasons != [] <==> CautionedEntry(lib, e, rules)
  {
    if CautionedEntry(lib, e, rules) {
      var r := WarnEntryCause(lib, e, rules);
    }
    if reasons != [] {
      assert reasons[0] in reasons;
    }
  }

  lemma {:induction false} ScannedLength(lib: Library, entries: seq<ManifestEntry>, policy: Policy)
    ensures |Scanned(lib, entries, policy)| == |entries|
  {
    if entries != [] {
      ScannedLength(lib, entries[..|entries| - 1], policy);
    }
  }

  lemma {:induction false} ScannedAt(lib: Library, entries: seq<ManifestEntry>, policy: Policy, i: nat, at: Evaluation)
    requires i < |entries| && at == ScannedEntry(lib, entries[i], policy)
    ensures i < |Scanned(lib, entries, policy)| && Scanned(lib, entries, policy)[i] == at
  {
    ScannedLength(lib, entries, policy);
    var init := entries[..|entries| - 1];
    ScannedLength(lib, init, policy);
    if i < |init| {
      ScannedAt(lib, init, policy, i, at);
    }
  }

  // Every entry of a scanned manifest: its reasons are exactly the findings of its name, command,
  // description and schema, and they decide with the same precedence.
  lemma ManifestDecisionIff(lib: Library, entries: seq<ManifestEntry>, policy: Policy, i: nat)
    requires i < |entries|
    ensures var scanned, e := Scanned(lib, entries, policy), entries[i];
            && |scanned| == |entries|
            && (forall r :: r in scanned[i].reasons <==> EntryFinding(lib, e, policy.rules, r))
            && scanned[i].decision
               == if DeniedEntry(lib, e, policy.rules) then Deny
                  else if CautionedEntry(lib, e, policy.rules) then Warn
                  else if NameHit(lib, e.name, PatternsOf(policy.rules, "mcp_tools", "allow_names")) then Allow
                  else policy.default
  {
    var e := entries[i];
    var reasons := EntryReasons(lib, e, policy.rules);
    ScannedLength(lib, entries, policy);
    ScannedAt(lib, entries, policy, i, ScannedEntry(lib, e, policy));
    forall r
      ensures r in reasons <==> EntryFinding(lib, e, policy.rules, r)
    {
      EntryFindings(lib, e, policy.rules, r);
    }
    EntryIsDeniedIff(lib, e, policy.rules, reasons);
    if !Blocks(reasons) {
      EntryIsCautionedIff(lib, e, policy.rules, reasons);
    }
    AnyNameHit(lib, e.name, PatternsOf(policy.rules, "mcp_tools", "allow_names"));
  }
}
