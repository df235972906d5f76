# PolicyLatch, verified

A Dafny model of the parts of PolicyLatch that decide: the pattern language and the policy
evaluators, policy inheritance with provenance, the lint rule about shadowed warnings, the
append-only journal with its cumulative budgets, scoped approvals and session grants, the stdio
gateway session with its post-flight response scan, the bounded reader and writer around the
upstream process, the unified-diff parser, and the workspace traversal. `dafny verify dfyconfig.toml`
checks all of it.

Where the source updates state step by step, the model has a class or a method with loops, proved
equal to a function of its inputs or old state; the theorems are about those functions. Where the
source computes values, the model has datatypes and functions.

| file | what it holds |
|---|---|
| `Basics.dfy`, `Json.dfy`, `Models.dfy` | shared vocabulary, JSON values with fingerprints, decisions |
| `Matching.dfy`, `GlobLanguage.dfy` | globs, and what text, name, path and domain patterns accept |
| `Evaluator.dfy`, `Decisions.dfy` | the three evaluators, and what they find and decide, read off their inputs |
| `GlobInclusion.dfy`, `Lint.dfy`, `LintFailures.dfy` | deciding inclusion of globs; the shadowed-warning rule, exactly when it is right, and where it is wrong |
| `Inheritance.dfy`, `PolicyLoading.dfy` | recursive includes, in-place merging, provenance, budgets of the resolver; exactly which policies load |
| `Journal.dfy`, `JournalFile.dfy`, `JournalFormat.dfy` | records with duplicate links; the same journal as bytes with torn writes; which bytes are a journal |
| `Budgets.dfy`, `BudgetDecisions.dfy`, `BudgetTheorems.dfy`, `BudgetCap.dfy` | the sliding-window check, what it charges and decides, its monotonicity, the cap over all interleavings |
| `Approval.dfy`, `ApprovalLines.dfy`, `Grants.dfy` | what an approval scope binds; which lines approve; the grant store and the terminal prompt |
| `Response.dfy`, `ResponseFindings.dfy` | the tool-result scanner, runtime responses, the receipt; what is found where |
| `Gateway.dfy`, `GatewayRuns.dfy`, `GatewayTheorems.dfy`, `GatewayAccounts.dfy` | the session object, lawful logs, safety over all runs, accounting and correlation |
| `GatewayForwarding.dfy`, `GatewayDecisions.dfy`, `GatewayMessages.dfy` | exactly which calls and control messages go upstream, and what the client reads |
| `GatewayAborts.dfy`, `GatewayExamples.dfy` | exactly which rounds end by exception; concrete sessions |
| `Pipes.dfy` | the line reader as interleaved threads, the bounded write loop |
| `GitDiff.dfy`, `GitDiffMeaning.dfy`, `GitDiffRoundTrip.dfy`, `GitDiffPaths.dfy`, `GitDiffCrashes.dfy` | the diff parser, exactly what it accepts and reports, its inverse, its paths, exactly when it crashes |
| `Workspace.dfy`, `WorkspaceTheorems.dfy`, `WorkspaceMeaning.dfy` | the stack traversal, what it returns and exactly which trees it accepts |

## Conventions

- SHA-256 over canonical JSON is an injective constructor (`Digest`); a contract label and a value
  determine a fingerprint. Text is ASCII, so `lower`, `casefold`, characters and UTF-8 bytes agree.
- Timestamps are integers (seconds, microseconds where a window is compared), impacts and the
  monotonic clock are reals. Floating-point rounding of impact sums is not modelled.
- What the operator, the upstream, the client, the clock and the streams do is an input of each
  step, unconstrained. A session may return a summary, stop after one protocol error, or end by
  exception.
- Functions of libraries are parameters: bracket classes of `fnmatch`, URL host names, regular
  expressions of the scanner, `shlex.split`, JSON reading and writing. Theorems hold for all of them
  or say what they need (`GoodShell`, `GoodCodec`, `Deployed`). A journal codec names the records it
  can write and an append of any other record is refused; `GoodCodecsExist` gives a good codec for
  every list of records, and `SuchSessionsExist` a gateway deployment for every policy. What an encoder
  refuses, such as lone surrogates, is a predicate (`encodable`), shared by gateway and scanner.

## Where code and documentation differ

The model follows the code.

- `docs/gateway-threat-model.md:134` promises a protocol error for invalid and unsupported requests, and
  `docs/gateway.md:108-112` that an unknown method or malformed output closes the session. Five kinds of
  rounds leave the session by an exception instead, without a summary and without a reply: a `tools/call` that
  `evaluate_mcp_request` rejects, a control message whose method is a list or an object, a tool
  response with a URL such as `http://[x`, on which `urlparse` raises, a message whose id is a string with a
  lone surrogate, whatever else it says, and an answer to a control message that holds a lone surrogate: the
  last two are accepted by the JSON parser and then cannot be written as UTF-8
  (`src/policylatch/runtime_gateway.py:291`). These and no others end a round by exception, for every
  line, answer and write (`RoundAbortsIff`, `DeployedRoundAbortsIff`, `SessionRaisesIff`,
  `DeployedSessionRaisesIff`, with the sessions `MissingParamsRaises`, `ListMethodRaises`,
  `UnreadableLinkRaises`, `LoneIdRaises` and `LoneAnswerRaises`).
- Response ids are compared with Python's `==`, so a response with id `true` or `1.0` passes as the
  answer to request `1` (`CorrelationIsExactIff`, `BooleanIdPassesAsOne`).
- A grant for a withheld response names the whole response, its id included, and ids are used once:
  it can only ever be used again by a request whose id is null (`ResponseGrantsBind`), and there it is
  (`LiveGrantReleases`, `GrantReleasesTheNextAnswer`).
- `docs/gateway-threat-model.md:99` lists unclassified requests as never forwarded. In the code they are
  warnings: one is forwarded exactly when nothing denies it, it is not task-augmented, its approval
  request can be built, and an operator's line or a live grant authorises it
  (`UnclassifiedCallsAreNeverAllowed`, `UnclassifiedIsForwardedIff`, `UnclassifiedCallIsForwarded`).
- The budget cap over concurrent clients needs timestamps that are not backdated within a window,
  and exactly that (`CapIffNoInversion`); `journal-append --at` (`src/policylatch/cli.py:324`) lets a client supply any time.
- `policy-lint` calls a reported warning always superseded. Deleting the reported warnings changes no
  decision if and only if each of them is included, as a glob, in the deny patterns and the warnings
  that stay, or the default is `warn` anyway (`DeletionKeepsActionsIff`, `DeletionKeepsManifestsIff`,
  `DeletionKeepsGatewayIff`); the inclusion is decided by a search (`IncludedIff`). It fails for a star
  block with blanks around it (`StarRuleIsRightIffUnpadded`, `PaddedStarReportLosesAWarning`) and can fail
  where a block is cut out of a bracket class (`BracketReportLosesAWarning`). A plain block covers a
  shell warning under every meaning of bracket classes if and only if it stands in the glob literally
  (`PlainBlockCoversIff`); otherwise it depends on what the classes admit
  (`BracketedWarningIsNotCovered`, `SelfBracketIsCovered`).
- The diff parser refuses by an error of its own, except that it leaves by an IndexError when a change's
  path is `.` and by the ValueError of `int()` when a hunk count has more than 4300 digits, each exactly
  when nothing before it is refused (`DiffCrashesIff`, `SectionCrashesIff`, `OversizedCountCrashes`,
  `DotPathCrashes`).
- Of several `---` or `+++` lines of one section only the last counts, so an earlier one may name another
  path than the header (`EarlierFileLineIsForgotten`); the last ones may not (`SectionReads`).

## Model

| member | source | states |
|---|---|---|
| Json.FingerprintInjective | src/policylatch/approval.py:24-29 | equal fingerprints have equal contract labels and equal values |
| Matching.ContainedPatternMatches | src/policylatch/matching.py:8-13 | a pattern written inside another matches every text the longer one matches, wildcards included |
| Matching.DoubleStarMeansAnyDirectories | src/policylatch/matching.py:21-31 | a pattern starting with a double star and a slash matches exactly when the rest matches from the start or just after a separator |
| Matching.DoubleStarRespectsSegments | src/policylatch/matching.py:21-31 | such a pattern for a literal segment and a rest matches exactly the paths that hold the whole segment, after a separator, before a match of the rest |
| Matching.DoubleStarNamesLastSegment | src/policylatch/matching.py:21-31 | such a pattern that ends in the literal name matches exactly the paths that end in it as whole segments |
| GlobLanguage.MatchIff | src/policylatch/matching.py:8-35 | a text belongs to a token list if and only if it can be cut into one part per token: anything for a star, one character for a question mark or a class that admits it, itself for a literal |
| GlobLanguage.ClassEndsAtFirst | src/policylatch/matching.py:8-35 | a bracket class ends at the first closing bracket after a body that is not empty, and without one the bracket is literal |
| GlobLanguage.TextMatchesIff | src/policylatch/matching.py:8-13 | a text pattern matches if and only if some stretch of the folded text belongs to it as a glob, or, without wildcards, is the folded pattern itself |
| GlobLanguage.FoldingIff | src/policylatch/matching.py:8-35 | folding turns each capital into its small letter and leaves the rest alone; in a path it also turns backslashes into slashes |
| GlobLanguage.PlainNameMatchesIff | src/policylatch/matching.py:16-18 | a name pattern without pattern characters matches exactly the whole name, whatever the case |
| GlobLanguage.PlainPathMatchesIff | src/policylatch/matching.py:21-31 | a path pattern without pattern characters matches exactly that path, whatever case and separators, and with a slash and a star after it exactly what lies below |
| GlobLanguage.PlainDomainMatchesIff | src/policylatch/matching.py:34-35 | a domain pattern without pattern characters matches exactly that domain, whatever case and trailing dots |
| GlobLanguage.SubdomainsMatchIff | src/policylatch/matching.py:34-35 | with a star and a dot before it, it matches exactly the domains below it |
| GlobInclusion.IncludedIff | src/policylatch/matching.py:8-31 | the search over what is left of globs succeeds exactly when every text of the alphabet and shapes that one glob matches is matched by one of a list |
| Evaluator.EvaluateAction | src/policylatch/evaluator.py:40-93 | the collecting loops give one reason per matching pattern, deny before warn, and the error of a missing host |
| Evaluator.ShellDecision | src/policylatch/models.py:42-47 | deny on any deny match, else warn on any warn match, else the default |
| Evaluator.FileDecision | src/policylatch/evaluator.py:26-37 | the same precedence for paths |
| Evaluator.TwoListDecision | src/policylatch/models.py:42-47 | how a deny and a warn list decide among any other reasons |
| Evaluator.ScanManifest | src/policylatch/scanners.py:12-62 | one evaluation per manifest entry, in order, name, command, description and schema rules included |
| Evaluator.EvaluateMcpRequest | src/policylatch/gateway.py:133-176 | the result or the input error of a whole request, capability by capability |
| Evaluator.TaskCallsAreNeverAllowed | src/policylatch/gateway.py:133-160 | a task-augmented call always carries the non-approvable mark and is never allowed |
| Evaluator.UnclassifiedCallsAreNeverAllowed | src/policylatch/gateway.py:137-170 | a call with arguments no capability covers is denied when a deny rule hits, and a warning otherwise |
| Decisions.NetworkDecision | src/policylatch/evaluator.py:77-110 | for a target with a host: deny exactly when a deny_domains pattern matches the folded host, else warn exactly when there is an allow list without a match, else the default; without a host the error |
| Decisions.AcceptedReadsAs | src/policylatch/gateway.py:55-90 | every accepted request has the shape of a tools/call with a name, arguments and perhaps a task |
| Decisions.BlankIff | src/policylatch/gateway.py:72-102 | a name, a command or a path is refused as blank if and only if nothing is left of it when it is stripped |
| Decisions.StripCuts | src/policylatch/gateway.py:72-102 | stripping takes away the blanks at both ends and nothing else |
| Decisions.McpAcceptedIff | src/policylatch/gateway.py:93-130 | a request of that shape is accepted, as that call, if and only if command and path are texts and url and domain give one target with a host |
| Decisions.McpCapabilitiesIff | src/policylatch/gateway.py:137-175 | its capabilities are exactly those of the arguments it has, and unclassified when it has others or none |
| Decisions.McpFindingsIff | src/policylatch/gateway.py:133-164 | its reasons are exactly the findings of its name, its command, its path and its host, each with the rule and pattern that hit, and the marks of tasks and other arguments |
| Decisions.McpDecisionIff | src/policylatch/gateway.py:133-168 | deny if and only if a deny rule hits its name, command, path or host or its name is off the allow list; else warn if and only if something cautions about it; else allow a listed name; else the default |
| Decisions.ManifestDecisionIff | src/policylatch/scanners.py:12-62 | the same for every manifest entry, over its name, command, description and schema, findings included |
| Lint.LintShadowedWarnings | src/policylatch/policy_tooling.py:182-205 | the nested loops report exactly the shadowed warnings of both sections, in order |
| Lint.ReportedIff | src/policylatch/policy_tooling.py:182-205 | reported are exactly the shell warnings in which some block is written and the path warnings equal to some block or next to a star block, each under its own location |
| Lint.DeletedIsReported | src/policylatch/policy_tooling.py:182-205 | the warnings deleted in the theorems below are exactly the reported ones |
| Lint.WarningIncludedIff | src/policylatch/matching.py:8-13 | for any meaning of classes the search decides whether every ASCII text one pattern matches is matched by another of a list |
| Lint.CoveredReportsIff | src/policylatch/policy_tooling.py:182-205 | the check of a policy succeeds exactly when no valid action is caught by a reported warning alone |
| Lint.CleanReportsAreCovered | src/policylatch/policy_tooling.py:189-205 | reports without bracket classes and with bare or equal path blocks are always covered, so the check succeeds on them |
| Lint.DeletionKeepsActionDecision | src/policylatch/policy_tooling.py:189-205 | deleting every reported warning keeps the decision of evaluate_action when the reports are covered, by the search or by their syntax |
| Lint.DeletionKeepsActionsIff | src/policylatch/policy_tooling.py:189-205 | it keeps the decisions of all valid actions if and only if the default is warn or the reports are covered |
| Lint.DeletionKeepsManifestDecision | src/policylatch/policy_tooling.py:189-205 | the same for scan_manifest, whose entries have no command or a trimmed one |
| Lint.DeletionKeepsManifestsIff | src/policylatch/policy_tooling.py:189-205 | for each entry, over all commands: harmless if and only if other rules or the fallback hide the loss or the reports are covered |
| Lint.DeletionKeepsGatewayDecision | src/policylatch/policy_tooling.py:189-205 | the same for every result or error of evaluate_mcp_request |
| Lint.DeletionKeepsGatewayIff | src/policylatch/policy_tooling.py:189-205 | for each tool name, over all its requests: harmless if and only if the name's rules hide the loss or the reports are covered |
| LintFailures.StarRuleIsRightIffUnpadded | src/policylatch/policy_tooling.py:194-197 | a star block covers every path warning if and only if it has no blanks around it |
| LintFailures.PaddedStarReportLosesAWarning | src/policylatch/policy_tooling.py:194-197 | a policy where deleting the reported warning turns warn into allow |
| LintFailures.BracketReportLosesAWarning | src/policylatch/policy_tooling.py:191 | the same for a shell warning with a bracket class |
| LintFailures.PlainBlockCoversIff | src/policylatch/policy_tooling.py:191 | a plain block covers a warning glob for every meaning of classes if and only if it stands there as consecutive literal characters |
| LintFailures.BracketedWarningIsNotCovered | src/policylatch/policy_tooling.py:191 | a block that spells out a class is reported, never stands literally, and so under some meaning of classes misses an ASCII text the warning catches |
| LintFailures.SelfBracketIsCovered | src/policylatch/policy_tooling.py:191 | under another meaning such a block does cover: a class that admits only the bracket it is written with |
| Inheritance.PolicyDocument.Merge | src/policylatch/policy.py:204-219 | the in-place merge of one overlay, sources and labels included |
| Inheritance.PolicyDocument.MergeResolved | src/policylatch/policy.py:222-245 | the in-place merge of a resolved policy |
| Inheritance.MergeOfFolds | src/policylatch/policy.py:222-245 | merging a resolved policy equals applying its layers one by one |
| Inheritance.LoadProfile | src/policylatch/policy.py:248-258 | a profile resolves to its single layer |
| Inheritance.ResolveFile | src/policylatch/policy.py:281-320 | succeeds exactly when the includes unfold within depth, files and bytes without meeting the stack, and then holds the fold of the post-order layers |
| Inheritance.LoadPolicy | src/policylatch/policy.py:323-330 | succeeds exactly on loadable policies, with the flat fold as content |
| PolicyLoading.LoadableIff | src/policylatch/policy.py:281-330 | a policy loads if and only if every chain of its includes has at most eight files and ends at a readable one, at most sixteen files are read, and they are at most 4 MiB |
| PolicyLoading.LoadedFromLayers | src/policylatch/policy.py:281-320 | a policy that loads is the fold of its layers: of each file the profile, the includes from left to right, then its own fields |
| Inheritance.InheritanceIsLastWriterWins | src/policylatch/policy.py:281-320 | every rule list, budget and the default come from the last layer that defines them |
| Inheritance.LoadableMeansShallowAndAcyclic | src/policylatch/policy.py:289-293 | a policy that loads has no include chain longer than eight files and none that repeats a file |
| Inheritance.ProvenanceIsTrue | src/policylatch/policy.py:204-217 | exactly the resolved keys have a source, and that source itself defines the key with that value |
| Inheritance.DefaultProvenanceIsTrue | src/policylatch/policy.py:206-208 | likewise for the default decision |
| Inheritance.SourcesAreFirstOccurrences | src/policylatch/policy.py:218-245 | the recorded sources are the layers' sources, each once, in order of first occurrence |
| Inheritance.FoldIsLastWriter | src/policylatch/policy.py:204-219 | what a fold holds for a key is what its last defining layer says |
| Journal.PriorDuplicate | src/policylatch/journal.py:207-228 | the loop and max give the first of the latest matches |
| Journal.PriorIsLatestMatch | src/policylatch/journal.py:207-228 | that record matches, none is later, and none as late comes before it |
| Journal.JournalEntryFromReport | src/policylatch/journal.py:239-293 | the new record or the refusal for every report, stage, time and window |
| Journal.EveryRunIsGood | src/policylatch/journal.py:296-317 | after any sequence of appends event ids are distinct and every link names the latest match before it |
| Journal.LinksGoBack | src/policylatch/journal.py:265-292 | a link leads to exactly one record: earlier, same request, not later in time, inside the window, the latest such |
| Journal.NoLinkNoMatch | src/policylatch/journal.py:265-292 | a record without a link had no match in its window |
| Journal.LinkIff | src/policylatch/journal.py:207-228 | an appended record is marked a duplicate if and only if an earlier one of the request is at most a window old and for the same action as far as known, and it names the latest of these |
| Journal.AppendIsRefusedIff | src/policylatch/journal.py:239-311 | an append is refused if and only if its window, evaluator or facts are bad, the journal is full, or the same event is there; otherwise it adds one record with what the report says |
| Journal.EveryRecordHasItsCall | src/policylatch/journal.py:276-293 | the records of any run are, one by one and in order, what the calls that were not refused reported, decision, policy and rules included |
| JournalFile.JournalOnDisk.Load | src/policylatch/journal.py:168-204 | the reading loop accepts exactly whole, valid, bounded lines and returns their records |
| JournalFile.JournalOnDisk.Append | src/policylatch/journal.py:296-348 | one append: the bytes that reach the file, success only for a whole, synced line, nothing written for a record without JSON text |
| JournalFormat.LoadedIff | src/policylatch/journal.py:168-204 | a file loads as these records if and only if it is at most 16 MiB of whole lines of at most 64 KiB, one for each of at most ten thousand records, in order |
| JournalFormat.AppendIsWrittenIff | src/policylatch/journal.py:296-335 | an append writes a record if and only if the file loads, the journal takes the record, and its line has room in both bounds |
| JournalFile.TornAppend | src/policylatch/journal.py:308-348 | whatever prefix of the line is written, the next load gives the old records, the old records plus the new one, or a refusal |
| JournalFile.TornFirstAppend | src/policylatch/journal.py:308-348 | the same for the append that creates the file |
| JournalFile.TornStaysTorn | src/policylatch/journal.py:191-192 | after a torn line every later append refuses and the file stays as it is |
| JournalFile.CompletedAppend | src/policylatch/journal.py:308-348 | a completed append loads back as the old records and the new one, within all three bounds |
| JournalFile.HistoryIsARunOrRefused | src/policylatch/journal.py:296-348 | any history of complete and torn appends loads as the run of exactly the completed ones, or not at all |
| Budgets.FingerprintFixesFacts | src/policylatch/budgets.py:30-68 | equal action fingerprints mean equal identities and equal budget facts |
| Budgets.CollectCandidates | src/policylatch/budgets.py:205-245 | the loop with its break and continue order: the first obstacle, or exactly the counted records |
| Budgets.EvaluateBudget | src/policylatch/budgets.py:200-302 | the row of one budget: unknown, exceeded or within, with its usage |
| Budgets.BudgetCheck | src/policylatch/budgets.py:115-330 | the whole check: refusals, rows of the applicable budgets, or not applicable |
| BudgetTheorems.UnknownExactlyWhen | src/policylatch/budgets.py:209-278 | a row is unknown exactly when the action is unconfirmed, a record in the window violates a needed dimension, or a counted one lacks the metric |
| BudgetTheorems.FirstPerActionIsOneEach | src/policylatch/budgets.py:234-244 | without duplicates one reservation per action is counted, the first of each |
| BudgetTheorems.DistinctCallCount | src/policylatch/budgets.py:234-255 | so the call count is the number of distinct actions |
| BudgetTheorems.RowNeverRelaxes | src/policylatch/budgets.py:247-302 | appending records keeps or raises one budget's usage, status and decision |
| BudgetTheorems.SeverityNeverRelaxes | src/policylatch/budgets.py:197-320 | and every row and the overall decision of a reservation's check |
| BudgetTheorems.RunOpsGood | src/policylatch/budgets.py:181-195 | in every interleaving an allowed event was in the journal when its check allowed it |
| BudgetDecisions.FactsAreDeclared | src/policylatch/budgets.py:44-68 | the facts of an action are those it declares, with exactly one payload size by the two byte limits |
| BudgetDecisions.TargetsAndToolsAreNamed | src/policylatch/budgets.py:58-67 | two actions share a target or a tool if and only if they name the same one |
| BudgetDecisions.BudgetRowReports | src/policylatch/budgets.py:200-302 | a row is unknown and denied exactly when a fact is missing; otherwise exceeded exactly when the charged reservations of the window come to more than the limit, and then denied or warned about as the budget says, else allowed |
| BudgetDecisions.CheckDecisionIff | src/policylatch/budgets.py:189-330 | deny if and only if some budget of the action type is unknown or is a deny budget over its limit; warn if and only if not and a warn budget is over its limit; else allow; one row per such budget, in order |
| BudgetDecisions.CheckIsRefusedIff | src/policylatch/budgets.py:115-187 | there is no check, and so a denial, if and only if the policy differs, the journal cannot be read or changed meanwhile, or no proposed reservation of that receipt has the id |
| BudgetCap.WindowCap | src/policylatch/budgets.py:197-309 | over every interleaving, the allowed reservations in any closed window stay within the limit, for all metrics, per tool, payload classes and distinct actions |
| BudgetCap.HonestRecordsAgree | src/policylatch/budgets.py:44-68 | reservations whose facts were computed from their actions agree on every metric, as the distinct-action cap needs |
| BudgetCap.HonestClients | src/policylatch/budgets.py:44-68 | clients that journal an action's own facts keep the whole journal honest |
| BudgetCap.TwoImpactsBreakTheCap | src/policylatch/budgets.py:234-244 | one action journalled with a lower and then a higher impact exceeds a distinct-action budget, with orderly timestamps |
| BudgetCap.CapIffImpactsAgree | src/policylatch/budgets.py:234-255 | two sets of facts for one action keep every impact budget capped if and only if they name the same impact |
| BudgetCap.InversionBreaksTheCap | src/policylatch/budgets.py:198-214 | for any timestamps backdated within a window some run exceeds a budget |
| BudgetCap.CapIffNoInversion | src/policylatch/budgets.py:198-214 | timestamps protect every budget of a window length if and only if none is backdated within it |
| Approval.CallScopeBinds | src/policylatch/approval.py:69-83 | equal pre-flight scopes mean equal upstream, policy, tool, capabilities and complete params |
| Approval.ResultScopeBinds | src/policylatch/approval.py:128-143 | equal post-flight scopes also mean the same response and the same receipt |
| Approval.ScopesAreSeparate | src/policylatch/approval.py:83-143 | a pre-flight scope is never a post-flight scope |
| Approval.CallRequestIff | src/policylatch/approval.py:53-99 | a call can be asked about if and only if it is a warning, no reason says tasks are unsupported, timeout and provenance are in order, and its parameters and name can be encoded; what the operator is shown |
| Approval.ReleaseRequestIff | src/policylatch/approval.py:102-166 | a release can be asked for if and only if the response is not clean and its fingerprints, timeout and provenance are in order; only a review can be granted |
| Approval.OnlyExactLinesApprove | src/policylatch/approval.py:169-213 | only `approve` and a grant within 300 seconds and 20 uses approve; every other line denies or is invalid |
| ApprovalLines.WordsIff | src/policylatch/approval.py:345-366 | the words of a line are exactly those it is made of, with blanks between and around them |
| ApprovalLines.PyIntIff | src/policylatch/approval.py:352-357 | a word is a number if and only if it is digits with single underscores between them, perhaps with a sign, and has the value of its digits |
| ApprovalLines.ApprovesOnceIff | src/policylatch/approval.py:324-366 | a line approves once if and only if it says just approve, whatever case and blanks |
| ApprovalLines.GrantReadsBack | src/policylatch/approval.py:345-366 | a line that writes out a grant is read as that time and number of uses, or is invalid when one is out of bounds |
| ApprovalLines.OtherLinesDeny | src/policylatch/approval.py:345-366 | every other line is a denial, unless it is a grant of two numbers |
| ApprovalLines.ResponseIsAcceptedIff | src/policylatch/approval.py:169-213 | a response document is accepted if and only if it has exactly the five fields, names the pending request, and denies, approves once, or approves with a grant within its bounds |
| Grants.SessionGrantStore.Consume | src/policylatch/approval.py:226-236 | succeeds exactly on a live grant and counts it down, dropping it at zero or when expired |
| Grants.SessionGrantStore.Add | src/policylatch/approval.py:238-249 | stores the grant with its expiry |
| Grants.TerminalApprovalProvider.Authorize | src/policylatch/approval.py:292-322 | outcome and new state of one authorisation, for every line, timeout and clock reading |
| Grants.StoreIsExplained | src/policylatch/approval.py:222-249 | every stored grant goes back to an explicit grant and holds what is left of it, 1 to 20 uses |
| Grants.ReuseGoesBackToAGrant | src/policylatch/approval.py:292-322 | a session grant authorises only the scope of an earlier explicit grant, before it expires and within its uses |
| Grants.GrantedUsesAreConserved | src/policylatch/approval.py:222-249 | per scope: uses granted equal uses consumed plus remaining plus lost to expiry |
| Grants.LiveCountsArePositive | src/policylatch/approval.py:226-249 | stored counts stay within 1 and 20 |
| Grants.AddNeverOverwrites | src/policylatch/approval.py:293-321 | a grant is only added after the consume left nothing under its scope |
| Grants.ClosedPromptOnlyReuses | src/policylatch/approval.py:294-304 | once the prompt is closed only grants authorise |
| Response.CollectFindings | src/policylatch/result_scanner.py:153-229 | the scanner's loops, with the seen keys never suppressing a finding, or the exception of urlparse |
| Response.ScanToolResult | src/policylatch/result_scanner.py:148-271 | the report, the refusal or the exception for every tool result |
| Response.UnreadableUrlIff | src/policylatch/result_scanner.py:217-218 | a response has neither report nor refusal exactly when it is fit to scan and urlparse raises on a URL of its text |
| Response.ResponseOutcome | src/policylatch/result_scanner.py:231-237 | a response blocks on suspicious text, asks for review on a URL, and is clean otherwise |
| Response.ReceiptFixesOutcome | src/policylatch/receipts.py:125-150 | equal receipt fingerprints mean equal outcomes |
| Response.ResultFixesResponse | src/policylatch/runtime_response.py:39-50 | equal result fingerprints mean the same response, id included |
| ResponseFindings.FindingsIff | src/policylatch/result_scanner.py:181-229 | the findings are exactly the personal field names, the texts of content and fields that smuggle, direct or leak, and the URLs outside the declared domains, each at its place |
| ResponseFindings.RefusedIff | src/policylatch/result_scanner.py:77-118 | a result is refused if and only if one of its names, bounds, lines, fields or expected domains does not fit |
| ResponseFindings.ReportedRulesIff | src/policylatch/result_scanner.py:181-229 | the rules a report names are exactly those of its findings |
| ResponseFindings.ToolResultOutcome | src/policylatch/result_scanner.py:231-237 | for any result, fields included: block when some text smuggles, directs or leaks; else review on an outside URL or a personal field name; else clean |
| ResponseFindings.ResponseOutcomeByText | src/policylatch/runtime_response.py:20-50 | a response is judged by the JSON text of its one result or error, with no domain expected |
| ResponseFindings.ResponseRefusedIff | src/policylatch/runtime_response.py:20-50 | a response is unfit if and only if the call has no usable name, it has not exactly one result or error, or that has no bounded text or cannot be fingerprinted |
| Gateway.GatewaySession.JudgeCall | src/policylatch/runtime_gateway.py:470-499 | the pre-flight decision of a call: approval request, authorisation, counters |
| Gateway.GatewaySession.JudgeResponse | src/policylatch/runtime_gateway.py:540-574 | the post-flight decision of a response |
| Gateway.GatewaySession.AwaitAnswer | src/policylatch/runtime_gateway.py:530-577 | correlation, initialize check, scan, and the write or the withholding |
| Gateway.GatewaySession.Forward | src/policylatch/runtime_gateway.py:519-529 | the write upstream and what follows it |
| Gateway.GatewaySession.HandleCall | src/policylatch/runtime_gateway.py:461-513 | one tools/call |
| Gateway.GatewaySession.HandleControl | src/policylatch/runtime_gateway.py:515-517 | one control message, by the lifecycle rules |
| Gateway.GatewaySession.Handle | src/policylatch/runtime_gateway.py:451-517 | one client line |
| Gateway.GatewaySession.Step | src/policylatch/runtime_gateway.py:446-586 | one round of the loop with its error handler |
| Gateway.GatewaySession.Serve | src/policylatch/runtime_gateway.py:421-599 | the whole session: returned summary or exception |
| GatewayRuns.EveryRunIsSound | src/policylatch/runtime_gateway.py:446-588 | every log of every run is lawful event by event, and the fields say what the streams show |
| GatewayTheorems.PhaseOnlyMovesForward | src/policylatch/runtime_gateway.py:227-251 | the lifecycle only moves new, initialized, ready |
| GatewayTheorems.ToolsNeedTheWholeLifecycle | src/policylatch/runtime_gateway.py:461-577 | before a tools/call or tools/list goes upstream, an initialize request with the protocol revision, capabilities and client information was forwarded, an answer with that revision and capabilities relayed for it, and then the initialized notification forwarded |
| GatewayTheorems.ForwardedCallsWerePermitted | src/policylatch/runtime_gateway.py:461-525 | a call goes upstream only when ready, never denied or task-augmented, and on a warning only right after approval of that very call |
| GatewayTheorems.RelayedResponsesWereCleared | src/policylatch/runtime_gateway.py:530-577 | a tool response goes to the client only when clean or right after approval of that very response |
| GatewayTheorems.LateResponsesWereCleared | src/policylatch/runtime_gateway.py:254-284 | a response that an unfinished write may still deliver was cleared in the same way |
| GatewayTheorems.CallGrantsBind | src/policylatch/approval.py:69-83 | in every run a call let through by a grant has the tool and the complete params of an earlier granted call |
| GatewayTheorems.ResponseGrantsBind | src/policylatch/approval.py:133-144 | a response released by a grant was granted identically before, is never block-next-step, and answers a request with id null |
| GatewayTheorems.GrantsStayOnTheirSide | src/policylatch/approval.py:75-144 | a pre-flight grant never releases a response, nor the reverse |
| GatewayTheorems.NoIdIsHandledTwice | src/policylatch/runtime_gateway.py:454-459 | no non-null id is forwarded or blocked twice |
| GatewayTheorems.MalformedCallsEndTheSession | src/policylatch/runtime_gateway.py:470-578 | a call whose evaluation raises an input error ends the session by exception, and its receipt is the last event |
| GatewayForwarding.CallIsForwardedIff | src/policylatch/runtime_gateway.py:461-525 | an admitted call is written upstream if and only if the upstream takes it and it is allowed, or a warning that someone authorises |
| GatewayForwarding.AuthorizedIff | src/policylatch/approval.py:292-322 | any request is authorised if and only if a live grant covers it, or at an open prompt the operator approves it once or, where grants are allowed, grants uses of it |
| GatewayForwarding.OnlyTasksAreNonApprovable | src/policylatch/runtime_gateway.py:481-490 | the non-approvable mark stands among the reasons of exactly the task-augmented calls |
| GatewayForwarding.UnclassifiedIsForwardedIff | src/policylatch/runtime_gateway.py:470-525 | an unclassified call is forwarded if and only if nothing denies it, it is no task, its request can be built, and an approving line or a live grant answers it |
| GatewayForwarding.SameResponseSameScope | src/policylatch/approval.py:102-144 | the same response to equal params has the same report and the same release request |
| GatewayForwarding.LiveGrantReleases | src/policylatch/runtime_gateway.py:533-577 | while a release grant is live the identical response to equal params goes to the client, on that grant |
| GatewayMessages.BadLinesStop | src/policylatch/runtime_gateway.py:189-224 | a line that is no JSON object, or whose id is of another type or was used before, ends the session with one protocol error and at most a note; nothing is asked or goes upstream |
| GatewayMessages.SeenIsHeard | src/policylatch/runtime_gateway.py:454-459 | in every running session an id counts as used if and only if an earlier line carried it |
| GatewayMessages.RefusedControlsStop | src/policylatch/runtime_gateway.py:227-251 | a control message that is not taken ends the session with a protocol error, or by exception when its method cannot be looked up or the note cannot be written |
| GatewayMessages.ControlIsForwardedIff | src/policylatch/runtime_gateway.py:227-251 | a control message goes upstream if and only if the upstream takes it and it is a ping, a tools/list of a ready session, the notification after the handshake, or the one good initialize request, read off its fields |
| GatewayMessages.ControlAnswerIff | src/policylatch/runtime_gateway.py:325-356 | an answer that fits its request is relayed and the session goes on; one that does not, such as an initialize result with another revision, stops the session and nothing of it is relayed |
| GatewayMessages.RelayedFitsItsRequest | src/policylatch/runtime_gateway.py:325-346 | in every run whatever the client is relayed has the version, the id and exactly one result or error, and answers the message forwarded last |
| GatewayMessages.ClientReads | src/policylatch/runtime_gateway.py:302-322 | in every run the client reads answers as the upstream gave them, or errors with the request's id and the code and decision of a blocked call, a withheld answer or a final error |
| GatewayDecisions.DeployedCallIsForwardedIff | src/policylatch/runtime_gateway.py:461-525 | a good call goes upstream if and only if the upstream takes it, no deny rule hits its name or arguments, and it needs no review or someone authorises it |
| GatewayDecisions.ForwardedCallsBreakNoDenyRule | src/policylatch/runtime_gateway.py:461-525 | in every run every call written upstream has good arguments, is no task, and no deny rule hits its name, command, path or host |
| GatewayAborts.RoundAbortsIff | src/policylatch/runtime_gateway.py:446-586 | a round ends by exception if and only if it is a malformed call, has an unhashable control method, forwards a call whose answer cannot be scanned, or is to write a reply or a final error that cannot be encoded |
| GatewayAborts.SessionRaisesIff | src/policylatch/runtime_gateway.py:446-599 | the call raises if and only if some round is one of these, the message limit is reached, or the child is not cleaned up |
| GatewayAborts.AbortingRoundsEndTheSession | src/policylatch/runtime_gateway.py:446-599 | one such round, and nothing more is written to the client and no summary is returned |
| GatewayAborts.UnwritableIdAborts | src/policylatch/runtime_gateway.py:286-299 | a line whose id cannot be encoded ends the session by exception, whatever else is on it |
| GatewayAborts.DeployedRoundAbortsIff | src/policylatch/runtime_gateway.py:446-586 | the conditions read off the line and the answer: the id, the call, the method, the answer to a call, the answer to a control message |
| GatewayAborts.DeployedCallAbortsIff | src/policylatch/runtime_gateway.py:461-577 | for an admitted call: its id cannot be encoded, its evaluation raises, or urlparse refuses a URL in the text of its answer |
| GatewayAborts.DeployedSessionRaisesIff | src/policylatch/runtime_gateway.py:446-599 | the whole call raises if and only if some line or answer is of these kinds, the message limit is reached, or the child is not cleaned up |
| GatewayExamples.MissingParamsRaises | src/policylatch/gateway.py:69-71 | handshake, then a tools/call without params: the session raises, under every policy |
| GatewayExamples.ListMethodRaises | src/policylatch/runtime_gateway.py:230-231 | handshake, then a message whose method is a list: the session raises |
| GatewayExamples.UnreadableLinkRaises | src/policylatch/result_scanner.py:217-218 | an allowed call answered with an unfinished IPv6 address: the session raises |
| GatewayExamples.LoneIdRaises | src/policylatch/runtime_gateway.py:578-585 | a first line with a lone surrogate for an id and an unknown method: the final error cannot be written and the session raises |
| GatewayExamples.LoneAnswerRaises | src/policylatch/runtime_gateway.py:575 | a ping whose answer holds a lone surrogate: the answer cannot be relayed and the session raises |
| GatewayExamples.UnclassifiedCallIsForwarded | src/policylatch/gateway.py:147-155 | a session in which an unclassified call is written upstream after `approve` |
| GatewayExamples.GrantReleasesTheNextAnswer | src/policylatch/approval.py:292-322 | a session in which `grant 60 2` for one answer releases the next |
| GatewayAccounts.EveryRunIsAccountedFor | src/policylatch/runtime_gateway.py:423-440 | the summary equals a tally of the log, or exactly one failed round is missing |
| GatewayAccounts.ErrorFreeSessionsBalance | src/policylatch/runtime_gateway.py:446-599 | lines read = forwarded + blocked; forwarded = control + clean + review + blocked responses; one reply per request, in order, ids distinct |
| GatewayAccounts.StoppedSessionsFailOnce | src/policylatch/runtime_gateway.py:578-586 | with a protocol error: exactly one, all earlier requests answered, at most one more reply, with the last request's id or null, and at most two if unfinished writes are delivered later |
| GatewayAccounts.CorrelationIsExactIff | src/policylatch/runtime_gateway.py:325-346 | a correlated response carries the request's own id unless an integer meets a boolean or a float |
| GatewayAccounts.BooleanIdPassesAsOne | src/policylatch/runtime_gateway.py:341-342 | a response with id true passes as the answer to request 1 |
| Pipes.EveryScheduleIsSound | src/policylatch/runtime_gateway.py:118-165 | the invariant of reader thread, consumer and close under every interleaving |
| Pipes.NothingIsLostOrReordered | src/policylatch/runtime_gateway.py:129-161 | consumed items are a prefix of those read; nothing is lost before close and at most the item in hand after it; the queue holds at most 64 |
| Pipes.LinesComeThrough | src/policylatch/runtime_gateway.py:129-161 | a consumer that takes each item as it comes gets every line of any stream, in order |
| Pipes.TheEndComesThrough | src/policylatch/runtime_gateway.py:129-139 | then it gets the end of the stream or its error, and the reader is finished |
| Pipes.FullQueueDelays | src/policylatch/runtime_gateway.py:141-148 | a full queue of 64 delays an item and never loses it while the reader is open |
| Pipes.AtMostThreeMovesAfterClose | src/policylatch/runtime_gateway.py:129-165 | after close the reader thread makes at most three more moves, so it reads at most one more line |
| Pipes.LineReader.ProceedReader | src/policylatch/runtime_gateway.py:129-148 | one atomic step of the reader thread |
| Pipes.LineReader.ArriveLine | src/policylatch/runtime_gateway.py:131-135 | the return of readline in the reader thread |
| Pipes.LineReader.CloseReader | src/policylatch/runtime_gateway.py:163-165 | close sets the stop flag |
| Pipes.LineReader.NextLine | src/policylatch/runtime_gateway.py:150-161 | the consumer: one item, a timeout, or a refusal |
| Pipes.LineIsTakenIff | src/policylatch/runtime_gateway.py:150-161 | a line is taken if and only if it is within the limit and ends in a newline, or is the end of the stream |
| Pipes.WriteAll | src/policylatch/runtime_gateway.py:264-272 | the write loop succeeds exactly when the accepted counts cover the payload, and only ever writes a prefix |
| Pipes.AcceptedIsSum | src/policylatch/runtime_gateway.py:264-272 | what the stream accepts is the sum of the counts before the first bad one |
| GitDiff.SegmentsPartition | src/policylatch/git_gate.py:247-255 | cutting lines before their heads loses nothing and gives each segment exactly its own head |
| GitDiff.SegmentsAreSlices | src/policylatch/git_gate.py:107-116 | that cut equals the slices between collected head positions |
| GitDiff.CheckBody | src/policylatch/git_gate.py:114-133 | the counting loop accepts exactly bodies with the declared old and new lines |
| GitDiff.ValidateHunks | src/policylatch/git_gate.py:106-134 | the number of hunks or the first refusal |
| GitDiff.NoteMetadata | src/policylatch/git_gate.py:158-192 | the metadata loop and its variables |
| GitDiff.ParseSection | src/policylatch/git_gate.py:137-227 | the change of one file section, or its refusal |
| GitDiff.ParseUnifiedDiff | src/policylatch/git_gate.py:230-256 | the changes of a whole diff, or its refusal |
| GitDiff.AcceptedDiffIsExact | src/policylatch/git_gate.py:106-256 | acceptance: the lines partition into one section per header, one change each, and every hunk has exactly its declared counts |
| GitDiffMeaning.HunkHeaderIff | src/policylatch/git_gate.py:21 | a line is a hunk header with two counts if and only if it is written like one, a count left out being one |
| GitDiffMeaning.BareReturnsStay | src/policylatch/git_gate.py:239-241 | a text is refused for its carriage returns if and only if one stands without a newline after it |
| GitDiffMeaning.CrlfReadsTheSame | src/policylatch/git_gate.py:239 | text with either kind of line end reads the same |
| GitDiffMeaning.PartsOfSection | src/policylatch/git_gate.py:154-157 | the hunks of a section begin at its first line with two at signs, and all before it is metadata |
| GitDiffMeaning.MetadataSays | src/policylatch/git_gate.py:158-192 | the metadata loop succeeds exactly on readable lines, and its variables are what the last line of each kind says |
| GitDiffMeaning.SectionReads | src/policylatch/git_gate.py:137-227 | a section is accepted if and only if its metadata lines are readable, come in pairs, name the header's paths and stand before a hunk, and every hunk is exact; status, path, old path, category and the unknown mark follow from these lines |
| GitDiffMeaning.DiffIsAcceptedIff | src/policylatch/git_gate.py:230-256 | a diff is accepted if and only if its text is within the limits and each of its sections stands, and each change is the one its section stands for |
| GitDiffMeaning.EarlierFileLineIsForgotten | src/policylatch/git_gate.py:158-164 | before the file line that counts another one may name any readable path, and the section is accepted with the same status and path |
| GitDiffMeaning.FilePathIff | src/policylatch/git_gate.py:84-88 | the path of a file line is its one word, none for /dev/null |
| GitDiffMeaning.SafePathIff | src/policylatch/git_gate.py:60-81 | a path is accepted if and only if it has the prefix and the rest is bounded and relative, without parent pieces, outer blanks, backslash, colon or NUL |
| GitDiffMeaning.AcceptedPathsStayInside | src/policylatch/git_gate.py:60-81 | an accepted path has real pieces other than the dot pieces and no backslash, colon or NUL |
| GitDiffMeaning.CategoryIff | src/policylatch/git_gate.py:91-103 | the category of a path by its folded pieces: configuration names, YAML files of policies, fixtures, or other, in this order |
| GitDiffMeaning.ContentFingerprintBinds | src/policylatch/git_gate.py:219-226 | changes with equal content fingerprints come from the same lines |
| GitDiffRoundTrip.SegmentsOfConcat | src/policylatch/git_gate.py:247-255 | segments put together are cut into the same segments |
| GitDiffRoundTrip.HeaderReadsBack | src/policylatch/git_gate.py:21 | a rendered hunk header gives back its counts |
| GitDiffRoundTrip.SectionReadsBack | src/policylatch/git_gate.py:137-227 | the rendered section of an edit parses to a change that describes it |
| GitDiffRoundTrip.RenderedDiffsReadBack | src/policylatch/git_gate.py:137-256 | any list of add, delete, modify and rename edits parses back to the same paths, old paths and statuses in order |
| GitDiffPaths.AcceptedPathsAreCanonical | src/policylatch/git_gate.py:60-81 | an accepted path has only non-empty pieces other than the dot pieces, or is the single dot |
| GitDiffPaths.TameDiffsDoNotCrash | src/policylatch/git_gate.py:91-134 | without the path dot and without oversized counts every refusal is the parser's own |
| GitDiffPaths.DotPathCrashes | src/policylatch/git_gate.py:91-93 | headers naming the path dot with harmless metadata leave by another exception |
| GitDiffCrashes.HunksCrashIff | src/policylatch/git_gate.py:106-134 | the hunk loop leaves by another exception if and only if a hunk has an oversized count and every hunk before it checks |
| GitDiffCrashes.SectionCrashesIff | src/policylatch/git_gate.py:137-227 | a section does so if and only if header and metadata are accepted and then an oversized count comes first, or all is consistent and the reported path is the dot |
| GitDiffCrashes.DiffCrashesIff | src/policylatch/git_gate.py:230-256 | a diff does so if and only if it is readable and its first section that is not accepted is such a one |
| GitDiffCrashes.OversizedCountCrashes | src/policylatch/git_gate.py:112-113 | a whole diff that crashes, for every simple path: one header and a count of 4301 digits |
| Workspace.SortedByIsSorted | src/policylatch/workspace.py:105-140 | the stable sort is an ordered permutation |
| Workspace.VisitDirectory | src/policylatch/workspace.py:108-139 | the loop over one directory: progress made, or a reason to refuse |
| Workspace.Discover | src/policylatch/workspace.py:85-140 | terminates; succeeds exactly on acceptable trees within the entry and file budgets; returns the matching files, sorted |
| WorkspaceMeaning.SelectedIff | src/policylatch/workspace.py:78-82 | a path is selected if and only if its name is a known configuration name or a pattern matches the whole path below the root, whatever the case |
| WorkspaceMeaning.IsJsonIff | src/policylatch/workspace.py:133-134 | a name is JSON if and only if it ends in that extension with something before it |
| WorkspaceMeaning.DiscoverableIff | src/policylatch/workspace.py:85-140 | a tree is accepted if and only if its root can be read, no chain of directories is too deep, unreadable or leads to an entry that refuses, and entries and files stay within the limits |
| WorkspaceMeaning.DiscoveredFilesIff | src/policylatch/workspace.py:85-140 | what is listed is exactly the regular files with a selected path at the end of a chain of directories that are not skipped, each once |
| WorkspaceTheorems.FilesAreReachable | src/policylatch/workspace.py:108-137 | a file is found if and only if a route of entered directories leads to it and it is selected |
| WorkspaceTheorems.DiscoveryIsExact | src/policylatch/workspace.py:85-140 | a successful discovery lists exactly those files, each once |
| WorkspaceTheorems.DepthIsRespected | src/policylatch/workspace.py:127-133 | in an accepted tree no entered directory is deeper than the limit, and all are readable |
| WorkspaceTheorems.AcceptedTreesAreSafe | src/policylatch/workspace.py:111-136 | in an accepted tree no reachable selected link exists and every selected file is JSON |

## Left out

- Matching.ContainedPatternMatches: for globs it needs the longer pattern to be free of bracket classes; with classes the inclusion search decides (`WarningIncludedIff`).
- LintFailures.PlainBlockCoversIff: the block leaves out at least one ASCII character, as every block shorter than the alphabet does.
- Lint.DeletionKeepsActionDecision: for text outside ASCII it needs the guard by syntax, `CleanReports`.
- BudgetCap.WindowCap: assumes a positive limit, as the policy validation does, and atomic reads and appends of the journal; with duplicates excluded it needs equal fingerprints to carry equal values of the metric (`HonestRecordsAgree`, `HonestClients`), and for impacts exactly that (`CapIffImpactsAgree`).
- JournalFile.JournalOnDisk.Append: two appends that interleave their reads and writes on one file are not modelled, nor is real `O_APPEND` behaviour.
- GitDiffRoundTrip.RenderedDiffsReadBack: paths are made of letters, digits, `_`, `-`, `.` and `/`; quoted paths depend on `shlex.split`, which is a parameter.
- Workspace.Discover: the order of files whose folded paths are equal is not stated.
- Response.ScanToolResult: the order and the redacted occurrence fingerprints of findings are not modelled; only their rules, effects and locations.
- Approval documents keep their rules unsorted and with repetitions, and their scope without the repeated scope fingerprint; nothing proved depends on either.
- Evaluator.EvaluateAction: the ValueError of `urlparse` and the InputError of a missing host are one error here; the gateway catches neither.
- Gateway.GatewaySession.Serve: exceptions from reading the client's input, from the approval prompt's output and from the interpreter itself.
- GatewayAccounts.StoppedSessionsFailOnce: what a timed-out write may still deliver is a list of whole messages; when they arrive, in which order, and how two threads interleave bytes on the stream is not modelled.
- GatewayTheorems.ForwardedCallsWerePermitted: likewise a timed-out write upstream counts as not taken, though it may arrive later; it belongs to a permitted call all the same.
- In-place aliasing: merged rule lists are values, so the copies that `list()` and `deepcopy` make cannot be told apart from sharing.
- Starting and stopping the upstream process, real pipes and timeouts, stderr draining and opening a console: nondeterministic outcomes of a step.
- The conflicting-signal, duplicate and broad-pattern rules of policy-lint, fixtures and policy diff: short comparisons.
- Validation of actions, reports, receipts, policies and patterns: inputs are datatypes that are valid already.
- `fnmatch.fnmatch` on Windows, where it folds separators and case of text, path and domain patterns; the POSIX reading is modelled.
- UTF-8 decoding errors and text outside ASCII, so no case folding beyond letters A to Z.
- The file signature check around a budget check: one flag says whether the journal changed meanwhile.
- The gate decision over parsed changes, workspace reports and their differences, command line, rendering, adapters, Windows providers: plumbing, text output or OS calls.
