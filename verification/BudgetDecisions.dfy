/**
 * What the budget check decides, read off the journal: which reservations a budget charges, when its
 * state is unknown, and when the check allows, warns or denies.
 */
module BudgetDecisions {
  import opened Basics
  import opened Json
  import opened Models
  import opened Journal
  import opened Budgets
  import opened BudgetTheorems

  // ----- what is charged ------------------------------------------------------------------------------------

  /** A reservation of one of the budget's action types in the hour or the day up to `now`. */
  predicate Recent(b: Budget, now: int, r: Record) {
    && r.core.stage == Proposed && r.core.facts.actionType in b.actionTypes
    && r.core.at <= now && now - r.core.at <= (if b.window == Hour then 3600 else 86_400)
  }

  /** The budget's own dimensions: the tool, if it counts per tool, and the size, if it names sizes. */
  predicate InScope(b: Budget, tool: Option<Json>, f: Facts) {
    (b.perTool ==> f.tool == tool) && (b.payloadClasses != {} ==> f.size in b.payloadClasses)
  }

  predicate CountedAt(b: Budget, tool: Option<Json>, now: int, records: seq<Record>, i: int) {
    0 <= i < |records| && Recent(b, now, records[i]) && InScope(b, tool, records[i].core.facts)
  }

  predicate Repeats(b: Budget, tool: Option<Json>, now: int, records: seq<Record>, j: int, i: int) {
    && CountedAt(b, tool, now, records, j) && CountedAt(b, tool, now, records, i)
    && records[j].core.facts.actionFingerprint == records[i].core.facts.actionFingerprint
  }

  /** A counted reservation, unless duplicates are excluded and it repeats an earlier one. */
  predicate ChargedAt(b: Budget, tool: Option<Json>, now: int, records: seq<Record>, i: int) {
    && CountedAt(b, tool, now, records, i)
    && (b.countDuplicates || forall j :: 0 <= j < i ==> !Repeats(b, tool, now, records, j, i))
  }

  function ChargedBefore(b: Budget, tool: Option<Json>, now: int, records: seq<Record>, n: nat): set<int> {
    set i | 0 <= i < n && ChargedAt(b, tool, now, records, i)
  }

  function TargetAt(records: seq<Record>, i: int): Option<Json> {
    if 0 <= i < |records| then records[i].core.facts.target else None
  }

  function TargetsBefore(b: Budget, tool: Option<Json>, now: int, records: seq<Record>, n: nat): set<Option<Json>> {
    set i | i in ChargedBefore(b, tool, now, records, n) :: TargetAt(records, i)
  }

  function ImpactBefore(b: Budget, tool: Option<Json>, now: int, records: seq<Record>, n: nat): real
    requires n <= |records|
  {
    if n == 0 then 0.0
    else
      ImpactBefore(b, tool, now, records, n - 1)
      + if ChargedAt(b, tool, now, records, n - 1) && records[n - 1].core.facts.impact.Some?
        then records[n - 1].core.facts.impact.value else 0.0
  }

  /** Charged reservations, their impacts, or their different targets. */
  function Spent(b: Budget, tool: Option<Json>, now: int, records: seq<Record>): real {
    match b.metric
    case Calls => |ChargedBefore(b, tool, now, records, |records|)| as real
    case Impact => ImpactBefore(b, tool, now, records, |records|)
    case UniqueTargets => |TargetsBefore(b, tool, now, records, |records|)| as real
  }

  lemma CountsIff(b: Budget, current: Facts, now: int, records: seq<Record>, i: nat)
    requires i < |records|
    ensures Counts(b, current, now)(records[i]) <==> CountedAt(b, current.tool, now, records, i)
  {
  }

  function PrintAt(records: seq<Record>, i: int): Option<Json> {
    if 0 <= i < |records| then records[i].core.facts.actionFingerprint else None
  }

  /** The actions of the counted reservations. */
  function PrintsBefore(b: Budget, tool: Option<Json>, now: int, records: seq<Record>, n: nat): set<Option<Json>> {
    set i | 0 <= i < n && CountedAt(b, tool, now, records, i) :: PrintAt(records, i)
  }

  /** What the list of candidates holds after `n` records. */
  predicate Tallied(b: Budget, tool: Option<Json>, now: int, records: seq<Record>, n: nat, kept: seq<Record>)
    requires n <= |records|
  {
    && |kept| == |ChargedBefore(b, tool, now, records, n)|
    && ImpactSum(kept) == ImpactBefore(b, tool, now, records, n)
    && Targets(kept) == TargetsBefore(b, tool, now, records, n)
    && ActionsOf(kept) == PrintsBefore(b, tool, now, records, n)
  }

  /** They are the charged reservations themselves. */
  predicate AreCharged(b: Budget, tool: Option<Json>, now: int, records: seq<Record>, n: nat, kept: seq<Record>)
    requires n <= |records|
  {
    && (forall r :: r in kept ==> IsCharged(b, tool, now, records, n, r))
    && forall i :: 0 <= i < n && ChargedAt(b, tool, now, records, i) ==> records[i] in kept
  }

  predicate IsCharged(b: Budget, tool: Option<Json>, now: int, records: seq<Record>, n: nat, r: Record)
    requires n <= |records|
  {
    exists i :: 0 <= i < n && ChargedAt(b, tool, now, records, i) && records[i] == r
  }

  lemma PrintsStep(b: Budget, tool: Option<Json>, now: int, records: seq<Record>, n: nat)
    requires n < |records|
    ensures PrintsBefore(b, tool, now, records, n + 1)
            == PrintsBefore(b, tool, now, records, n) + if CountedAt(b, tool, now, records, n) then {PrintAt(records, n)} else {}
  {
  }

  lemma ChargedIff(b: Budget, tool: Option<Json>, now: int, records: seq<Record>, n: nat)
    requires n < |records|
    ensures ChargedAt(b, tool, now, records, n) <==>
            CountedAt(b, tool, now, records, n)
            && (b.countDuplicates || PrintAt(records, n) !in PrintsBefore(b, tool, now, records, n))
  {
    if j :| 0 <= j < n && Repeats(b, tool, now, records, j, n) {
      assert PrintAt(records, j) in PrintsBefore(b, tool, now, records, n);
    }
    if CountedAt(b, tool, now, records, n) && PrintAt(records, n) in PrintsBefore(b, tool, now, records, n) {
      var j :| 0 <= j < n && CountedAt(b, tool, now, records, j) && PrintAt(records, j) == PrintAt(records, n);
      assert Repeats(b, tool, now, records, j, n);
    }
  }

  lemma ChargedStep(b: Budget, tool: Option<Json>, now: int, records: seq<Record>, n: nat)
    requires n < |records|
    ensures ChargedBefore(b, tool, now, records, n + 1)
            == ChargedBefore(b, tool, now, records, n) + if ChargedAt(b, tool, now, records, n) then {n} else {}
    ensures TargetsBefore(b, tool, now, records, n + 1)
            == TargetsBefore(b, tool, now, records, n) + if ChargedAt(b, tool, now, records, n) then {records[n].core.facts.target} else {}
  {
  }

  lemma TargetsSnoc(rs: seq<Record>, r: Record)
    ensures Targets(rs + [r]) == Targets(rs) + {r.core.facts.target}
    ensures ImpactSum(rs + [r]) == ImpactSum(rs) + ImpactOf(r)
  {
    var all := rs + [r];
    assert all[..|rs|] == rs && all[|rs|] == r;
    forall t | t in Targets(rs)
      ensures t in Targets(all)
    {
      var i :| 0 <= i < |rs| && rs[i].core.facts.target == t;
      assert all[i] == rs[i];
    }
    forall t | t in Targets(all)
      ensures t in Targets(rs) + {r.core.facts.target}
    {
      var i :| 0 <= i < |all| && all[i].core.facts.target == t;
      assert i < |rs| ==> all[i] == rs[i];
    }
  }

  lemma SeenIsAmongActions(rs: seq<Record>, fingerprint: Option<Json>)
    ensures SeenAction(rs, fingerprint) <==> fingerprint in ActionsOf(rs)
  {
  }

  lemma PrintsAfter(b: Budget, tool: Option<Json>, now: int, records: seq<Record>, i: nat)
    requires i < |records|
    ensures !ChargedAt(b, tool, now, records, i) ==> PrintsBefore(b, tool, now, records, i + 1) == PrintsBefore(b, tool, now, records, i)
    ensures ChargedAt(b, tool, now, records, i) ==>
              PrintsBefore(b, tool, now, records, i + 1) == PrintsBefore(b, tool, now, records, i) + {PrintAt(records, i)}
  {
    ChargedIff(b, tool, now, records, i);
    PrintsStep(b, tool, now, records, i);
  }

  lemma SkippedTally(b: Budget, tool: Option<Json>, now: int, records: seq<Record>, i: nat, kept: seq<Record>)
    requires i < |records| && Tallied(b, tool, now, records, i, kept) && !ChargedAt(b, tool, now, records, i)
    ensures Tallied(b, tool, now, records, i + 1, kept)
  {
    ChargedStep(b, tool, now, records, i);
    PrintsAfter(b, tool, now, records, i);
  }

  lemma OneLarger<T>(small: set<T>, x: T, large: set<T>)
    requires large == small + {x} && x !in small
    ensures |large| == |small| + 1
  {
  }

  lemma KeptTally(b: Budget, tool: Option<Json>, now: int, records: seq<Record>, i: nat, kept: seq<Record>)
    requires i < |records| && Tallied(b, tool, now, records, i, kept) && ChargedAt(b, tool, now, records, i)
    ensures Tallied(b, tool, now, records, i + 1, kept + [records[i]])
  {
    ChargedStep(b, tool, now, records, i);
    PrintsAfter(b, tool, now, records, i);
    TargetsSnoc(kept, records[i]);
    ActionsOfSnoc(kept, records[i]);
    OneLarger(ChargedBefore(b, tool, now, records, i), i, ChargedBefore(b, tool, now, records, i + 1));
  }

  lemma ChargedMembers(b: Budget, tool: Option<Json>, now: int, records: seq<Record>, i: nat, kept: seq<Record>, next: seq<Record>)
    requires i < |records| && AreCharged(b, tool, now, records, i, kept)
    requires next == if ChargedAt(b, tool, now, records, i) then kept + [records[i]] else kept
    ensures AreCharged(b, tool, now, records, i + 1, next)
  {
    forall r | r in next
      ensures IsCharged(b, tool, now, records, i + 1, r)
    {
      if r in kept {
        assert IsCharged(b, tool, now, records, i, r);
      } else {
        assert ChargedAt(b, tool, now, records, i) && records[i] == r;
      }
    }
  }

  /** The candidates of the loop are the charged reservations. */
  lemma {:induction false} CandidatesAreCharged(b: Budget, current: Facts, now: int, records: seq<Record>, n: nat) returns (kept: seq<Record>)
    requires n <= |records|
    ensures kept == Candidates(b, current, now, records[..n])
    ensures Tallied(b, current.tool, now, records, n, kept) && AreCharged(b, current.tool, now, records, n, kept)
  {
    if n > 0 {
      var before := CandidatesAreCharged(b, current, now, records, n - 1);
      kept := Candidates(b, current, now, records[..n]);
      CandidatesStep(b, current, now, records, n - 1);
      CountsIff(b, current, now, records, n - 1);
      ChargedIff(b, current.tool, now, records, n - 1);
      SeenIsAmongActions(before, records[n - 1].core.facts.actionFingerprint);
      ChargedMembers(b, current.tool, now, records, n - 1, before, kept);
      if ChargedAt(b, current.tool, now, records, n - 1) {
        KeptTally(b, current.tool, now, records, n - 1, before);
      } else {
        SkippedTally(b, current.tool, now, records, n - 1, before);
      }
    } else {
      kept := [];
      assert records[..0] == [];
    }
  }

  lemma UsageIsSpent(b: Budget, current: Facts, now: int, records: seq<Record>)
    ensures Usage(b.metric, Candidates(b, current, now, records)) == Spent(b, current.tool, now, records)
  {
    var kept := CandidatesAreCharged(b, current, now, records, |records|);
    assert records[..|records|] == records;
  }

  // ----- unknown states -------------------------------------------------------------------------------------

  /** What a recent reservation lacks: confirmation, or a fact that decides whether it is counted. */
  predicate LacksFact(b: Budget, tool: Option<Json>, f: Facts) {
    || f.confirmation != Confirmed
    || (b.perTool && (tool.None? || f.tool.None?))
    || ((b.perTool ==> f.tool == tool) && b.payloadClasses != {} && f.size == UnknownSize)
    || (!b.countDuplicates && InScope(b, tool, f) && f.actionFingerprint.None?)
  }

  predicate LacksFactAt(b: Budget, tool: Option<Json>, now: int, records: seq<Record>, i: int) {
    0 <= i < |records| && Recent(b, now, records[i]) && LacksFact(b, tool, records[i].core.facts)
  }

  /** A charged reservation without the value that the metric adds up. */
  predicate LacksValueAt(b: Budget, tool: Option<Json>, now: int, records: seq<Record>, i: int) {
    && ChargedAt(b, tool, now, records, i)
    && ((b.metric == Impact && records[i].core.facts.impact.None?) || (b.metric == UniqueTargets && records[i].core.facts.target.None?))
  }

  predicate IsUnknown(b: Budget, current: Facts, now: int, records: seq<Record>) {
    || current.confirmation != Confirmed
    || (exists i :: 0 <= i < |records| && LacksFactAt(b, current.tool, now, records, i))
    || (exists i :: 0 <= i < |records| && LacksValueAt(b, current.tool, now, records, i))
  }

  lemma ObstacleIff(b: Budget, current: Facts, now: int, records: seq<Record>, i: nat)
    requires i < |records|
    ensures HasObstacle(b, current, now, records[i]) <==> LacksFactAt(b, current.tool, now, records, i)
  {
  }

  lemma MetricObstacleIff(b: Budget, current: Facts, now: int, records: seq<Record>)
    ensures MetricObstacle(b.metric, Candidates(b, current, now, records)).Some?
            <==> exists i :: 0 <= i < |records| && LacksValueAt(b, current.tool, now, records, i)
  {
    var kept := CandidatesAreCharged(b, current, now, records, |records|);
    assert records[..|records|] == records;
    if i :| 0 <= i < |records| && LacksValueAt(b, current.tool, now, records, i) {
      assert records[i] in kept;
      var k :| 0 <= k < |kept| && kept[k] == records[i];
    }
    if MetricObstacle(b.metric, kept).Some? {
      var k :| 0 <= k < |kept| && (if b.metric == Impact then kept[k].core.facts.impact.None? else kept[k].core.facts.target.None?);
      assert kept[k] in kept;
      var i :| 0 <= i < |records| && ChargedAt(b, current.tool, now, records, i) && records[i] == kept[k];
      assert LacksValueAt(b, current.tool, now, records, i);
    }
  }

  lemma UnknownIff(b: Budget, current: Facts, now: int, records: seq<Record>)
    ensures UnknownState(b, current, now, records).Some? <==> IsUnknown(b, current, now, records)
  {
    FirstObstacleIsSome(b, current, now, records);
    MetricObstacleIff(b, current, now, records);
    forall i | 0 <= i < |records|
      ensures HasObstacle(b, current, now, records[i]) <==> LacksFactAt(b, current.tool, now, records, i)
    {
      ObstacleIff(b, current, now, records, i);
    }
  }

  // ----- one budget -----------------------------------------------------------------------------------------

  /** A row says what its budget came to. */
  predicate Reports(row: Row, nb: NamedBudget, current: Facts, now: int, records: seq<Record>) {
    var spent := Spent(nb.config, current.tool, now, records);
    && row.id == nb.id
    && if IsUnknown(nb.config, current, now, records) then row.status == StateUnknown && row.decision == Deny && row.usage == None
       else
         && row.usage == Some(spent)
         && (row.status == Exceeded <==> spent > nb.config.limit) && (row.status == Within <==> spent <= nb.config.limit)
         && (row.decision == Allow <==> spent <= nb.config.limit)
         && (row.decision == Warn <==> spent > nb.config.limit && nb.config.effect == WarnEffect)
         && (row.decision == Deny <==> spent > nb.config.limit && nb.config.effect == DenyEffect)
  }

  // The row of a budget: unknown and denied when a fact is missing; otherwise exceeded if and only if what is
  // charged is over the limit, and then denied or warned about as the budget says.
  lemma BudgetRowReports(nb: NamedBudget, current: Facts, now: int, records: seq<Record>, row: Row)
    requires row == RowFor(nb, current, now, records)
    ensures Reports(row, nb, current, now, records)
  {
    UnknownIff(nb.config, current, now, records);
    UsageIsSpent(nb.config, current, now, records);
  }

  // ----- the whole check ------------------------------------------------------------------------------------

  /** The reservation a check is about: the first record with its id, proposed and for the same receipt. */
  predicate IsReservation(records: seq<Record>, i: int, id: EventId, fingerprint: Json) {
    && 0 <= i < |records| && records[i].eventId == id && (forall j :: 0 <= j < i ==> records[j].eventId != id)
    && records[i].core.stage == Proposed && records[i].core.receipt == fingerprint
  }

  predicate IsOver(nb: NamedBudget, current: Facts, now: int, records: seq<Record>) {
    Spent(nb.config, current.tool, now, records) > nb.config.limit
  }

  /** A budget for the reservation's action type that is unknown, or a deny budget over its limit. */
  predicate Forbids(nb: NamedBudget, current: Facts, now: int, records: seq<Record>) {
    && current.actionType in nb.config.actionTypes
    && (IsUnknown(nb.config, current, now, records)
        || (nb.config.effect == DenyEffect && IsOver(nb, current, now, records)))
  }

  /** A known budget for it that is over its limit. */
  predicate Cautions(nb: NamedBudget, current: Facts, now: int, records: seq<Record>) {
    && current.actionType in nb.config.actionTypes
    && !IsUnknown(nb.config, current, now, records) && IsOver(nb, current, now, records)
  }

  function Applicable(current: Facts): NamedBudget -> bool {
    (nb: NamedBudget) => current.actionType in nb.config.actionTypes
  }

  /** One row for each budget of the list, in order. */
  predicate RowsReport(rows: seq<Row>, budgets: seq<NamedBudget>, current: Facts, now: int, records: seq<Record>) {
    |rows| == |budgets| && forall k :: 0 <= k < |rows| ==> Reports(rows[k], budgets[k], current, now, records)
  }

  lemma {:induction false} RowsAreReports(budgets: seq<NamedBudget>, current: Facts, now: int, records: seq<Record>)
    ensures RowsReport(Rows(budgets, current, now, records), Filter(budgets, Applicable(current)), current, now, records)
  {
    if budgets != [] {
      var init, last := budgets[..|budgets| - 1], budgets[|budgets| - 1];
      RowsAreReports(init, current, now, records);
      BudgetRowReports(last, current, now, records, RowFor(last, current, now, records));
      FilterAppend(init, [last], Applicable(current));
      assert budgets == init + [last];
      LastRow(Rows(init, current, now, records), Filter(init, Applicable(current)), current, now, records,
              RowFor(last, current, now, records), last);
      assert Filter([last], Applicable(current)) == if Applicable(current)(last) then [last] else [];
    }
  }

  lemma LastRow(rows: seq<Row>, budgets: seq<NamedBudget>, current: Facts, now: int, records: seq<Record>, row: Row, nb: NamedBudget)
    requires RowsReport(rows, budgets, current, now, records) && Reports(row, nb, current, now, records)
    ensures RowsReport(rows + [row], budgets + [nb], current, now, records)
    ensures budgets + [] == budgets
  {
  }

  lemma {:induction false} WorstIff(rows: seq<Row>)
    ensures WorstDecision(rows) == Deny <==> exists k :: 0 <= k < |rows| && rows[k].decision == Deny
    ensures WorstDecision(rows) == Allow <==> forall k :: 0 <= k < |rows| ==> rows[k].decision == Allow
  {
    if rows != [] {
      var init := rows[..|rows| - 1];
      WorstIff(init);
      assert forall k :: 0 <= k < |init| ==> init[k] == rows[k];
      if k :| 0 <= k < |rows| && rows[k].decision == Deny {
        assert k < |init| ==> init[k].decision == Deny;
      }
    }
  }

  lemma FindEventIff(records: seq<Record>, id: EventId, i: nat)
    requires i < |records| && records[i].eventId == id && forall j :: 0 <= j < i ==> records[j].eventId != id
    ensures FindEvent(records, id) == Some(i)
  {
    FindEventIsFirst(records, id, i);
  }

  lemma RowOfBudget(budgets: seq<NamedBudget>, current: Facts, now: int, records: seq<Record>, nb: NamedBudget) returns (k: int)
    requires nb in budgets && current.actionType in nb.config.actionTypes
    ensures 0 <= k < |Rows(budgets, current, now, records)|
    ensures Reports(Rows(budgets, current, now, records)[k], nb, current, now, records)
  {
    RowsAreReports(budgets, current, now, records);
    FilterMember(budgets, Applicable(current), nb);
    k :| 0 <= k < |Filter(budgets, Applicable(current))| && Filter(budgets, Applicable(current))[k] == nb;
  }

  lemma BudgetOfRow(budgets: seq<NamedBudget>, current: Facts, now: int, records: seq<Record>, k: int) returns (nb: NamedBudget)
    requires 0 <= k < |Rows(budgets, current, now, records)|
    ensures nb in budgets && current.actionType in nb.config.actionTypes
    ensures Reports(Rows(budgets, current, now, records)[k], nb, current, now, records)
  {
    RowsAreReports(budgets, current, now, records);
    nb := Filter(budgets, Applicable(current))[k];
    FilterMember(budgets, Applicable(current), nb);
  }

  lemma RowsDenyIff(budgets: seq<NamedBudget>, current: Facts, now: int, records: seq<Record>)
    ensures WorstDecision(Rows(budgets, current, now, records)) == Deny
            <==> exists nb :: nb in budgets && Forbids(nb, current, now, records)
  {
    var rows := Rows(budgets, current, now, records);
    WorstIff(rows);
    if nb :| nb in budgets && Forbids(nb, current, now, records) {
      var k := RowOfBudget(budgets, current, now, records, nb);
      assert rows[k].decision == Deny;
    }
    if k :| 0 <= k < |rows| && rows[k].decision == Deny {
      var nb := BudgetOfRow(budgets, current, now, records, k);
      assert Forbids(nb, current, now, records);
    }
  }

  lemma RowsAllowIff(budgets: seq<NamedBudget>, current: Facts, now: int, records: seq<Record>)
    ensures WorstDecision(Rows(budgets, current, now, records)) == Allow
            <==> forall nb :: nb in budgets ==> !Forbids(nb, current, now, records) && !Cautions(nb, current, now, records)
  {
    var rows := Rows(budgets, current, now, records);
    WorstIff(rows);
    if nb :| nb in budgets && (Forbids(nb, current, now, records) || Cautions(nb, current, now, records)) {
      var k := RowOfBudget(budgets, current, now, records, nb);
      assert rows[k].decision != Allow;
    }
    if k :| 0 <= k < |rows| && rows[k].decision != Allow {
      var nb := BudgetOfRow(budgets, current, now, records, k);
      assert Forbids(nb, current, now, records) || Cautions(nb, current, now, records);
    }
  }

  // The check of a reservation: denied if and only if some budget for its action type is unknown or is a
  // deny budget over its limit; a warning if and only if that is not so and a warn budget is over its limit;
  // otherwise allowed. There is one row for each budget of its type, in order.
  lemma CheckDecisionIff(receipt: ReceiptRef, policy: BudgetPolicy, records: seq<Record>, id: EventId, i: nat)
    requires receipt.policyHash == policy.hash && IsReservation(records, i, id, receipt.fingerprint)
    ensures var v, current, now := Check(receipt, policy, Ok(records), false, id), records[i].core.facts, records[i].core.at;
            && DecisionOf(v)
               == (if exists nb :: nb in policy.budgets && Forbids(nb, current, now, records) then Deny
                   else if exists nb :: nb in policy.budgets && Cautions(nb, current, now, records) then Warn
                   else Allow)
            && (v.NotApplicable? <==> forall nb :: nb in policy.budgets ==> current.actionType !in nb.config.actionTypes)
            && (v.Checked? ==> RowsReport(v.rows, Filter(policy.budgets, Applicable(current)), current, now, records))
  {
    var current, now := records[i].core.facts, records[i].core.at;
    FindEventIff(records, id, i);
    RowsDenyIff(policy.budgets, current, now, records);
    RowsAllowIff(policy.budgets, current, now, records);
    RowsAreReports(policy.budgets, current, now, records);
    NothingApplies(policy.budgets, current);
  }

  lemma NothingApplies(budgets: seq<NamedBudget>, current: Facts)
    ensures Filter(budgets, Applicable(current)) == [] <==> forall nb :: nb in budgets ==> current.actionType !in nb.config.actionTypes
  {
    var mine := Filter(budgets, Applicable(current));
    forall nb | nb in budgets
      ensures nb in mine <==> current.actionType in nb.config.actionTypes
    {
      FilterMember(budgets, Applicable(current), nb);
    }
    if mine != [] {
      FilterMember(budgets, Applicable(current), mine[0]);
    }
  }

  // And when there is no check at all: another policy, no readable journal, a race, or no such reservation.
  lemma CheckIsRefusedIff(receipt: ReceiptRef, policy: BudgetPolicy, journal: Result<seq<Record>, InputError>, raced: bool, id: EventId)
    ensures Check(receipt, policy, journal, raced, id).Refused?
            <==> receipt.policyHash != policy.hash || journal.Err? || raced
                 || forall i :: 0 <= i < |journal.value| ==> !IsReservation(journal.value, i, id, receipt.fingerprint)
    ensures Check(receipt, policy, journal, raced, id).Refused? ==> DecisionOf(Check(receipt, policy, journal, raced, id)) == Deny
  {
    if journal.Ok? {
      var records := journal.value;
      forall i | 0 <= i < |records| && IsReservation(records, i, id, receipt.fingerprint)
        ensures FindEvent(records, id) == Some(i)
      {
        FindEventIff(records, id, i);
      }
      if FindEvent(records, id).Some? {
        FoundIsFirst(records, id);
        assert Reserved(records, id, receipt) ==> IsReservation(records, FindEvent(records, id).value, id, receipt.fingerprint);
      }
    }
  }

  lemma FoundIsFirst(records: seq<Record>, id: EventId)
    requires FindEvent(records, id).Some?
    ensures forall j :: 0 <= j < FindEvent(records, id).value ==> records[j].eventId != id
  {
    var i := FindEvent(records, id).value;
    forall j | 0 <= j < i
      ensures records[j].eventId != id
    {
      if records[j].eventId == id {
        FindEventIsFirst(records, id, j);
      }
    }
  }

  // ----- the facts of an action -----------------------------------------------------------------------------

  /** The declared size of the payload: at most one mebibyte, at most a hundred, or more. */
  predicate HasSize(payload: Json, size: SizeClass) {
    match size
    case Small => payload.Int? && payload.n <= 1_048_576
    case Medium => payload.Int? && 1_048_576 < payload.n <= 104_857_600
    case Large => payload.Int? && 104_857_600 < payload.n
    case UnknownSize => !payload.Int?
  }

  // The facts that a reservation journals are those its action declares, and every action has exactly one size.
  lemma FactsAreDeclared(a: Budgets.Action)
    ensures var f := ActionFacts(a);
            && f.actionType == a.actionType && f.actionFingerprint.Some?
            && (forall size :: f.size == size <==> HasSize(Get(a.budget, "payload_bytes"), size))
            && (f.confirmation == Confirmed <==> Get(a.budget, "confirmation") == Str("confirmed"))
            && (f.confirmation == Estimated <==> Get(a.budget, "confirmation") == Str("estimated"))
            && (forall n :: Get(a.budget, "impact") == Int(n) ==> f.impact == Some(n as real))
            && (forall x :: Get(a.budget, "impact") == Real(x) ==> f.impact == Some(x))
            && (Get(a.budget, "impact") == Null ==> f.impact == None)
            && (f.target.Some? <==> Get(a.budget, "target_id").Str?) && (f.tool.Some? <==> Get(a.values, "tool").Str?)
  {
    assert "estimated"[0] != "confirmed"[0];
  }

  // Two actions count against one target, or one tool, if and only if they name the same.
  lemma TargetsAndToolsAreNamed(a: Budgets.Action, b: Budgets.Action)
    ensures ActionFacts(a).target.Some? && ActionFacts(b).target.Some? ==>
              (ActionFacts(a).target == ActionFacts(b).target <==> Get(a.budget, "target_id") == Get(b.budget, "target_id"))
    ensures ActionFacts(a).tool.Some? && ActionFacts(b).tool.Some? ==>
              (ActionFacts(a).tool == ActionFacts(b).tool <==> Get(a.values, "tool") == Get(b.values, "tool"))
  {
    FieldBinds("budget-target", Get(a.budget, "target_id"), Get(b.budget, "target_id"));
    FieldBinds("budget-tool", Get(a.values, "tool"), Get(b.values, "tool"));
  }

  lemma FieldBinds(field: string, x: Json, y: Json)
    ensures FieldFingerprint(field, x) == FieldFingerprint(field, y) <==> x == y
  {
    var m, n: Object := map[field := x], map[field := y];
    assert m[field] == x && n[field] == y;
  }
}
