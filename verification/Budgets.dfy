/**
 * Cumulative budgets over journal reservations (budgets.py): facts of one action, and the
 * sliding-window check of one reservation against every budget of a policy.
 */
module Budgets {
  import opened Basics
  import opened Json
  import opened Models
  import opened Journal

  // ----- facts of an action -----------------------------------------------------------------------

  /** A validated action; `values` are its identity fields and `budget` its metadata, empty if absent. */
  datatype Action = Action(actionType: string, values: Object, budget: Object)

  const SMALL_BYTES := 1024 * 1024
  const MEDIUM_BYTES := 100 * 1024 * 1024

  predicate ImpactNumber(j: Json) {
    j.Int? || j.Real?
  }

  /** The value-aware identity of an action: type, identity fields and budget metadata. */
  function ActionFingerprint(a: Action): Json {
    FieldFingerprint("budget-action", Obj(map[
      "contract" := Str("budget-action-v1"),
      "action_type" := Str(a.actionType),
      "values" := Obj(a.values),
      "budget" := Obj(a.budget)]))
  }

  function PayloadClass(payload: Json): SizeClass {
    if !payload.Int? then UnknownSize
    else if payload.n <= SMALL_BYTES then Small
    else if payload.n <= MEDIUM_BYTES then Medium
    else Large
  }

  function ConfirmationOf(j: Json): Confirmation {
    if j == Str("confirmed") then Confirmed else if j == Str("estimated") then Estimated else Unconfirmed
  }

  function ActionFacts(a: Action): Facts {
    Facts(
      Some(ActionFingerprint(a)), a.actionType, ConfirmationOf(Get(a.budget, "confirmation")),
      if ImpactNumber(Get(a.budget, "impact")) then Some(Number(Get(a.budget, "impact"))) else None,
      PayloadClass(Get(a.budget, "payload_bytes")),
      if Get(a.budget, "target_id").Str? then Some(FieldFingerprint("budget-target", Get(a.budget, "target_id"))) else None,
      if Get(a.values, "tool").Str? then Some(FieldFingerprint("budget-tool", Get(a.values, "tool"))) else None)
  }

  /** The action fingerprint fixes every fact: equal identities have equal budget facts. */
  lemma FingerprintFixesFacts(a: Action, b: Action)
    requires ActionFingerprint(a) == ActionFingerprint(b)
    ensures a == b && ActionFacts(a) == ActionFacts(b)
  {
    var pa, pb := ActionFingerprint(a).of.fields["budget-action"], ActionFingerprint(b).of.fields["budget-action"];
    assert pa == pb;
    assert pa.fields["action_type"] == Str(a.actionType) && pb.fields["action_type"] == Str(b.actionType);
    assert pa.fields["values"] == Obj(a.values) && pb.fields["values"] == Obj(b.values);
    assert pa.fields["budget"] == Obj(a.budget) && pb.fields["budget"] == Obj(b.budget);
  }

  // ----- one budget ---------------------------------------------------------------------------------

  datatype Metric = Calls | Impact | UniqueTargets

  datatype Window = Hour | Day

  datatype Budget = Budget(
    metric: Metric, limit: real, window: Window, effect: Effect, actionTypes: set<string>,
    perTool: bool, countDuplicates: bool, payloadClasses: set<SizeClass>)

  datatype NamedBudget = NamedBudget(id: string, config: Budget)

  function Seconds(w: Window): int {
    match w
    case Hour => 3600
    case Day => 86_400
  }

  function EffectDecision(e: Effect): Decision {
    match e
    case WarnEffect => Warn
    case DenyEffect => Deny
  }

  /** Why a budget's state can be unknown. */
  datatype Unknown = NotConfirmed | MissingTool | UnknownPayload | MissingAction | CurrentNotConfirmed | MissingImpact | MissingTarget

  predicate InWindow(b: Budget, now: int, r: Record) {
    && r.core.stage == Proposed
    && now - Seconds(b.window) <= r.core.at <= now
    && r.core.facts.actionType in b.actionTypes
  }

  predicate SameToolAs(b: Budget, tool: Option<Json>, f: Facts) {
    b.perTool ==> f.tool == tool
  }

  predicate CountedPayload(b: Budget, f: Facts) {
    b.payloadClasses != {} ==> f.size in b.payloadClasses
  }

  /** The dimension a reservation lacks, in the order in which the dimensions are asked for. */
  function Obstacle(b: Budget, current: Facts, f: Facts): Option<Unknown> {
    if f.confirmation != Confirmed then Some(NotConfirmed)
    else if b.perTool && (current.tool.None? || f.tool.None?) then Some(MissingTool)
    else if !SameToolAs(b, current.tool, f) then None
    else if b.payloadClasses != {} && f.size == UnknownSize then Some(UnknownPayload)
    else if !CountedPayload(b, f) then None
    else if !b.countDuplicates && f.actionFingerprint.None? then Some(MissingAction)
    else None
  }

  function Counts(b: Budget, current: Facts, now: int): Record -> bool {
    r => InWindow(b, now, r) && SameToolAs(b, current.tool, r.core.facts) && CountedPayload(b, r.core.facts)
  }

  predicate SeenAction(rs: seq<Record>, fingerprint: Option<Json>) {
    exists i :: 0 <= i < |rs| && rs[i].core.facts.actionFingerprint == fingerprint
  }

  /** Only the first reservation of every action. */
  function FirstPerAction(rs: seq<Record>): seq<Record> {
    if rs == [] then []
    else
      var kept, last := FirstPerAction(rs[..|rs| - 1]), rs[|rs| - 1];
      if SeenAction(kept, last.core.facts.actionFingerprint) then kept else kept + [last]
  }

  function Distinguish(b: Budget, rs: seq<Record>): seq<Record> {
    if b.countDuplicates then rs else FirstPerAction(rs)
  }

  /** The reservations that make up the usage at `now`. */
  function Candidates(b: Budget, current: Facts, now: int, records: seq<Record>): seq<Record> {
    Distinguish(b, Filter(records, Counts(b, current, now)))
  }

  /** The obstacle of the first reservation in the window that has one. */
  function FirstObstacle(b: Budget, current: Facts, now: int, records: seq<Record>): Option<Unknown> {
    if records == [] then None
    else
      var before, last := FirstObstacle(b, current, now, records[..|records| - 1]), records[|records| - 1];
      if before.Some? then before
      else if InWindow(b, now, last) then Obstacle(b, current, last.core.facts)
      else None
  }

  function ImpactSum(rs: seq<Record>): real {
    if rs == [] then 0.0
    else ImpactSum(rs[..|rs| - 1]) + ImpactOf(rs[|rs| - 1])
  }

  function ImpactOf(r: Record): real {
    if r.core.facts.impact.Some? then r.core.facts.impact.value else 0.0
  }

  function Targets(rs: seq<Record>): set<Option<Json>> {
    set i | 0 <= i < |rs| :: rs[i].core.facts.target
  }

  function Usage(m: Metric, rs: seq<Record>): real {
    match m
    case Calls => |rs| as real
    case Impact => ImpactSum(rs)
    case UniqueTargets => |Targets(rs)| as real
  }

  /** The dimension the metric itself needs and some candidate lacks. */
  function MetricObstacle(m: Metric, rs: seq<Record>): Option<Unknown> {
    match m
    case Calls => None
    case Impact => if exists i :: 0 <= i < |rs| && rs[i].core.facts.impact.None? then Some(MissingImpact) else None
    case UniqueTargets => if exists i :: 0 <= i < |rs| && rs[i].core.facts.target.None? then Some(MissingTarget) else None
  }

  function UnknownState(b: Budget, current: Facts, now: int, records: seq<Record>): Option<Unknown> {
    if current.confirmation != Confirmed then Some(CurrentNotConfirmed)
    else
      var first := FirstObstacle(b, current, now, records);
      if first.Some? then first else MetricObstacle(b.metric, Candidates(b, current, now, records))
  }

  datatype Status = Within | Exceeded | StateUnknown

  datatype Row = Row(id: string, decision: Decision, status: Status, usage: Option<real>, unknown: Option<Unknown>)

  /** What the check of one budget reports. */
  function RowFor(nb: NamedBudget, current: Facts, now: int, records: seq<Record>): Row {
    var b := nb.config;
    var unknown := UnknownState(b, current, now, records);
    var usage := Usage(b.metric, Candidates(b, current, now, records));
    if unknown.Some? then Row(nb.id, Deny, StateUnknown, None, unknown)
    else if usage > b.limit then Row(nb.id, EffectDecision(b.effect), Exceeded, Some(usage), None)
    else Row(nb.id, Allow, Within, Some(usage), None)
  }

  method CollectCandidates(b: Budget, current: Facts, now: int, records: seq<Record>)
    returns (candidates: seq<Record>, unknown: Option<Unknown>)
    ensures unknown == FirstObstacle(b, current, now, records)
    ensures unknown.None? ==> candidates == Candidates(b, current, now, records)
  {
    candidates, unknown := [], None;
    var seen: set<Option<Json>> := {};
    var i := 0;
    while i < |records|
      invariant 0 <= i <= |records|
      invariant unknown == FirstObstacle(b, current, now, records[..i])
      invariant unknown.None? && candidates == Candidates(b, current, now, records[..i])
      invariant !b.countDuplicates ==> forall fp :: fp in seen <==> SeenAction(candidates, fp)
      decreases |records| - i
    {
      var record := records[i];
      CandidatesStep(b, current, now, records, i);
      i := i + 1;
      if record.core.stage != Proposed {
        continue;
      }
      if !(now - Seconds(b.window) <= record.core.at <= now) {
        continue;
      }
      var facts := record.core.facts;
      if facts.actionType !in b.actionTypes {
        continue;
      }
      if facts.confirmation != Confirmed {
        unknown := Some(NotConfirmed);
        break;
      }
      if b.perTool {
        if current.tool.None? || facts.tool.None? {
          unknown := Some(MissingTool);
          break;
        }
        if facts.tool != current.tool {
          continue;
        }
      }
      if b.payloadClasses != {} {
        if facts.size == UnknownSize {
          unknown := Some(UnknownPayload);
          break;
        }
        if facts.size !in b.payloadClasses {
          continue;
        }
      }
      if !b.countDuplicates {
        if facts.actionFingerprint.None? {
          unknown := Some(MissingAction);
          break;
        }
        if facts.actionFingerprint in seen {
          continue;
        }
        seen := seen + {facts.actionFingerprint};
      }
      SeenActionStep(candidates, record);
      candidates := candidates + [record];
    }
    if unknown.Some? {
      ObstacleStays(b, current, now, records, i);
    } else {
      assert records[..i] == records;
    }
  }

  lemma SeenActionStep(rs: seq<Record>, r: Record)
    ensures forall fp :: SeenAction(rs + [r], fp) <==> SeenAction(rs, fp) || fp == r.core.facts.actionFingerprint
  {
    forall fp ensures SeenAction(rs + [r], fp) <==> SeenAction(rs, fp) || fp == r.core.facts.actionFingerprint {
      if SeenAction(rs, fp) {
        var i :| 0 <= i < |rs| && rs[i].core.facts.actionFingerprint == fp;
        assert (rs + [r])[i] == rs[i];
      }
      assert (rs + [r])[|rs|] == r;
    }
  }

  lemma CandidatesStep(b: Budget, current: Facts, now: int, records: seq<Record>, i: nat)
    requires i < |records|
    ensures records[..i + 1][..i] == records[..i]
    ensures FirstObstacle(b, current, now, records[..i + 1]) ==
              var before := FirstObstacle(b, current, now, records[..i]);
              if before.Some? then before
              else if InWindow(b, now, records[i]) then Obstacle(b, current, records[i].core.facts) else None
    ensures Candidates(b, current, now, records[..i + 1]) ==
              var before := Candidates(b, current, now, records[..i]);
              if Counts(b, current, now)(records[i])
                 && (b.countDuplicates || !SeenAction(before, records[i].core.facts.actionFingerprint))
              then before + [records[i]] else before
  {
    assert records[..i + 1] == records[..i] + [records[i]];
    FilterAppend(records[..i], [records[i]], Counts(b, current, now));
    var kept := Filter(records[..i], Counts(b, current, now));
    if Counts(b, current, now)(records[i]) {
      assert Filter([records[i]], Counts(b, current, now)) == [records[i]];
      assert (kept + [records[i]])[..|kept|] == kept;
    } else {
      assert Filter([records[i]], Counts(b, current, now)) == [];
      assert kept + [] == kept;
    }
  }

  /** Later reservations do not change the first obstacle. */
  lemma {:induction false} ObstacleStays(b: Budget, current: Facts, now: int, records: seq<Record>, i: nat)
    requires i <= |records| && FirstObstacle(b, current, now, records[..i]).Some?
    ensures FirstObstacle(b, current, now, records) == FirstObstacle(b, current, now, records[..i])
    decreases |records|
  {
    if i < |records| {
      assert records[..|records| - 1][..i] == records[..i];
      ObstacleStays(b, current, now, records[..|records| - 1], i);
    } else {
      assert records[..i] == records;
    }
  }

  method EvaluateBudget(nb: NamedBudget, current: Facts, now: int, records: seq<Record>) returns (row: Row)
    ensures row == RowFor(nb, current, now, records)
  {
    var b := nb.config;
    var candidates, unknown := CollectCandidates(b, current, now, records);
    var usage: Option<real> := None;
    if current.confirmation != Confirmed {
      unknown := Some(CurrentNotConfirmed);
    }
    if unknown.None? {
      match b.metric {
        case Calls =>
          usage := Some(|candidates| as real);
        case Impact =>
          if exists i :: 0 <= i < |candidates| && candidates[i].core.facts.impact.None? {
            unknown := Some(MissingImpact);
          } else {
            usage := Some(ImpactSum(candidates));
          }
        case UniqueTargets =>
          if exists i :: 0 <= i < |candidates| && candidates[i].core.facts.target.None? {
            unknown := Some(MissingTarget);
          } else {
            usage := Some(|Targets(candidates)| as real);
          }
      }
    }
    if unknown.Some? {
      return Row(nb.id, Deny, StateUnknown, None, unknown);
    }
    if usage.value > b.limit {
      return Row(nb.id, EffectDecision(b.effect), Exceeded, usage, None);
    }
    return Row(nb.id, Allow, Within, usage, None);
  }

  // ----- the whole check ------------------------------------------------------------------------------

  /** The part of a report's receipt that a check compares. */
  datatype ReceiptRef = ReceiptRef(policyHash: Json, fingerprint: Json)

  datatype BudgetPolicy = BudgetPolicy(hash: Json, budgets: seq<NamedBudget>)

  datatype Refusal = PolicyMismatch | JournalUnavailable | JournalRace | ReservationMissing

  datatype Verdict = Refused(reason: Refusal) | Checked(rows: seq<Row>) | NotApplicable

  function FindEvent(records: seq<Record>, id: EventId): (r: Option<nat>)
    ensures r.Some? ==> r.value < |records| && records[r.value].eventId == id
  {
    if records == [] then None
    else
      var before := FindEvent(records[..|records| - 1], id);
      if before.Some? then before
      else if records[|records| - 1].eventId == id then Some(|records| - 1)
      else None
  }

  predicate Reserved(records: seq<Record>, id: EventId, receipt: ReceiptRef) {
    var i := FindEvent(records, id);
    i.Some? && records[i.value].core.stage == Proposed && records[i.value].core.receipt == receipt.fingerprint
  }

  predicate Applies(nb: NamedBudget, current: Facts) {
    current.actionType in nb.config.actionTypes
  }

  function Rows(budgets: seq<NamedBudget>, current: Facts, now: int, records: seq<Record>): seq<Row> {
    if budgets == [] then []
    else
      var before, last := Rows(budgets[..|budgets| - 1], current, now, records), budgets[|budgets| - 1];
      if Applies(last, current) then before + [RowFor(last, current, now, records)] else before
  }

  function Check(receipt: ReceiptRef, policy: BudgetPolicy, journal: Result<seq<Record>, InputError>,
                 raced: bool, id: EventId): Verdict
  {
    if receipt.policyHash != policy.hash then Refused(PolicyMismatch)
    else if journal.Err? then Refused(JournalUnavailable)
    else if raced then Refused(JournalRace)
    else if !Reserved(journal.value, id, receipt) then Refused(ReservationMissing)
    else
      var reservation := journal.value[FindEvent(journal.value, id).value].core;
      var rows := Rows(policy.budgets, reservation.facts, reservation.at, journal.value);
      if rows == [] then NotApplicable else Checked(rows)
  }

  function WorstDecision(rows: seq<Row>): Decision {
    if rows == [] then Allow else Worse(WorstDecision(rows[..|rows| - 1]), rows[|rows| - 1].decision)
  }

  function DecisionOf(v: Verdict): Decision {
    match v
    case Refused(_) => Deny
    case Checked(rows) => WorstDecision(rows)
    case NotApplicable => Allow
  }

  method BudgetCheck(receipt: ReceiptRef, policy: BudgetPolicy, journal: Result<seq<Record>, InputError>,
                     raced: bool, id: EventId) returns (v: Verdict)
    ensures v == Check(receipt, policy, journal, raced, id)
  {
    if receipt.policyHash != policy.hash {
      return Refused(PolicyMismatch);
    }
    if journal.Err? {
      return Refused(JournalUnavailable);
    }
    if raced {
      return Refused(JournalRace);
    }
    var records := journal.value;
    var found := FindEvent(records, id);
    if found.None? || records[found.value].core.stage != Proposed
       || records[found.value].core.receipt != receipt.fingerprint {
      return Refused(ReservationMissing);
    }
    var reservation := records[found.value].core;
    var results: seq<Row> := [];
    for i := 0 to |policy.budgets|
      invariant results == Rows(policy.budgets[..i], reservation.facts, reservation.at, records)
    {
      assert policy.budgets[..i + 1][..i] == policy.budgets[..i];
      if reservation.facts.actionType !in policy.budgets[i].config.actionTypes {
        continue;
      }
      var row := EvaluateBudget(policy.budgets[i], reservation.facts, reservation.at, records);
      results := results + [row];
    }
    assert policy.budgets[..|policy.budgets|] == policy.budgets;
    if results == [] {
      return NotApplicable;
    }
    return Checked(results);
  }
}
