/**
 * What the budget check promises: when its state is unknown, that it never relaxes as the journal
 * grows, and that "reserve first, then check" caps every sliding window in every interleaving.
 */
module BudgetTheorems {
  import opened Basics
  import opened Json
  import opened Models
  import opened Journal
  import opened Budgets

  // ----- unknown states -------------------------------------------------------------------------

  predicate HasObstacle(b: Budget, current: Facts, now: int, r: Record) {
    InWindow(b, now, r) && Obstacle(b, current, r.core.facts).Some?
  }

  lemma {:induction false} FirstObstacleIsSome(b: Budget, current: Facts, now: int, records: seq<Record>)
    ensures FirstObstacle(b, current, now, records).Some?
            <==> exists i :: 0 <= i < |records| && HasObstacle(b, current, now, records[i])
  {
    if records != [] {
      var init, last := records[..|records| - 1], records[|records| - 1];
      FirstObstacleIsSome(b, current, now, init);
      if i :| 0 <= i < |init| && HasObstacle(b, current, now, init[i]) {
        assert HasObstacle(b, current, now, records[i]);
      }
      if i :| 0 <= i < |records| && HasObstacle(b, current, now, records[i]) {
        assert i == |init| || init[i] == records[i];
      }
    }
  }

  /**
   * A budget's state is unknown exactly when the current action is unconfirmed, some reservation in
   * the window violates a dimension the budget asks for, or a counted one lacks the metric's value.
   */
  lemma UnknownExactlyWhen(nb: NamedBudget, current: Facts, now: int, records: seq<Record>)
    ensures RowFor(nb, current, now, records).status == StateUnknown <==>
            || current.confirmation != Confirmed
            || (exists i :: 0 <= i < |records| && HasObstacle(nb.config, current, now, records[i]))
            || MetricObstacle(nb.config.metric, Candidates(nb.config, current, now, records)).Some?
  {
    FirstObstacleIsSome(nb.config, current, now, records);
  }

  predicate SameActionAs(a: Record, b: Record) {
    a.core.facts.actionFingerprint == b.core.facts.actionFingerprint
  }

  /** With duplicates excluded, the counted reservations are one per action, the first of each. */
  lemma {:induction false} FirstPerActionIsOneEach(rs: seq<Record>)
    ensures forall i, j :: 0 <= i < j < |FirstPerAction(rs)| ==> !SameActionAs(FirstPerAction(rs)[i], FirstPerAction(rs)[j])
    ensures forall r :: r in FirstPerAction(rs) ==> r in rs
    ensures forall r :: r in rs ==> SeenAction(FirstPerAction(rs), r.core.facts.actionFingerprint)
  {
    if rs != [] {
      var init, last := rs[..|rs| - 1], rs[|rs| - 1];
      FirstPerActionIsOneEach(init);
      assert rs == init + [last];
      forall r | r in rs ensures SeenAction(FirstPerAction(rs), r.core.facts.actionFingerprint) {
        SeenActionStep(FirstPerAction(init), last);
        assert r in init || r == last;
      }
    }
  }

  function ActionsOf(rs: seq<Record>): set<Option<Json>> {
    set i | 0 <= i < |rs| :: rs[i].core.facts.actionFingerprint
  }

  /** So a call count without duplicates is the number of distinct actions. */
  lemma DistinctCallCount(rs: seq<Record>)
    ensures |FirstPerAction(rs)| == |ActionsOf(rs)|
  {
    FirstPerActionIsOneEach(rs);
    var kept := FirstPerAction(rs);
    DistinctActionsCount(kept);
    forall fp | fp in ActionsOf(rs) ensures fp in ActionsOf(kept) {
      var i :| 0 <= i < |rs| && rs[i].core.facts.actionFingerprint == fp;
      assert rs[i] in rs;
      var j :| 0 <= j < |kept| && kept[j].core.facts.actionFingerprint == fp;
    }
    forall fp | fp in ActionsOf(kept) ensures fp in ActionsOf(rs) {
      var j :| 0 <= j < |kept| && kept[j].core.facts.actionFingerprint == fp;
      assert kept[j] in kept;
      var i :| 0 <= i < |rs| && rs[i] == kept[j];
    }
    assert ActionsOf(rs) == ActionsOf(kept);
  }

  lemma {:induction false} DistinctActionsCount(rs: seq<Record>)
    requires forall i, j :: 0 <= i < j < |rs| ==> !SameActionAs(rs[i], rs[j])
    ensures |ActionsOf(rs)| == |rs|
  {
    if rs != [] {
      var init, last := rs[..|rs| - 1], rs[|rs| - 1];
      DistinctActionsCount(init);
      ActionsOfSnoc(init, last);
      if last.core.facts.actionFingerprint in ActionsOf(init) {
        var i :| 0 <= i < |init| && init[i].core.facts.actionFingerprint == last.core.facts.actionFingerprint;
        assert SameActionAs(rs[i], rs[|init|]);
      }
      assert rs == init + [last];
    }
  }

  lemma ActionsOfSnoc(rs: seq<Record>, r: Record)
    ensures ActionsOf(rs + [r]) == ActionsOf(rs) + {r.core.facts.actionFingerprint}
  {
    var all := rs + [r];
    forall x | x in ActionsOf(rs) ensures x in ActionsOf(all) {
      var i :| 0 <= i < |rs| && rs[i].core.facts.actionFingerprint == x;
      assert all[i] == rs[i];
    }
    assert all[|rs|] == r;
  }

  // ----- usage only grows -------------------------------------------------------------------------

  predicate GoodImpacts(rs: seq<Record>) {
    forall r :: r in rs ==> GoodFacts(r.core.facts)
  }

  lemma {:induction false} FirstPerActionPrefix(rs: seq<Record>, more: seq<Record>)
    ensures FirstPerAction(rs) <= FirstPerAction(rs + more)
    decreases |more|
  {
    if more == [] {
      assert rs + more == rs;
    } else {
      var init := more[..|more| - 1];
      FirstPerActionPrefix(rs, init);
      assert (rs + more)[..|rs + more| - 1] == rs + init;
    }
  }

  lemma CandidatesPrefix(b: Budget, current: Facts, now: int, records: seq<Record>, more: seq<Record>)
    ensures Candidates(b, current, now, records) <= Candidates(b, current, now, records + more)
  {
    FilterAppend(records, more, Counts(b, current, now));
    FirstPerActionPrefix(Filter(records, Counts(b, current, now)), Filter(more, Counts(b, current, now)));
  }

  lemma {:induction false} ImpactSumGrows(rs: seq<Record>, more: seq<Record>)
    requires GoodImpacts(more)
    ensures ImpactSum(rs) <= ImpactSum(rs + more)
    decreases |more|
  {
    if more == [] {
      assert rs + more == rs;
    } else {
      var init, last := more[..|more| - 1], more[|more| - 1];
      assert last in more;
      ImpactSumGrows(rs, init);
      assert (rs + more)[..|rs + more| - 1] == rs + init;
    }
  }

  lemma UsageGrows(m: Metric, small: seq<Record>, large: seq<Record>)
    requires small <= large && GoodImpacts(large)
    ensures Usage(m, small) <= Usage(m, large)
    ensures MetricObstacle(m, small).Some? ==> MetricObstacle(m, large).Some?
  {
    var more := large[|small|..];
    assert large == small + more;
    ImpactSumGrows(small, more);
    forall t | t in Targets(small) ensures t in Targets(large) {
      var i :| 0 <= i < |small| && small[i].core.facts.target == t;
      assert large[i] == small[i];
    }
    SubsetCardinality(Targets(small), Targets(large));
    if i :| 0 <= i < |small| && small[i].core.facts.impact.None? {
      assert large[i] == small[i];
    }
    if i :| 0 <= i < |small| && small[i].core.facts.target.None? {
      assert large[i] == small[i];
    }
  }

  function StatusRank(s: Status): nat {
    match s
    case Within => 0
    case Exceeded => 1
    case StateUnknown => 2
  }

  lemma CandidatesAreRecords(b: Budget, current: Facts, now: int, records: seq<Record>)
    ensures forall r :: r in Candidates(b, current, now, records) ==> r in records && Counts(b, current, now)(r)
  {
    var f := Filter(records, Counts(b, current, now));
    FirstPerActionIsOneEach(f);
    forall r | r in Candidates(b, current, now, records) ensures r in records && Counts(b, current, now)(r) {
      FilterMember(records, Counts(b, current, now), r);
    }
  }

  /** Later reservations keep or raise one budget's status and decision. */
  lemma RowNeverRelaxes(nb: NamedBudget, current: Facts, now: int, records: seq<Record>, more: seq<Record>)
    requires GoodImpacts(records + more)
    ensures var before, after := RowFor(nb, current, now, records), RowFor(nb, current, now, records + more);
            && RowAtLeast(before, after)
            && (before.usage.Some? && after.usage.Some? ==> before.usage.value <= after.usage.value)
  {
    var b := nb.config;
    CandidatesPrefix(b, current, now, records, more);
    CandidatesAreRecords(b, current, now, records + more);
    UsageGrows(b.metric, Candidates(b, current, now, records), Candidates(b, current, now, records + more));
    if FirstObstacle(b, current, now, records).Some? {
      assert (records + more)[..|records|] == records;
      ObstacleStays(b, current, now, records + more, |records|);
    }
  }

  /** The same budgets, each with the same or a more severe outcome. */
  predicate RowsAtLeast(before: seq<Row>, after: seq<Row>) {
    && |before| == |after|
    && forall i :: 0 <= i < |before| ==> RowAtLeast(before[i], after[i])
  }

  predicate RowAtLeast(before: Row, after: Row) {
    before.id == after.id && Rank(before.decision) <= Rank(after.decision)
    && StatusRank(before.status) <= StatusRank(after.status)
  }

  lemma {:induction false} WorstAtLeast(before: seq<Row>, after: seq<Row>)
    requires RowsAtLeast(before, after)
    ensures Rank(WorstDecision(before)) <= Rank(WorstDecision(after))
  {
    if before != [] {
      WorstAtLeast(before[..|before| - 1], after[..|after| - 1]);
    }
  }

  lemma {:induction false} RowsNeverRelax(budgets: seq<NamedBudget>, current: Facts, now: int, records: seq<Record>, more: seq<Record>)
    requires GoodImpacts(records + more)
    ensures RowsAtLeast(Rows(budgets, current, now, records), Rows(budgets, current, now, records + more))
  {
    if budgets != [] {
      RowsNeverRelax(budgets[..|budgets| - 1], current, now, records, more);
      RowNeverRelaxes(budgets[|budgets| - 1], current, now, records, more);
    }
  }

  lemma {:induction false} FindEventStays(records: seq<Record>, more: seq<Record>, id: EventId)
    requires FindEvent(records, id).Some?
    ensures FindEvent(records + more, id) == FindEvent(records, id)
    decreases |more|
  {
    if more == [] {
      assert records + more == records;
    } else {
      FindEventStays(records, more[..|more| - 1], id);
      assert (records + more)[..|records + more| - 1] == records + more[..|more| - 1];
    }
  }

  /**
   * For a reservation already in the journal, no later record relaxes the check: every row keeps
   * or raises its decision and status, and so does the overall decision.
   */
  lemma SeverityNeverRelaxes(receipt: ReceiptRef, policy: BudgetPolicy, records: seq<Record>, more: seq<Record>, id: EventId)
    requires Reserved(records, id, receipt) && GoodImpacts(records + more)
    ensures var before := Check(receipt, policy, Ok(records), false, id);
            var after := Check(receipt, policy, Ok(records + more), false, id);
            && Rank(DecisionOf(before)) <= Rank(DecisionOf(after))
            && (before.Checked? ==> after.Checked? && RowsAtLeast(before.rows, after.rows))
  {
    FindEventStays(records, more, id);
    var r := records[FindEvent(records, id).value].core;
    assert (records + more)[FindEvent(records, id).value].core == r;
    if receipt.policyHash == policy.hash {
      RowsNeverRelax(policy.budgets, r.facts, r.at, records, more);
      WorstAtLeast(Rows(policy.budgets, r.facts, r.at, records), Rows(policy.budgets, r.facts, r.at, records + more));
    }
  }

  // ----- clients that reserve first and then check -----------------------------------------------------

  /** What any client may do next; appends carry an action's own facts, or none. */
  datatype Op =
    | Reserve(call: AppendCall)
    | CheckReservation(receipt: ReceiptRef, raced: bool, id: EventId)

  datatype System = System(records: seq<Record>, allowed: set<EventId>)

  function StepOp(policy: BudgetPolicy, s: System, op: Op): System {
    match op
    case Reserve(call) => s.(records := AfterAppend(s.records, call))
    case CheckReservation(receipt, raced, id) =>
      if DecisionOf(Check(receipt, policy, Ok(s.records), raced, id)) == Allow
      then s.(allowed := s.allowed + {id}) else s
  }

  /** Any interleaving of any number of clients. */
  function RunOps(policy: BudgetPolicy, ops: seq<Op>): System {
    if ops == [] then System([], {})
    else StepOp(policy, RunOps(policy, ops[..|ops| - 1]), ops[|ops| - 1])
  }

  /** Facts that were computed from some action, so that its fingerprint fixes them. */
  ghost predicate Honest(f: Facts) {
    f.actionFingerprint.Some? ==> exists a: Action :: f == ActionFacts(a)
  }

  ghost predicate HonestRecords(records: seq<Record>) {
    forall r :: r in records ==> Honest(r.core.facts)
  }

  lemma SameFingerprintSameFacts(a: Facts, b: Facts)
    requires Honest(a) && Honest(b) && a.actionFingerprint.Some? && a.actionFingerprint == b.actionFingerprint
    ensures a == b
  {
    var x: Action :| a == ActionFacts(x);
    var y: Action :| b == ActionFacts(y);
    FingerprintFixesFacts(x, y);
  }

  /** The check that allowed a reservation ran on a prefix of the journal that contains it. */
  ghost predicate AllowedBy(policy: BudgetPolicy, records: seq<Record>, i: nat) {
    i < |records| && exists k, receipt :: AllowedAt(policy, records, i, k, receipt)
  }

  predicate AllowedAt(policy: BudgetPolicy, records: seq<Record>, i: nat, k: int, receipt: ReceiptRef)
    requires i < |records|
  {
    i < k <= |records| && FindEvent(records[..k], records[i].eventId) == Some(i)
    && var v := Check(receipt, policy, Ok(records[..k]), false, records[i].eventId);
       !v.Refused? && DecisionOf(v) == Allow
  }

  ghost predicate GoodSystem(policy: BudgetPolicy, s: System) {
    && GoodRun(s.records)
    && forall i :: 0 <= i < |s.records| && s.records[i].eventId in s.allowed ==> AllowedBy(policy, s.records, i)
  }

  lemma AllowedByStays(policy: BudgetPolicy, records: seq<Record>, more: seq<Record>, i: nat)
    requires AllowedBy(policy, records, i)
    ensures AllowedBy(policy, records + more, i)
  {
    var k, receipt :| AllowedAt(policy, records, i, k, receipt);
    assert (records + more)[..k] == records[..k];
    assert AllowedAt(policy, records + more, i, k, receipt);
  }

  lemma {:induction false} FindEventIsFirst(records: seq<Record>, id: EventId, i: nat)
    requires i < |records| && records[i].eventId == id
    ensures FindEvent(records, id).Some? && FindEvent(records, id).value <= i
    decreases |records|
  {
    if i < |records| - 1 {
      FindEventIsFirst(records[..|records| - 1], id, i);
    }
  }

  /** An allowed id always names a reservation that was there when it was checked. */
  ghost predicate AllowedIdsExist(s: System) {
    forall id :: id in s.allowed ==> HasEvent(s.records, id)
  }

  lemma ReserveGood(policy: BudgetPolicy, s: System, call: AppendCall)
    requires GoodSystem(policy, s) && AllowedIdsExist(s)
    ensures GoodSystem(policy, StepOp(policy, s, Reserve(call))) && AllowedIdsExist(StepOp(policy, s, Reserve(call)))
  {
    var s' := StepOp(policy, s, Reserve(call));
    GoodRunAppend(s.records, call);
    var more := s'.records[|s.records|..];
    assert s'.records == s.records + more;
    forall id | id in s'.allowed ensures HasEvent(s'.records, id) {
      var i :| 0 <= i < |s.records| && s.records[i].eventId == id;
      assert s'.records[i].eventId == id;
    }
    forall i | 0 <= i < |s'.records| && s'.records[i].eventId in s'.allowed ensures AllowedBy(policy, s'.records, i) {
      if i < |s.records| {
        AllowedByStays(policy, s.records, more, i);
      }
    }
  }

  lemma CheckGood(policy: BudgetPolicy, s: System, receipt: ReceiptRef, raced: bool, id: EventId)
    requires GoodSystem(policy, s) && AllowedIdsExist(s)
    ensures var s' := StepOp(policy, s, CheckReservation(receipt, raced, id)); GoodSystem(policy, s') && AllowedIdsExist(s')
  {
    var s' := StepOp(policy, s, CheckReservation(receipt, raced, id));
    if s' != s {
      assert s.records[..|s.records|] == s.records;
      var at := FindEvent(s.records, id).value;
      assert HasEvent(s.records, id);
      assert AllowedAt(policy, s.records, at, |s.records|, receipt);
    }
  }

  lemma {:induction false} RunOpsGood(policy: BudgetPolicy, ops: seq<Op>)
    ensures GoodSystem(policy, RunOps(policy, ops)) && AllowedIdsExist(RunOps(policy, ops))
  {
    if ops != [] {
      RunOpsGood(policy, ops[..|ops| - 1]);
      var before := RunOps(policy, ops[..|ops| - 1]);
      match ops[|ops| - 1] {
        case Reserve(call) => ReserveGood(policy, before, call);
        case CheckReservation(receipt, raced, id) => CheckGood(policy, before, receipt, raced, id);
      }
    }
  }
}
