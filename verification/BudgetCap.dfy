/**
 * The sliding-window cap: over every interleaving of clients that append a reservation and then
 * check it, what was allowed inside any window of a budget's length never exceeds the limit.
 * It needs timestamps that do not run backwards within a window, and exactly that.
 */
module BudgetCap {
  import opened Basics
  import opened Json
  import opened Models
  import opened Journal
  import opened Budgets
  import opened BudgetTheorems

  /** No record is appended after one that is later than it by at most `seconds`. */
  predicate NoLateInversion(times: seq<int>, seconds: int) {
    forall i, j :: 0 <= i < j < |times| ==> !(times[j] < times[i] <= times[j] + seconds)
  }

  function TimesOf(records: seq<Record>): seq<int> {
    seq(|records|, i requires 0 <= i < |records| => records[i].core.at)
  }

  /** An allowed reservation that a budget charges in the closed window starting at `start`. */
  function Charged(b: Budget, start: int, tool: Option<Json>, allowed: set<EventId>): Record -> bool {
    (r: Record) => r.eventId in allowed && r.core.stage == Proposed
         && start <= r.core.at <= start + Seconds(b.window)
         && r.core.facts.actionType in b.actionTypes
         && SameToolAs(b, tool, r.core.facts) && CountedPayload(b, r.core.facts)
  }

  /** What the allowed reservations of that window use up. */
  function AllowedUsage(b: Budget, start: int, tool: Option<Json>, s: System): real {
    Usage(b.metric, Distinguish(b, Filter(s.records, Charged(b, start, tool, s.allowed))))
  }

  // ----- filters and usage ----------------------------------------------------------------------

  lemma {:induction false} LastHit(rs: seq<Record>, p: Record -> bool) returns (i: nat)
    requires Filter(rs, p) != []
    ensures i < |rs| && p(rs[i]) && Filter(rs, p) == Filter(rs[..i + 1], p)
    ensures forall k :: i < k < |rs| ==> !p(rs[k])
    decreases |rs|
  {
    var init, last := rs[..|rs| - 1], rs[|rs| - 1];
    assert rs == init + [last];
    FilterAppend(init, [last], p);
    if p(last) {
      i := |init|;
      assert rs[..i + 1] == rs;
    } else {
      assert Filter(rs, p) == Filter(init, p) + [] == Filter(init, p);
      i := LastHit(init, p);
      assert init[..i + 1] == rs[..i + 1];
      forall k | i < k < |rs| ensures !p(rs[k]) {
        assert k == |init| || rs[k] == init[k];
      }
    }
  }

  lemma {:induction false} ImpactSumAppend(a: seq<Record>, b: seq<Record>)
    ensures ImpactSum(a + b) == ImpactSum(a) + ImpactSum(b)
    decreases |b|
  {
    if b == [] {
      assert a + b == a;
    } else {
      var init := b[..|b| - 1];
      ImpactSumAppend(a, init);
      assert (a + b)[..|a + b| - 1] == a + init;
    }
  }

  lemma ImpactSumOne(r: Record)
    ensures ImpactSum([r]) == ImpactOf(r)
  {
    assert [r][..0] == [];
  }

  predicate Implies(rs: seq<Record>, p: Record -> bool, q: Record -> bool) {
    forall i :: 0 <= i < |rs| && p(rs[i]) ==> q(rs[i])
  }

  lemma {:induction false} FilterSizes(rs: seq<Record>, p: Record -> bool, q: Record -> bool)
    requires Implies(rs, p, q) && GoodImpacts(rs)
    ensures |Filter(rs, p)| <= |Filter(rs, q)|
    ensures ImpactSum(Filter(rs, p)) <= ImpactSum(Filter(rs, q))
  {
    if rs != [] {
      var head, tail := rs[0], rs[1..];
      assert head in rs;
      FilterSizes(tail, p, q);
      ImpactSumOne(head);
      ImpactSumAppend([head], Filter(tail, p));
      ImpactSumAppend([head], Filter(tail, q));
    }
  }

  lemma TargetsSubset(small: seq<Record>, large: seq<Record>)
    requires forall r :: r in small ==> exists s :: s in large && s.core.facts.target == r.core.facts.target
    ensures |Targets(small)| <= |Targets(large)|
  {
    forall t | t in Targets(small) ensures t in Targets(large) {
      var i :| 0 <= i < |small| && small[i].core.facts.target == t;
      assert small[i] in small;
      var s :| s in large && s.core.facts.target == t;
      var j :| 0 <= j < |large| && large[j] == s;
      assert large[j].core.facts.target == t;
    }
    SubsetCardinality(Targets(small), Targets(large));
  }

  /** A selection uses no more than what it is selected from. */
  lemma SelectedUsage(m: Metric, rs: seq<Record>, p: Record -> bool, q: Record -> bool)
    requires Implies(rs, p, q) && GoodImpacts(rs)
    ensures Usage(m, Filter(rs, p)) <= Usage(m, Filter(rs, q))
  {
    FilterSizes(rs, p, q);
    forall r | r in Filter(rs, p) ensures r in Filter(rs, q) {
      FilterMember(rs, p, r);
      FilterMember(rs, q, r);
    }
    TargetsSubset(Filter(rs, p), Filter(rs, q));
  }

  /** The same action, with the same value in what the metric adds up. */
  predicate Alike(m: Metric, a: Facts, b: Facts) {
    && a.actionFingerprint == b.actionFingerprint
    && (m.Impact? ==> a.impact == b.impact) && (m.UniqueTargets? ==> a.target == b.target)
  }

  predicate Covered(m: Metric, xs: seq<Record>, ys: seq<Record>) {
    forall i :: 0 <= i < |xs| ==> exists j :: 0 <= j < |ys| && Alike(m, ys[j].core.facts, xs[i].core.facts)
  }

  predicate DistinctActions(xs: seq<Record>) {
    forall i, j :: 0 <= i < j < |xs| ==> !SameActionAs(xs[i], xs[j])
  }

  /** Distinct actions, each found alike among `ys`, weigh no more than `ys`. */
  lemma {:induction false} CoveredSizes(m: Metric, xs: seq<Record>, ys: seq<Record>)
    requires Covered(m, xs, ys) && DistinctActions(xs) && GoodImpacts(ys)
    ensures |xs| <= |ys| && (m.Impact? ==> ImpactSum(xs) <= ImpactSum(ys))
  {
    if xs == [] {
      ImpactSumGrows([], ys);
      assert [] + ys == ys;
    } else {
      var init, last := xs[..|xs| - 1], xs[|xs| - 1];
      var j :| 0 <= j < |ys| && Alike(m, ys[j].core.facts, last.core.facts);
      var rest := ys[..j] + ys[j + 1..];
      RemoveOne(ys, j);
      forall i | 0 <= i < |init| ensures exists k :: 0 <= k < |rest| && Alike(m, rest[k].core.facts, init[i].core.facts) {
        assert !SameActionAs(xs[i], xs[|xs| - 1]);
        var n :| 0 <= n < |ys| && Alike(m, ys[n].core.facts, xs[i].core.facts);
        assert n != j;
        assert rest[if n < j then n else n - 1] == ys[n];
      }
      assert DistinctActions(init);
      CoveredSizes(m, init, rest);
    }
  }

  lemma SumOfParts(front: seq<Record>, r: Record, back: seq<Record>)
    ensures ImpactSum((front + [r]) + back) == ImpactSum(front + back) + ImpactOf(r)
  {
    ImpactSumAppend(front + [r], back);
    ImpactSumAppend(front, [r]);
    ImpactSumAppend(front, back);
    ImpactSumOne(r);
  }

  lemma OthersAreGood(ys: seq<Record>, j: nat)
    requires j < |ys| && GoodImpacts(ys)
    ensures GoodImpacts(ys[..j] + ys[j + 1..])
  {
    forall r | r in ys[..j] + ys[j + 1..] ensures r in ys {
      assert r in ys[..j] || r in ys[j + 1..];
    }
  }

  lemma RemoveOne(ys: seq<Record>, j: nat)
    requires j < |ys| && GoodImpacts(ys)
    ensures ImpactSum(ys) == ImpactSum(ys[..j] + ys[j + 1..]) + ImpactOf(ys[j])
    ensures GoodImpacts(ys[..j] + ys[j + 1..])
  {
    CutAt(ys, j);
    SumWithout(ys, ys[..j], ys[j], ys[j + 1..]);
    OthersAreGood(ys, j);
  }

  lemma CutAt(ys: seq<Record>, j: nat)
    requires j < |ys|
    ensures ys == (ys[..j] + [ys[j]]) + ys[j + 1..]
  {
  }

  lemma SumWithout(ys: seq<Record>, front: seq<Record>, r: Record, back: seq<Record>)
    requires ys == (front + [r]) + back
    ensures ImpactSum(ys) == ImpactSum(front + back) + ImpactOf(r)
  {
    SumOfParts(front, r, back);
  }

  /** Equal action fingerprints come with equal values of the metric. */
  predicate Agreeing(m: Metric, rs: seq<Record>) {
    forall i, j :: 0 <= i < |rs| && 0 <= j < |rs| && rs[i].core.facts.actionFingerprint.Some?
                   && rs[i].core.facts.actionFingerprint == rs[j].core.facts.actionFingerprint
                   ==> Alike(m, rs[i].core.facts, rs[j].core.facts)
  }

  /** The same for one reservation per action. */
  lemma SelectedUsagePerAction(m: Metric, rs: seq<Record>, p: Record -> bool, q: Record -> bool)
    requires Implies(rs, p, q) && GoodImpacts(rs) && Agreeing(m, Filter(rs, q))
    requires forall r :: r in Filter(rs, q) ==> r.core.facts.actionFingerprint.Some?
    ensures Usage(m, FirstPerAction(Filter(rs, p))) <= Usage(m, FirstPerAction(Filter(rs, q)))
  {
    var xs, ys := SelectedIsCovered(m, rs, p, q);
    CoveredSizes(m, xs, ys);
    if m.UniqueTargets? {
      CoveredTargets(xs, ys);
    }
  }

  lemma SelectedIsCovered(m: Metric, rs: seq<Record>, p: Record -> bool, q: Record -> bool) returns (xs: seq<Record>, ys: seq<Record>)
    requires Implies(rs, p, q) && GoodImpacts(rs) && Agreeing(m, Filter(rs, q))
    requires forall r :: r in Filter(rs, q) ==> r.core.facts.actionFingerprint.Some?
    ensures xs == FirstPerAction(Filter(rs, p)) && ys == FirstPerAction(Filter(rs, q))
    ensures Covered(m, xs, ys) && DistinctActions(xs) && GoodImpacts(ys)
  {
    xs, ys := FirstPerAction(Filter(rs, p)), FirstPerAction(Filter(rs, q));
    FirstPerActionIsOneEach(Filter(rs, p));
    FirstPerActionIsOneEach(Filter(rs, q));
    forall r | r in ys ensures GoodFacts(r.core.facts) {
      FilterMember(rs, q, r);
    }
    forall i | 0 <= i < |xs| ensures exists j :: 0 <= j < |ys| && Alike(m, ys[j].core.facts, xs[i].core.facts) {
      assert xs[i] in xs;
      FilterMember(rs, p, xs[i]);
      FilterMember(rs, q, xs[i]);
      var j := AlikeKept(m, Filter(rs, q), xs[i]);
    }
  }

  lemma AlikeKept(m: Metric, qs: seq<Record>, x: Record) returns (j: nat)
    requires Agreeing(m, qs) && x in qs && forall r :: r in qs ==> r.core.facts.actionFingerprint.Some?
    ensures j < |FirstPerAction(qs)| && Alike(m, FirstPerAction(qs)[j].core.facts, x.core.facts)
  {
    var ys := FirstPerAction(qs);
    FirstPerActionIsOneEach(qs);
    assert SeenAction(ys, x.core.facts.actionFingerprint);
    j :| 0 <= j < |ys| && ys[j].core.facts.actionFingerprint == x.core.facts.actionFingerprint;
    assert ys[j] in ys;
    var a :| 0 <= a < |qs| && qs[a] == ys[j];
    var b :| 0 <= b < |qs| && qs[b] == x;
    assert Alike(m, qs[a].core.facts, qs[b].core.facts);
  }

  lemma CoveredTargets(xs: seq<Record>, ys: seq<Record>)
    requires Covered(UniqueTargets, xs, ys)
    ensures |Targets(xs)| <= |Targets(ys)|
  {
    forall r | r in xs ensures exists s :: s in ys && s.core.facts.target == r.core.facts.target {
      var i :| 0 <= i < |xs| && xs[i] == r;
      var j :| 0 <= j < |ys| && Alike(UniqueTargets, ys[j].core.facts, xs[i].core.facts);
      assert ys[j] in ys;
    }
    TargetsSubset(xs, ys);
  }

  // ----- the cap ----------------------------------------------------------------------------------

  /** An allowed check found its budget's row within the limit. */
  lemma {:induction false} AllowedRow(budgets: seq<NamedBudget>, nb: NamedBudget, current: Facts, now: int, records: seq<Record>)
    requires nb in budgets && Applies(nb, current)
    requires WorstDecision(Rows(budgets, current, now, records)) == Allow
    ensures RowFor(nb, current, now, records).decision == Allow
  {
    var init, last := budgets[..|budgets| - 1], budgets[|budgets| - 1];
    assert budgets == init + [last];
    var rows := Rows(init, current, now, records);
    if Applies(last, current) {
      assert (rows + [RowFor(last, current, now, records)])[..|rows|] == rows;
    }
    if nb != last {
      AllowedRow(init, nb, current, now, records);
    }
  }

  lemma AllowedMeansWithinLimit(nb: NamedBudget, current: Facts, now: int, records: seq<Record>)
    requires RowFor(nb, current, now, records).decision == Allow
    ensures Usage(nb.config.metric, Candidates(nb.config, current, now, records)) <= nb.config.limit
    ensures !nb.config.countDuplicates ==>
              forall r :: r in Filter(records, Counts(nb.config, current, now)) ==> r.core.facts.actionFingerprint.Some?
  {
    var b := nb.config;
    FirstObstacleIsSome(b, current, now, records);
    forall r | r in Filter(records, Counts(b, current, now))
      ensures !b.countDuplicates ==> r.core.facts.actionFingerprint.Some?
    {
      FilterMember(records, Counts(b, current, now), r);
      var i :| 0 <= i < |records| && records[i] == r;
      assert !HasObstacle(b, current, now, records[i]);
    }
  }

  /** A reservation that the budget may count at some time. */
  function MayCount(b: Budget): Record -> bool {
    (r: Record) => r.core.stage == Proposed && r.core.facts.actionType in b.actionTypes && CountedPayload(b, r.core.facts)
  }

  /** What one reservation per action needs: the reservations a budget may count agree on its metric. */
  predicate AgreeingFor(b: Budget, records: seq<Record>) {
    b.countDuplicates || Agreeing(b.metric, Filter(records, MayCount(b)))
  }

  lemma AgreeingSelection(m: Metric, all: seq<Record>, some: seq<Record>)
    requires Agreeing(m, all) && forall r :: r in some ==> r in all
    ensures Agreeing(m, some)
  {
    forall i, j | 0 <= i < |some| && 0 <= j < |some| && some[i].core.facts.actionFingerprint.Some?
                  && some[i].core.facts.actionFingerprint == some[j].core.facts.actionFingerprint
      ensures Alike(m, some[i].core.facts, some[j].core.facts)
    {
      assert some[i] in all && some[j] in all;
      var a :| 0 <= a < |all| && all[a] == some[i];
      var b :| 0 <= b < |all| && all[b] == some[j];
      assert Alike(m, all[a].core.facts, all[b].core.facts);
    }
  }

  lemma CountedAgree(b: Budget, records: seq<Record>, k: nat, current: Facts, now: int)
    requires k <= |records| && AgreeingFor(b, records) && !b.countDuplicates
    ensures Agreeing(b.metric, Filter(records[..k], Counts(b, current, now)))
  {
    forall r | r in Filter(records[..k], Counts(b, current, now)) ensures r in Filter(records, MayCount(b)) {
      FilterMember(records[..k], Counts(b, current, now), r);
      FilterMember(records, MayCount(b), r);
    }
    AgreeingSelection(b.metric, Filter(records, MayCount(b)), Filter(records[..k], Counts(b, current, now)));
  }

  /** Facts computed from actions agree for every budget. */
  lemma HonestRecordsAgree(b: Budget, records: seq<Record>)
    requires HonestRecords(records)
    ensures AgreeingFor(b, records)
  {
    var rs := Filter(records, MayCount(b));
    forall i, j | 0 <= i < |rs| && 0 <= j < |rs| && rs[i].core.facts.actionFingerprint.Some?
                  && rs[i].core.facts.actionFingerprint == rs[j].core.facts.actionFingerprint
      ensures Alike(b.metric, rs[i].core.facts, rs[j].core.facts)
    {
      assert rs[i] in rs && rs[j] in rs;
      FilterMember(records, MayCount(b), rs[i]);
      FilterMember(records, MayCount(b), rs[j]);
      SameFingerprintSameFacts(rs[i].core.facts, rs[j].core.facts);
    }
  }

  /** Everything charged to the window is counted again when its last member is checked. */
  lemma ChargedIsCounted(b: Budget, start: int, tool: Option<Json>, s: System, i: nat, k: nat)
    requires i < k <= |s.records| && Charged(b, start, tool, s.allowed)(s.records[i])
    requires NoLateInversion(TimesOf(s.records), Seconds(b.window))
    requires forall n :: i < n < |s.records| ==> !Charged(b, start, tool, s.allowed)(s.records[n])
    ensures Implies(s.records[..k], Charged(b, start, tool, s.allowed),
                    Counts(b, s.records[i].core.facts, s.records[i].core.at))
    ensures Filter(s.records, Charged(b, start, tool, s.allowed)) == Filter(s.records[..k], Charged(b, start, tool, s.allowed))
  {
    var p := Charged(b, start, tool, s.allowed);
    forall n | 0 <= n < k && p(s.records[n]) ensures Counts(b, s.records[i].core.facts, s.records[i].core.at)(s.records[..k][n]) {
      assert TimesOf(s.records)[n] == s.records[n].core.at && TimesOf(s.records)[i] == s.records[i].core.at;
      assert n <= i;
    }
    FilterTail(s.records, p, k);
  }

  lemma FilterTail(rs: seq<Record>, p: Record -> bool, k: nat)
    requires k <= |rs| && forall n :: k <= n < |rs| ==> !p(rs[n])
    ensures Filter(rs, p) == Filter(rs[..k], p)
  {
    assert rs == rs[..k] + rs[k..];
    FilterAppend(rs[..k], rs[k..], p);
    FilterNone(rs[k..], p);
  }

  lemma {:induction false} FilterNone(rs: seq<Record>, p: Record -> bool)
    requires forall n :: 0 <= n < |rs| ==> !p(rs[n])
    ensures Filter(rs, p) == []
  {
    if rs != [] {
      FilterNone(rs[1..], p);
    }
  }

  /**
   * The cap. In every run, for every budget of the policy and every closed window of its length,
   * the reservations that some check allowed use at most the limit: by count, impact sum or
   * distinct targets, per tool if the budget says so, over the counted payload classes, and one
   * per action when duplicates are excluded and equal actions agree on the metric.
   */
  lemma WindowCap(policy: BudgetPolicy, ops: seq<Op>, nb: NamedBudget, start: int, tool: Option<Json>)
    requires nb in policy.budgets && nb.config.limit > 0.0
    requires NoLateInversion(TimesOf(RunOps(policy, ops).records), Seconds(nb.config.window))
    requires AgreeingFor(nb.config, RunOps(policy, ops).records)
    ensures AllowedUsage(nb.config, start, tool, RunOps(policy, ops)) <= nb.config.limit
  {
    var s, b := RunOps(policy, ops), nb.config;
    var p := Charged(b, start, tool, s.allowed);
    RunOpsGood(policy, ops);
    if Filter(s.records, p) != [] {
      var i := LastHit(s.records, p);
      assert AllowedBy(policy, s.records, i);
      var k, receipt :| AllowedAt(policy, s.records, i, k, receipt);
      var current, now, seen := s.records[i].core.facts, s.records[i].core.at, s.records[..k];
      ChargedIsCounted(b, start, tool, s, i, k);
      AllowedRow(policy.budgets, nb, current, now, seen);
      AllowedMeansWithinLimit(nb, current, now, seen);
      forall r | r in seen ensures GoodFacts(r.core.facts) {
        var n :| 0 <= n < |seen| && seen[n] == r;
        assert ValidRecord(s.records[n]);
      }
      if b.countDuplicates {
        SelectedUsage(b.metric, seen, p, Counts(b, current, now));
      } else {
        CountedAgree(b, s.records, k, current, now);
        SelectedUsagePerAction(b.metric, seen, p, Counts(b, current, now));
      }
    } else {
      assert Distinguish(b, []) == [];
    }
  }

  predicate HonestCall(op: Op, a: Option<Action>) {
    op.Reserve? ==>
      match a
      case Some(action) => FactsOf(op.call.report) == ActionFacts(action)
      case None => FactsOf(op.call.report).actionFingerprint.None?
  }

  /** Clients that journal an action's own facts, or none, keep the whole journal honest. */
  lemma {:induction false} HonestClients(policy: BudgetPolicy, ops: seq<Op>, actions: seq<Option<Action>>)
    requires |actions| == |ops| && forall i :: 0 <= i < |ops| ==> HonestCall(ops[i], actions[i])
    ensures HonestRecords(RunOps(policy, ops).records)
  {
    if ops != [] {
      var n := |ops| - 1;
      assert forall i :: 0 <= i < n ==> HonestCall(ops[..n][i], actions[..n][i]);
      HonestClients(policy, ops[..n], actions[..n]);
      assert HonestCall(ops[n], actions[n]);
    }
  }

  // ----- and without orderly timestamps ---------------------------------------------------------------

  /** The reservation a client makes at position `n`: a shell call if `relevant`, else a file access. */
  function Reservation(n: nat, relevant: bool): Report {
    Report(Digest(Int(n)), Digest(Str("receipt")), Allow, Digest(Str("policy")), "1", [],
           Some(Facts(None, if relevant then "shell" else "file", Confirmed, None, Small, None, None)))
  }

  const RECEIPT := ReceiptRef(Digest(Str("policy")), Digest(Str("receipt")))

  /** One shell call per window. */
  function OneCall(w: Window): BudgetPolicy {
    BudgetPolicy(Digest(Str("policy")), [NamedBudget("calls", Budget(Calls, 1.0, w, DenyEffect, {"shell"}, false, true, {}))])
  }

  function CallAt(times: seq<int>, n: nat, i: nat, j: nat): AppendCall
    requires n < |times|
  {
    AppendCall(Reservation(n, n == i || n == j), Proposed, times[n] * MICROS, 1)
  }

  function CoreAt(times: seq<int>, n: nat, i: nat, j: nat): Core
    requires n < |times|
  {
    var r := Reservation(n, n == i || n == j);
    Core(r.requestFingerprint, r.receiptFingerprint, Proposed, times[n], Allow, r.policyHash, r.evaluator, [], r.facts.value)
  }

  /** Every reservation is checked right after it is appended. */
  function Schedule(times: seq<int>, n: nat, i: nat, j: nat): seq<Op>
    requires n <= |times|
  {
    if n == 0 then []
    else Schedule(times, n - 1, i, j)
         + [Reserve(CallAt(times, n - 1, i, j)),
            CheckReservation(RECEIPT, false, EventId(CoreAt(times, n - 1, i, j)))]
  }

  ghost predicate Scheduled(times: seq<int>, n: nat, i: nat, j: nat, s: System)
    requires n <= |times|
  {
    && |s.records| == n
    && (forall k :: 0 <= k < n ==> s.records[k].core == CoreAt(times, k, i, j) && s.records[k].eventId == EventId(CoreAt(times, k, i, j)))
    && (i < n ==> EventId(CoreAt(times, i, i, j)) in s.allowed)
    && (j < n ==> EventId(CoreAt(times, j, i, j)) in s.allowed)
  }

  lemma RunOpsTwo(policy: BudgetPolicy, ops: seq<Op>, a: Op, b: Op)
    ensures RunOps(policy, ops + [a, b]) == StepOp(policy, StepOp(policy, RunOps(policy, ops), a), b)
  {
    assert (ops + [a, b])[..|ops| + 1] == ops + [a];
    assert (ops + [a])[..|ops|] == ops;
  }

  lemma ReserveNext(times: seq<int>, n: nat, i: nat, j: nat, w: Window, s: System)
    requires n < |times| <= MAX_JOURNAL_RECORDS && Scheduled(times, n, i, j, s)
    ensures var s' := StepOp(OneCall(w), s, Reserve(CallAt(times, n, i, j)));
            s'.allowed == s.allowed && |s'.records| == n + 1 && s'.records[..n] == s.records
            && s'.records[n].core == CoreAt(times, n, i, j) && s'.records[n].eventId == EventId(CoreAt(times, n, i, j))
  {
    var call := CallAt(times, n, i, j);
    assert times[n] * MICROS / MICROS == times[n];
    var r := NewRecord(s.records, call.report, call.stage, call.at, call.window);
    assert r.Ok? && r.value.core == CoreAt(times, n, i, j);
    forall k | 0 <= k < n ensures s.records[k].eventId != r.value.eventId {
      assert s.records[k].core.requestId == Digest(Int(k));
    }
  }

  /** With an empty window behind it, a shell call is within a limit of one. */
  lemma CheckNext(times: seq<int>, n: nat, i: nat, j: nat, w: Window, records: seq<Record>)
    requires n < |times| && |records| == n + 1
    requires forall k :: 0 <= k <= n ==> records[k].core == CoreAt(times, k, i, j) && records[k].eventId == EventId(CoreAt(times, k, i, j))
    requires n == i || n == j
    requires forall k :: 0 <= k < n && (k == i || k == j) ==> times[n] < times[k] || times[k] < times[n] - Seconds(w)
    ensures DecisionOf(Check(RECEIPT, OneCall(w), Ok(records), false, records[n].eventId)) == Allow
  {
    var nb := OneCall(w).budgets[0];
    var current, now := records[n].core.facts, times[n];
    FindEventIsFirst(records, records[n].eventId, n);
    assert FindEvent(records, records[n].eventId) == Some(n) by {
      var f := FindEvent(records, records[n].eventId).value;
      assert records[f].core.requestId == Digest(Int(f)) && records[n].core.requestId == Digest(Int(n));
    }
    OnlyTheLast(records, Counts(nb.config, current, now), n);
    FirstObstacleIsSome(nb.config, current, now, records);
    forall k | 0 <= k < |records| ensures !HasObstacle(nb.config, current, now, records[k]) {
      assert records[k].core == CoreAt(times, k, i, j);
    }
    RowsOfOne(nb, current, now, records);
  }

  lemma OnlyTheLast(records: seq<Record>, p: Record -> bool, n: nat)
    requires |records| == n + 1 && p(records[n]) && forall k :: 0 <= k < n ==> !p(records[k])
    ensures Filter(records, p) == [records[n]]
  {
    assert records == records[..n] + [records[n]];
    FilterNone(records[..n], p);
    FilterAppend(records[..n], [records[n]], p);
    assert Filter([records[n]], p) == [records[n]];
  }

  lemma RowsOfOne(nb: NamedBudget, current: Facts, now: int, records: seq<Record>)
    requires Applies(nb, current)
    ensures Rows([nb], current, now, records) == [RowFor(nb, current, now, records)]
    ensures WorstDecision([RowFor(nb, current, now, records)]) == RowFor(nb, current, now, records).decision
  {
    assert [nb][..0] == [];
    assert [RowFor(nb, current, now, records)][..0] == [];
    assert [] + [RowFor(nb, current, now, records)] == [RowFor(nb, current, now, records)];
  }

  /** The states along the schedule. */
  function AfterSchedule(times: seq<int>, n: nat, i: nat, j: nat, w: Window): System
    requires n <= |times|
  {
    if n == 0 then System([], {}) else OneTurn(times, n - 1, i, j, w, AfterSchedule(times, n - 1, i, j, w))
  }

  function OneTurn(times: seq<int>, m: nat, i: nat, j: nat, w: Window, s: System): System
    requires m < |times|
  {
    StepOp(OneCall(w), StepOp(OneCall(w), s, Reserve(CallAt(times, m, i, j))),
           CheckReservation(RECEIPT, false, EventId(CoreAt(times, m, i, j))))
  }

  lemma {:induction false} ScheduleIsARun(times: seq<int>, n: nat, i: nat, j: nat, w: Window) returns (s: System)
    requires n <= |times|
    ensures s == RunOps(OneCall(w), Schedule(times, n, i, j)) && s == AfterSchedule(times, n, i, j, w)
  {
    if n == 0 {
      s := System([], {});
    } else {
      s := ScheduleIsARun(times, n - 1, i, j, w);
      s := ScheduleTurn(times, n - 1, i, j, w, Schedule(times, n - 1, i, j), s);
    }
  }

  lemma ScheduleTurn(times: seq<int>, m: nat, i: nat, j: nat, w: Window, ops: seq<Op>, s: System) returns (s': System)
    requires m < |times| && s == RunOps(OneCall(w), ops)
    ensures s' == OneTurn(times, m, i, j, w, s)
    ensures s' == RunOps(OneCall(w), ops + [Reserve(CallAt(times, m, i, j)),
                                            CheckReservation(RECEIPT, false, EventId(CoreAt(times, m, i, j)))])
  {
    s' := OneTurn(times, m, i, j, w, s);
    RunOpsTwo(OneCall(w), ops, Reserve(CallAt(times, m, i, j)),
              CheckReservation(RECEIPT, false, EventId(CoreAt(times, m, i, j))));
  }

  lemma {:induction false} ScheduleRuns(times: seq<int>, n: nat, i: nat, j: nat, w: Window) returns (s: System)
    requires i < j < |times| <= MAX_JOURNAL_RECORDS && n <= |times|
    requires times[j] < times[i] <= times[j] + Seconds(w)
    ensures s == AfterSchedule(times, n, i, j, w) && Scheduled(times, n, i, j, s)
  {
    if n == 0 {
      s := EmptySchedule(times, i, j, w);
    } else {
      s := ScheduleRuns(times, n - 1, i, j, w);
      s := ScheduleStep(times, n - 1, i, j, w, s);
    }
  }

  lemma EmptySchedule(times: seq<int>, i: nat, j: nat, w: Window) returns (s: System)
    requires i < j < |times|
    ensures s == AfterSchedule(times, 0, i, j, w) && Scheduled(times, 0, i, j, s)
  {
    s := System([], {});
  }

  lemma ScheduleStep(times: seq<int>, m: nat, i: nat, j: nat, w: Window, s: System) returns (s': System)
    requires i < j < |times| <= MAX_JOURNAL_RECORDS && m < |times|
    requires times[j] < times[i] <= times[j] + Seconds(w)
    requires Scheduled(times, m, i, j, s)
    ensures s' == OneTurn(times, m, i, j, w, s) && Scheduled(times, m + 1, i, j, s')
  {
    s' := OneTurn(times, m, i, j, w, s);
    var s1 := StepOp(OneCall(w), s, Reserve(CallAt(times, m, i, j)));
    ReserveNext(times, m, i, j, w, s);
    forall k | 0 <= k <= m
      ensures s1.records[k].core == CoreAt(times, k, i, j) && s1.records[k].eventId == EventId(CoreAt(times, k, i, j)) {
      assert k == m || s1.records[..m][k] == s.records[k];
    }
    if m == i || m == j {
      CheckNext(times, m, i, j, w, s1.records);
    }
  }

  /**
   * Backdating within a window breaks the cap: for any timestamps with such an inversion there is
   * a run with exactly these timestamps, every reservation checked at once, in which two allowed
   * calls share a window that admits one.
   */
  lemma InversionBreaksTheCap(times: seq<int>, w: Window) returns (ops: seq<Op>, start: int)
    requires |times| <= MAX_JOURNAL_RECORDS && !NoLateInversion(times, Seconds(w))
    ensures TimesOf(RunOps(OneCall(w), ops).records) == times
    ensures AllowedUsage(OneCall(w).budgets[0].config, start, None, RunOps(OneCall(w), ops)) > OneCall(w).budgets[0].config.limit
  {
    var i, j :| 0 <= i < j < |times| && times[j] < times[i] <= times[j] + Seconds(w);
    ops, start := Schedule(times, |times|, i, j), times[j];
    var s := ScheduleRuns(times, |times|, i, j, w);
    var run := ScheduleIsARun(times, |times|, i, j, w);
    assert TimesOf(s.records) == times by {
      forall k | 0 <= k < |times| ensures TimesOf(s.records)[k] == times[k] {
        assert s.records[k].core == CoreAt(times, k, i, j);
      }
    }
    var p := Charged(OneCall(w).budgets[0].config, start, None, s.allowed);
    assert p(s.records[i]) && p(s.records[j]);
    TwoHits(s.records, p, i, j);
  }

  lemma TwoHits(rs: seq<Record>, p: Record -> bool, i: nat, j: nat)
    requires i < j < |rs| && p(rs[i]) && p(rs[j])
    ensures |Filter(rs, p)| >= 2
  {
    assert rs == rs[..i] + [rs[i]] + rs[i + 1..j] + [rs[j]] + rs[j + 1..];
    FilterAppend(rs[..i] + [rs[i]] + rs[i + 1..j] + [rs[j]], rs[j + 1..], p);
    FilterAppend(rs[..i] + [rs[i]] + rs[i + 1..j], [rs[j]], p);
    FilterAppend(rs[..i] + [rs[i]], rs[i + 1..j], p);
    FilterAppend(rs[..i], [rs[i]], p);
    assert Filter([rs[i]], p) == [rs[i]] && Filter([rs[j]], p) == [rs[j]];
  }

  /** The cap as a property of timestamps alone: no run with these timestamps exceeds any budget. */
  ghost predicate CapsEveryRun(times: seq<int>, w: Window) {
    forall policy: BudgetPolicy, ops: seq<Op>, nb: NamedBudget, start: int, tool: Option<Json> |
      TimesOf(RunOps(policy, ops).records) == times && nb in policy.budgets && nb.config.limit > 0.0
      && nb.config.window == w && AgreeingFor(nb.config, RunOps(policy, ops).records) ::
      AllowedUsage(nb.config, start, tool, RunOps(policy, ops)) <= nb.config.limit
  }

  /** Timestamps protect every budget of a window length exactly when none is backdated within it. */
  lemma CapIffNoInversion(times: seq<int>, w: Window)
    requires |times| <= MAX_JOURNAL_RECORDS
    ensures CapsEveryRun(times, w) <==> NoLateInversion(times, Seconds(w))
  {
    if NoLateInversion(times, Seconds(w)) {
      forall policy: BudgetPolicy, ops: seq<Op>, nb: NamedBudget, start: int, tool: Option<Json> |
        TimesOf(RunOps(policy, ops).records) == times && nb in policy.budgets && nb.config.limit > 0.0
        && nb.config.window == w && AgreeingFor(nb.config, RunOps(policy, ops).records)
        ensures AllowedUsage(nb.config, start, tool, RunOps(policy, ops)) <= nb.config.limit
      {
        WindowCap(policy, ops, nb, start, tool);
      }
    } else {
      var ops, start := InversionBreaksTheCap(times, w);
      var nb := OneCall(w).budgets[0];
      assert nb in OneCall(w).budgets;
      assert AllowedUsage(nb.config, start, None, RunOps(OneCall(w), ops)) > nb.config.limit;
    }
  }

  // ----- and without agreement ---------------------------------------------------------------------------

  /** The reservation numbered `n`, with these facts. */
  function ReservationOf(n: nat, f: Facts): Report {
    Report(Digest(Int(n)), Digest(Str("receipt")), Allow, Digest(Str("policy")), "1", [], Some(f))
  }

  function CoreOf(n: nat, f: Facts): Core {
    var r := ReservationOf(n, f);
    Core(r.requestFingerprint, r.receiptFingerprint, Proposed, n, Allow, r.policyHash, r.evaluator, [], f)
  }

  /** One impact budget that counts every action once. */
  function ImpactOnce(types: set<string>, limit: real, w: Window): BudgetPolicy {
    BudgetPolicy(Digest(Str("policy")), [NamedBudget("impact", Budget(Impact, limit, w, DenyEffect, types, false, false, {}))])
  }

  /** Reservations 0, 1, ... with these facts, one per second. */
  predicate Booked(facts: seq<Facts>, records: seq<Record>) {
    && |records| == |facts|
    && forall k :: 0 <= k < |facts| ==> records[k].core == CoreOf(k, facts[k]) && records[k].eventId == EventId(CoreOf(k, facts[k]))
  }

  lemma BookNext(policy: BudgetPolicy, s: System, facts: seq<Facts>, f: Facts) returns (s': System)
    requires Booked(facts, s.records) && GoodFacts(f) && |facts| < MAX_JOURNAL_RECORDS
    ensures s' == StepOp(policy, s, Reserve(AppendCall(ReservationOf(|facts|, f), Proposed, |facts| * MICROS, 1)))
    ensures s'.allowed == s.allowed && Booked(facts + [f], s'.records)
  {
    var n := |facts|;
    var r := NewRecord(s.records, ReservationOf(n, f), Proposed, n * MICROS, 1);
    assert n * MICROS / MICROS == n;
    assert r.Ok? && r.value.core == CoreOf(n, f);
    forall k | 0 <= k < n ensures s.records[k].eventId != r.value.eventId {
      assert s.records[k].core.requestId == Digest(Int(k));
    }
    s' := StepOp(policy, s, Reserve(AppendCall(ReservationOf(n, f), Proposed, n * MICROS, 1)));
  }

  /** The check of the last reservation, when the candidates weigh no more than the limit. */
  lemma CheckLast(types: set<string>, limit: real, w: Window, s: System, facts: seq<Facts>, candidates: seq<Record>) returns (s': System)
    requires facts != [] && Booked(facts, s.records) && forall f :: f in facts ==> Countable(types, f)
    requires candidates == Candidates(ImpactOnce(types, limit, w).budgets[0].config, facts[|facts| - 1], |facts| - 1, s.records)
    requires ImpactSum(candidates) <= limit && forall i :: 0 <= i < |candidates| ==> candidates[i].core.facts.impact.Some?
    ensures s' == StepOp(ImpactOnce(types, limit, w), s, CheckReservation(RECEIPT, false, EventId(CoreOf(|facts| - 1, facts[|facts| - 1]))))
    ensures s'.records == s.records && s'.allowed == s.allowed + {EventId(CoreOf(|facts| - 1, facts[|facts| - 1]))}
  {
    var n, nb, policy := |facts| - 1, ImpactOnce(types, limit, w).budgets[0], ImpactOnce(types, limit, w);
    var id := EventId(CoreOf(n, facts[n]));
    assert facts[n] in facts;
    LastIsFound(facts, s.records, id);
    LastRow(types, limit, w, facts, s.records, candidates);
    RowsOfOne(nb, facts[n], n, s.records);
    s' := StepOp(policy, s, CheckReservation(RECEIPT, false, id));
  }

  lemma LastIsFound(facts: seq<Facts>, records: seq<Record>, id: EventId)
    requires facts != [] && Booked(facts, records) && id == EventId(CoreOf(|facts| - 1, facts[|facts| - 1]))
    ensures FindEvent(records, id) == Some(|facts| - 1)
  {
    var n := |facts| - 1;
    FindEventIsFirst(records, id, n);
    var f := FindEvent(records, id).value;
    assert records[f].core.requestId == Digest(Int(f)) && records[n].core.requestId == Digest(Int(n));
  }

  lemma LastRow(types: set<string>, limit: real, w: Window, facts: seq<Facts>, records: seq<Record>, candidates: seq<Record>)
    requires facts != [] && Booked(facts, records) && forall f :: f in facts ==> Countable(types, f)
    requires candidates == Candidates(ImpactOnce(types, limit, w).budgets[0].config, facts[|facts| - 1], |facts| - 1, records)
    requires ImpactSum(candidates) <= limit && forall i :: 0 <= i < |candidates| ==> candidates[i].core.facts.impact.Some?
    ensures RowFor(ImpactOnce(types, limit, w).budgets[0], facts[|facts| - 1], |facts| - 1, records).decision == Allow
  {
    var n, b := |facts| - 1, ImpactOnce(types, limit, w).budgets[0].config;
    assert facts[n] in facts;
    FirstObstacleIsSome(b, facts[n], n, records);
    forall k | 0 <= k < |records| ensures !HasObstacle(b, facts[n], n, records[k]) {
      assert facts[k] in facts;
    }
  }

  /** A reservation that an impact budget over these types can count, one per action. */
  predicate Countable(types: set<string>, f: Facts) {
    GoodFacts(f) && f.actionType in types && f.confirmation == Confirmed && f.actionFingerprint.Some? && f.impact.Some?
  }

  lemma OneCandidate(types: set<string>, limit: real, w: Window, f: Facts, records: seq<Record>)
    requires Countable(types, f) && Booked([f], records)
    ensures Candidates(ImpactOnce(types, limit, w).budgets[0].config, f, 0, records) == records
  {
    var b := ImpactOnce(types, limit, w).budgets[0].config;
    assert [f][0] == f && records == [records[0]];
    assert Filter(records, Counts(b, f, 0)) == [records[0]];
    assert records[..0] == [];
    assert [records[0]][..0] == [];
    assert FirstPerAction([records[0]]) == [records[0]];
  }

  lemma SecondIsDuplicate(types: set<string>, limit: real, w: Window, f: Facts, g: Facts, records: seq<Record>)
    requires Countable(types, f) && Countable(types, g) && f.actionFingerprint == g.actionFingerprint && Booked([f, g], records)
    ensures Candidates(ImpactOnce(types, limit, w).budgets[0].config, g, 1, records) == [records[0]]
  {
    var b := ImpactOnce(types, limit, w).budgets[0].config;
    assert [f, g][0] == f && [f, g][1] == g && records == [records[0], records[1]];
    assert records[1..] == [records[1]];
    assert Filter(records[1..], Counts(b, g, 1)) == [records[1]];
    assert Filter(records, Counts(b, g, 1)) == [records[0], records[1]];
    assert [records[0], records[1]][..1] == [records[0]] && [records[0]][..0] == [];
    assert FirstPerAction([records[0]]) == [records[0]];
    assert [records[0]][0].core.facts.actionFingerprint == records[1].core.facts.actionFingerprint;
    assert SeenAction([records[0]], records[1].core.facts.actionFingerprint);
  }

  /** Reserve and check the first, then the second. */
  function TwoOps(f: Facts, g: Facts): seq<Op> {
    [Reserve(AppendCall(ReservationOf(0, f), Proposed, 0 * MICROS, 1)), CheckReservation(RECEIPT, false, EventId(CoreOf(0, f)))]
    + [Reserve(AppendCall(ReservationOf(1, g), Proposed, 1 * MICROS, 1)), CheckReservation(RECEIPT, false, EventId(CoreOf(1, g)))]
  }

  lemma FirstTwo(types: set<string>, limit: real, w: Window, f: Facts) returns (s: System)
    requires Countable(types, f) && f.impact.value <= limit
    ensures s == StepOp(ImpactOnce(types, limit, w),
                        StepOp(ImpactOnce(types, limit, w), System([], {}), Reserve(AppendCall(ReservationOf(0, f), Proposed, 0 * MICROS, 1))),
                        CheckReservation(RECEIPT, false, EventId(CoreOf(0, f))))
    ensures Booked([f], s.records) && s.allowed == {EventId(CoreOf(0, f))}
  {
    var s1 := BookNext(ImpactOnce(types, limit, w), System([], {}), [], f);
    assert [] + [f] == [f];
    OneCandidate(types, limit, w, f, s1.records);
    ImpactSumOne(s1.records[0]);
    assert s1.records == [s1.records[0]];
    s := CheckLast(types, limit, w, s1, [f], s1.records);
  }

  lemma LastTwo(types: set<string>, limit: real, w: Window, f: Facts, g: Facts, s0: System) returns (s: System)
    requires Countable(types, f) && Countable(types, g) && f.actionFingerprint == g.actionFingerprint && f.impact.value <= limit
    requires Booked([f], s0.records)
    ensures s == StepOp(ImpactOnce(types, limit, w),
                        StepOp(ImpactOnce(types, limit, w), s0, Reserve(AppendCall(ReservationOf(1, g), Proposed, 1 * MICROS, 1))),
                        CheckReservation(RECEIPT, false, EventId(CoreOf(1, g))))
    ensures Booked([f, g], s.records) && s.allowed == s0.allowed + {EventId(CoreOf(1, g))}
  {
    var s1 := BookNext(ImpactOnce(types, limit, w), s0, [f], g);
    assert [f] + [g] == [f, g];
    SecondIsDuplicate(types, limit, w, f, g, s1.records);
    ImpactSumOne(s1.records[0]);
    s := CheckLast(types, limit, w, s1, [f, g], [s1.records[0]]);
  }

  lemma TwoOpsRun(types: set<string>, limit: real, w: Window, f: Facts, g: Facts) returns (s: System)
    requires Countable(types, f) && Countable(types, g) && f.actionFingerprint == g.actionFingerprint && f.impact.value <= limit
    ensures s == RunOps(ImpactOnce(types, limit, w), TwoOps(f, g)) && Booked([f, g], s.records)
    ensures s.allowed == {EventId(CoreOf(0, f)), EventId(CoreOf(1, g))}
  {
    var policy := ImpactOnce(types, limit, w);
    var first, second := TwoOps(f, g)[..2], TwoOps(f, g)[2..];
    var s1 := FirstTwo(types, limit, w, f);
    s := LastTwo(types, limit, w, f, g, s1);
    RunOpsTwo(policy, [], first[0], first[1]);
    assert [] + [first[0], first[1]] == first;
    RunOpsTwo(policy, first, second[0], second[1]);
    assert first + [second[0], second[1]] == TwoOps(f, g);
  }

  /**
   * One action journalled with two impacts breaks the cap, the lower one first: the second reservation is
   * let through as a duplicate, and later stands alone in a window with an impact above the limit.
   */
  lemma TwoImpactsBreakTheCap(f: Facts, g: Facts, w: Window) returns (policy: BudgetPolicy, nb: NamedBudget, ops: seq<Op>, start: int)
    requires Countable({f.actionType, g.actionType}, f) && Countable({f.actionType, g.actionType}, g)
    requires f.actionFingerprint == g.actionFingerprint && f.impact.value < g.impact.value
    ensures nb in policy.budgets && nb.config.metric == Impact && nb.config.limit > 0.0 && nb.config.window == w
    ensures Booked([f, g], RunOps(policy, ops).records)
    ensures AllowedUsage(nb.config, start, None, RunOps(policy, ops)) > nb.config.limit
  {
    var types, limit := {f.actionType, g.actionType}, (f.impact.value + g.impact.value) / 2.0;
    policy, ops, start := ImpactOnce(types, limit, w), TwoOps(f, g), 1;
    nb := policy.budgets[0];
    var s := TwoOpsRun(types, limit, w, f, g);
    SecondAlone(nb.config, s, f, g);
    ImpactSumOne(s.records[1]);
  }

  lemma SecondAlone(b: Budget, s: System, f: Facts, g: Facts)
    requires Booked([f, g], s.records) && EventId(CoreOf(1, g)) in s.allowed
    requires b.metric == Impact && !b.perTool && b.payloadClasses == {} && !b.countDuplicates && g.actionType in b.actionTypes
    ensures AllowedUsage(b, 1, None, s) == ImpactSum([s.records[1]])
  {
    var p := Charged(b, 1, None, s.allowed);
    assert [f, g][0] == f && [f, g][1] == g;
    OnlyTheLast(s.records, p, 1);
    assert [s.records[1]][..0] == [];
    assert FirstPerAction([s.records[1]]) == [s.records[1]];
  }

  /** Orderly runs in which every reservation is one of these two never exceed an impact budget. */
  ghost predicate CapsTwoFacts(f: Facts, g: Facts, w: Window) {
    forall policy: BudgetPolicy, ops: seq<Op>, nb: NamedBudget, start: int, tool: Option<Json> |
      OnlyFacts(RunOps(policy, ops).records, f, g) && NoLateInversion(TimesOf(RunOps(policy, ops).records), Seconds(w))
      && nb in policy.budgets && nb.config.limit > 0.0 && nb.config.metric == Impact && nb.config.window == w ::
      AllowedUsage(nb.config, start, tool, RunOps(policy, ops)) <= nb.config.limit
  }

  predicate OnlyFacts(records: seq<Record>, f: Facts, g: Facts) {
    forall i :: 0 <= i < |records| ==> records[i].core.facts == f || records[i].core.facts == g
  }

  /** One action may be journalled with two sets of facts exactly if both name the same impact. */
  lemma CapIffImpactsAgree(f: Facts, g: Facts, w: Window)
    requires Countable({f.actionType, g.actionType}, f) && Countable({f.actionType, g.actionType}, g)
    requires f.actionFingerprint == g.actionFingerprint
    ensures CapsTwoFacts(f, g, w) <==> f.impact == g.impact
  {
    if f.impact == g.impact {
      forall policy: BudgetPolicy, ops: seq<Op>, nb: NamedBudget, start: int, tool: Option<Json> |
        OnlyFacts(RunOps(policy, ops).records, f, g) && NoLateInversion(TimesOf(RunOps(policy, ops).records), Seconds(w))
        && nb in policy.budgets && nb.config.limit > 0.0 && nb.config.metric == Impact && nb.config.window == w
        ensures AllowedUsage(nb.config, start, tool, RunOps(policy, ops)) <= nb.config.limit
      {
        TwoFactsAgree(nb.config, RunOps(policy, ops).records, f, g);
        WindowCap(policy, ops, nb, start, tool);
      }
    } else {
      var low, high := f, g;
      if f.impact.value > g.impact.value {
        low, high := g, f;
      }
      assert {low.actionType, high.actionType} == {f.actionType, g.actionType};
      var policy, nb, ops, start := TwoImpactsBreakTheCap(low, high, w);
      TwoBooked(low, high, RunOps(policy, ops).records, w);
      assert OnlyFacts(RunOps(policy, ops).records, f, g);
      assert AllowedUsage(nb.config, start, None, RunOps(policy, ops)) > nb.config.limit;
    }
  }

  lemma TwoFactsAgree(b: Budget, records: seq<Record>, f: Facts, g: Facts)
    requires OnlyFacts(records, f, g) && f.impact == g.impact && b.metric == Impact
    ensures AgreeingFor(b, records)
  {
    var rs := Filter(records, MayCount(b));
    forall i | 0 <= i < |rs| ensures rs[i].core.facts == f || rs[i].core.facts == g {
      assert rs[i] in rs;
      FilterMember(records, MayCount(b), rs[i]);
      var k :| 0 <= k < |records| && records[k] == rs[i];
    }
  }

  lemma TwoBooked(f: Facts, g: Facts, records: seq<Record>, w: Window)
    requires Booked([f, g], records)
    ensures OnlyFacts(records, f, g) && OnlyFacts(records, g, f) && NoLateInversion(TimesOf(records), Seconds(w))
  {
    assert [f, g][0] == f && [f, g][1] == g;
    assert TimesOf(records) == [0, 1];
  }
}
