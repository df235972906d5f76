/**
 * The append-only action journal (journal.py): entries, duplicate links, framing and torn writes.
 *
 * Times are whole seconds in records and microseconds on input, as in the source. The JSON text
 * of an entry is abstract: a codec whose texts contain no newline and decode to what was encoded.
 */
module Journal {
  import opened Basics
  import opened Json
  import opened Models

  const MAX_JOURNAL_LINE_BYTES := 64 * 1024
  const MAX_JOURNAL_BYTES := 16 * 1024 * 1024
  const MAX_JOURNAL_RECORDS := 10_000
  const MAX_REPLAY_WINDOW_SECONDS := 86_400
  const MICROS := 1_000_000

  datatype InputError = InputError

  datatype Stage = Proposed | Evaluated | ObservedResult

  datatype Confirmation = Confirmed | Estimated | Unconfirmed

  datatype SizeClass = Small | Medium | Large | UnknownSize

  /** The data-minimised budget facts of one action; legacy records lack the action fingerprint. */
  datatype Facts = Facts(
    actionFingerprint: Option<Json>, actionType: string, confirmation: Confirmation,
    impact: Option<real>, size: SizeClass, target: Option<Json>, tool: Option<Json>)

  const NO_FACTS := Facts(None, "unknown", Unconfirmed, None, UnknownSize, None, None)

  /** The fields an event id is computed from. */
  datatype Core = Core(
    requestId: Json, receipt: Json, stage: Stage, at: int, decision: Decision,
    policyHash: Json, evaluator: string, ruleIds: seq<string>, facts: Facts)

  /** SHA-256 of the canonical event core. */
  datatype EventId = EventId(core: Core)

  datatype Duplicate = Duplicate(window: int, prior: Option<EventId>)

  datatype Record = Record(core: Core, eventId: EventId, duplicate: Duplicate)

  predicate GoodFacts(f: Facts) {
    && f.actionType in {"file", "filesystem", "network", "shell", "unknown"}
    && (f.impact.Some? ==> f.impact.value >= 0.0)
  }

  predicate GoodWindow(seconds: int) {
    1 <= seconds <= MAX_REPLAY_WINDOW_SECONDS
  }

  /** What `validate_journal_entry` accepts, beyond the shapes the types already give. */
  predicate ValidRecord(r: Record) {
    && r.eventId == EventId(r.core)
    && GoodFacts(r.core.facts)
    && GoodWindow(r.duplicate.window)
    && r.core.evaluator != ""
  }

  // ----- duplicates -----------------------------------------------------------------------------

  /** What a report contributes to its journal entry. */
  datatype Report = Report(
    requestFingerprint: Json, receiptFingerprint: Json, decision: Decision,
    policyHash: Json, evaluator: string, ruleIds: seq<string>, facts: Option<Facts>)

  function FactsOf(report: Report): Facts {
    if report.facts.Some? then report.facts.value else NO_FACTS
  }

  predicate SameAction(a: Option<Json>, b: Option<Json>) {
    a.Some? && b.Some? ==> a == b
  }

  predicate IsMatch(r: Record, requestId: Json, at: int, window: int, fingerprint: Option<Json>) {
    && r.core.requestId == requestId
    && at - window * MICROS <= r.core.at * MICROS <= at
    && SameAction(fingerprint, r.core.facts.actionFingerprint)
  }

  /** The index of the latest matching record; among equally late ones the first. */
  function Prior(records: seq<Record>, requestId: Json, at: int, window: int, fingerprint: Option<Json>): (p: Option<nat>)
    ensures p.Some? ==> p.value < |records|
  {
    if records == [] then None
    else
      var last := |records| - 1;
      var p := Prior(records[..last], requestId, at, window, fingerprint);
      if IsMatch(records[last], requestId, at, window, fingerprint)
         && (p.None? || records[p.value].core.at < records[last].core.at)
      then Some(last) else p
  }

  /** `Prior` finds a match exactly when there is one, none is later, and none as late comes before it. */
  lemma {:induction false} PriorIsLatestMatch(records: seq<Record>, requestId: Json, at: int, window: int, fingerprint: Option<Json>)
    ensures var p := Prior(records, requestId, at, window, fingerprint);
            && (p.Some? ==> IsMatch(records[p.value], requestId, at, window, fingerprint))
            && (forall i :: 0 <= i < |records| && IsMatch(records[i], requestId, at, window, fingerprint) ==>
                  p.Some? && records[i].core.at <= records[p.value].core.at
                  && (i < p.value ==> records[i].core.at < records[p.value].core.at))
  {
    if records != [] {
      var last := |records| - 1;
      PriorIsLatestMatch(records[..last], requestId, at, window, fingerprint);
      forall i | 0 <= i < last && IsMatch(records[i], requestId, at, window, fingerprint)
        ensures records[i] == records[..last][i] {
      }
    }
  }

  /** max() by time: the first of the latest. */
  method Latest(records: seq<Record>, matches: seq<nat>) returns (p: Option<nat>)
    requires forall k :: 0 <= k < |matches| ==> matches[k] < |records|
    requires forall a, b :: 0 <= a < b < |matches| ==> matches[a] < matches[b]
    ensures p.None? <==> matches == []
    ensures p.Some? ==> p.value in matches && forall k :: 0 <= k < |matches| ==>
              records[matches[k]].core.at <= records[p.value].core.at
              && (matches[k] < p.value ==> records[matches[k]].core.at < records[p.value].core.at)
  {
    p := None;
    for k := 0 to |matches|
      invariant p.None? <==> k == 0
      invariant p.Some? ==> p.value < |records| && exists j :: 0 <= j < k && matches[j] == p.value
      invariant p.Some? ==> forall j :: 0 <= j < k ==>
                  records[matches[j]].core.at <= records[p.value].core.at
                  && (matches[j] < p.value ==> records[matches[j]].core.at < records[p.value].core.at)
    {
      if p.None? || records[p.value].core.at < records[matches[k]].core.at {
        p := Some(matches[k]);
      }
    }
  }

  method PriorDuplicate(records: seq<Record>, requestId: Json, at: int, window: int, fingerprint: Option<Json>)
    returns (p: Option<nat>)
    ensures p == Prior(records, requestId, at, window, fingerprint)
  {
    var matches: seq<nat> := [];
    for i := 0 to |records|
      invariant forall m :: 0 <= m < |matches| ==>
                  matches[m] < i && IsMatch(records[matches[m]], requestId, at, window, fingerprint)
      invariant forall k :: 0 <= k < i && IsMatch(records[k], requestId, at, window, fingerprint) ==> k in matches
      invariant forall a, b :: 0 <= a < b < |matches| ==> matches[a] < matches[b]
    {
      if records[i].core.requestId != requestId
         || !(at - window * MICROS <= records[i].core.at * MICROS <= at) {
        continue;
      }
      var earlier := records[i].core.facts.actionFingerprint;
      if fingerprint.Some? && earlier.Some? && earlier != fingerprint {
        continue;
      }
      matches := matches + [i];
    }
    p := Latest(records, matches);
    PriorIsLatestMatch(records, requestId, at, window, fingerprint);
  }

  // ----- building and appending entries -----------------------------------------------------------

  /** `journal_entry_from_report` against the records already there. */
  function NewRecord(records: seq<Record>, report: Report, stage: Stage, at: int, window: int): Result<Record, InputError> {
    var facts := FactsOf(report);
    if !GoodWindow(window) || !GoodFacts(facts) || report.evaluator == "" then Err(InputError)
    else
      var p := Prior(records, report.requestFingerprint, at, window, facts.actionFingerprint);
      var core := Core(report.requestFingerprint, report.receiptFingerprint, stage, at / MICROS, report.decision,
                       report.policyHash, report.evaluator, report.ruleIds, facts);
      Ok(Record(core, EventId(core), Duplicate(window, if p.Some? then Some(records[p.value].eventId) else None)))
  }

  predicate HasEvent(records: seq<Record>, id: EventId) {
    exists i :: 0 <= i < |records| && records[i].eventId == id
  }

  /** One append on the level of records: refused, or one new record at the end. */
  function Appended(records: seq<Record>, report: Report, stage: Stage, at: int, window: int): Result<seq<Record>, InputError> {
    var r := NewRecord(records, report, stage, at, window);
    if r.Err? then Err(InputError)
    else if HasEvent(records, r.value.eventId) then Err(InputError)
    else if |records| >= MAX_JOURNAL_RECORDS then Err(InputError)
    else Ok(records + [r.value])
  }

  method JournalEntryFromReport(records: seq<Record>, report: Report, stage: Stage, at: int, window: int)
    returns (r: Result<Record, InputError>)
    ensures r == NewRecord(records, report, stage, at, window)
  {
    if !GoodWindow(window) {
      return Err(InputError);
    }
    var facts := NO_FACTS;
    if report.facts.Some? {
      facts := report.facts.value;
    }
    var prior := PriorDuplicate(records, report.requestFingerprint, at, window, facts.actionFingerprint);
    var core := Core(report.requestFingerprint, report.receiptFingerprint, stage, at / MICROS, report.decision,
                     report.policyHash, report.evaluator, report.ruleIds, facts);
    var entry := Record(core, EventId(core),
                        Duplicate(window, if prior.Some? then Some(records[prior.value].eventId) else None));
    if !ValidRecord(entry) {
      return Err(InputError);
    }
    return Ok(entry);
  }

  // ----- runs of appends ------------------------------------------------------------------------

  datatype AppendCall = AppendCall(report: Report, stage: Stage, at: int, window: int)

  function AfterAppend(records: seq<Record>, c: AppendCall): seq<Record> {
    var r := Appended(records, c.report, c.stage, c.at, c.window);
    if r.Ok? then r.value else records
  }

  /** The journal after a sequence of append calls, refused ones leaving it alone. */
  function Run(calls: seq<AppendCall>): seq<Record> {
    if calls == [] then [] else AfterAppend(Run(calls[..|calls| - 1]), calls[|calls| - 1])
  }

  predicate DistinctEvents(records: seq<Record>) {
    forall i, j :: 0 <= i < j < |records| ==> records[i].eventId != records[j].eventId
  }

  /** The link of record `i` names the latest match before it, or there is no match. */
  ghost predicate LinkedAt(records: seq<Record>, i: nat)
    requires i < |records|
  {
    exists at :: LinkedAtTime(records, i, at)
  }

  predicate LinkedAtTime(records: seq<Record>, i: nat, at: int)
    requires i < |records|
  {
    var r := records[i];
    && r.core.at == at / MICROS
    && var p := Prior(records[..i], r.core.requestId, at, r.duplicate.window, r.core.facts.actionFingerprint);
       r.duplicate.prior == if p.Some? then Some(records[p.value].eventId) else None
  }

  ghost predicate GoodRun(records: seq<Record>) {
    && DistinctEvents(records)
    && (forall i :: 0 <= i < |records| ==> ValidRecord(records[i]) && LinkedAt(records, i))
    && |records| <= MAX_JOURNAL_RECORDS
  }

  lemma GoodRunAppend(records: seq<Record>, c: AppendCall)
    requires GoodRun(records)
    ensures GoodRun(AfterAppend(records, c))
  {
    var after := AfterAppend(records, c);
    if after != records {
      forall i | 0 <= i < |after| ensures ValidRecord(after[i]) && LinkedAt(after, i) {
        assert after[..i] == records[..i];
        if i < |records| {
          var at :| LinkedAtTime(records, i, at);
          assert LinkedAtTime(after, i, at);
        } else {
          assert records[..i] == records;
          assert LinkedAtTime(after, i, c.at);
        }
      }
    }
  }

  /** Every sequence of appends keeps event ids distinct and links true. */
  lemma {:induction false} EveryRunIsGood(calls: seq<AppendCall>)
    ensures GoodRun(Run(calls))
  {
    if calls != [] {
      EveryRunIsGood(calls[..|calls| - 1]);
      GoodRunAppend(Run(calls[..|calls| - 1]), calls[|calls| - 1]);
    }
  }

  /**
   * Following a duplicate link: it leads to exactly one record, an earlier one with the same
   * request that is not later in time, lies inside the window, and is the latest such record.
   */
  lemma LinksGoBack(calls: seq<AppendCall>, i: nat)
    requires i < |Run(calls)| && Run(calls)[i].duplicate.prior.Some?
    ensures var records, r := Run(calls), Run(calls)[i];
            exists j :: 0 <= j < i && records[j].eventId == r.duplicate.prior.value
              && (forall k :: 0 <= k < |records| && records[k].eventId == r.duplicate.prior.value ==> k == j)
              && records[j].core.requestId == r.core.requestId
              && r.core.at - r.duplicate.window <= records[j].core.at <= r.core.at
              && (forall k :: 0 <= k < i && records[k].core.requestId == r.core.requestId
                    && records[j].core.at < records[k].core.at <= r.core.at
                    ==> !SameAction(r.core.facts.actionFingerprint, records[k].core.facts.actionFingerprint))
  {
    EveryRunIsGood(calls);
    var records, r := Run(calls), Run(calls)[i];
    var at :| LinkedAtTime(records, i, at);
    var p := Prior(records[..i], r.core.requestId, at, r.duplicate.window, r.core.facts.actionFingerprint);
    PriorIsLatestMatch(records[..i], r.core.requestId, at, r.duplicate.window, r.core.facts.actionFingerprint);
    var j := p.value;
    assert IsMatch(records[..i][j], r.core.requestId, at, r.duplicate.window, r.core.facts.actionFingerprint);
    forall k | 0 <= k < i && records[k].core.requestId == r.core.requestId
               && records[j].core.at < records[k].core.at <= r.core.at
      ensures !SameAction(r.core.facts.actionFingerprint, records[k].core.facts.actionFingerprint)
    {
      assert records[..i][k] == records[k];
      assert !IsMatch(records[k], r.core.requestId, at, r.duplicate.window, r.core.facts.actionFingerprint);
    }
  }

  /** A record without a link really had no match in its window. */
  lemma NoLinkNoMatch(calls: seq<AppendCall>, i: nat, k: nat)
    requires k < i < |Run(calls)| && Run(calls)[i].duplicate.prior.None?
    requires Run(calls)[k].core.requestId == Run(calls)[i].core.requestId
    requires SameAction(Run(calls)[i].core.facts.actionFingerprint, Run(calls)[k].core.facts.actionFingerprint)
    ensures Run(calls)[k].core.at > Run(calls)[i].core.at
            || Run(calls)[k].core.at <= Run(calls)[i].core.at - Run(calls)[i].duplicate.window
  {
    EveryRunIsGood(calls);
    var records, r := Run(calls), Run(calls)[i];
    var at :| LinkedAtTime(records, i, at);
    PriorIsLatestMatch(records[..i], r.core.requestId, at, r.duplicate.window, r.core.facts.actionFingerprint);
    assert records[..i][k] == records[k];
    assert !IsMatch(records[k], r.core.requestId, at, r.duplicate.window, r.core.facts.actionFingerprint);
  }

  // ----- where records come from ------------------------------------------------------------------------------

  /** The record of an append: what the report says, at the second of the call. */
  predicate Carries(r: Record, c: AppendCall) {
    && r.core.requestId == c.report.requestFingerprint && r.core.receipt == c.report.receiptFingerprint
    && r.core.decision == c.report.decision && r.core.policyHash == c.report.policyHash
    && r.core.evaluator == c.report.evaluator && r.core.ruleIds == c.report.ruleIds
    && r.core.stage == c.stage && r.core.at * 1_000_000 <= c.at < (r.core.at + 1) * 1_000_000
    && (c.report.facts.Some? ==> r.core.facts == c.report.facts.value)
    && (c.report.facts.None? ==>
          r.core.facts.actionFingerprint.None? && r.core.facts.actionType == "unknown" && r.core.facts.confirmation == Unconfirmed)
    && r.duplicate.window == c.window
  }

  /** Facts of a known action type whose impact, if there is one, is not negative. */
  predicate FactsAreKnown(f: Facts) {
    && (f.actionType == "file" || f.actionType == "filesystem" || f.actionType == "network" || f.actionType == "shell"
        || f.actionType == "unknown")
    && (f.impact.Some? ==> 0.0 <= f.impact.value)
  }

  /** The journal refuses an append: its window, evaluator or facts, a full journal, or the same event again. */
  predicate IsRefused(records: seq<Record>, c: AppendCall) {
    || c.window < 1 || c.window > 86_400 || c.report.evaluator == "" || |records| >= 10_000
    || (c.report.facts.Some? && !FactsAreKnown(c.report.facts.value))
    || exists i :: 0 <= i < |records| && SameEvent(records[i], c)
  }

  /** The record of another append would have the same core. */
  predicate SameEvent(r: Record, c: AppendCall) {
    r.eventId == EventId(Core(c.report.requestFingerprint, c.report.receiptFingerprint, c.stage, c.at / MICROS, c.report.decision,
                              c.report.policyHash, c.report.evaluator, c.report.ruleIds, FactsOf(c.report)))
  }

  lemma AppendIsRefusedIff(records: seq<Record>, c: AppendCall)
    ensures AfterAppend(records, c) == records <==> IsRefused(records, c)
    ensures !IsRefused(records, c) ==>
              exists r :: AfterAppend(records, c) == records + [r] && Carries(r, c)
  {
    var made := NewRecord(records, c.report, c.stage, c.at, c.window);
    if made.Ok? {
      assert HasEvent(records, made.value.eventId) <==> exists i :: 0 <= i < |records| && SameEvent(records[i], c);
      assert Carries(made.value, c);
    }
  }

  // ----- what a record links to -------------------------------------------------------------------------------

  /** An earlier record of the same request at most a window old, for the same action as far as both are known. */
  predicate Precedes(records: seq<Record>, k: int, c: AppendCall) {
    && 0 <= k < |records| && records[k].core.requestId == c.report.requestFingerprint
    && records[k].core.at * 1_000_000 <= c.at && c.at - records[k].core.at * 1_000_000 <= c.window * 1_000_000
    && (c.report.facts.None? || c.report.facts.value.actionFingerprint.None? || records[k].core.facts.actionFingerprint.None?
        || c.report.facts.value.actionFingerprint == records[k].core.facts.actionFingerprint)
  }

  lemma PrecedesIff(records: seq<Record>, k: nat, c: AppendCall)
    requires k < |records|
    ensures IsMatch(records[k], c.report.requestFingerprint, c.at, c.window, FactsOf(c.report).actionFingerprint)
            <==> Precedes(records, k, c)
  {
  }

  // An appended record is marked a duplicate if and only if such a record is there, and it then names the
  // latest of them.
  lemma LinkIff(records: seq<Record>, c: AppendCall, r: Record)
    requires AfterAppend(records, c) == records + [r]
    ensures r.duplicate.prior.Some? <==> exists k :: 0 <= k < |records| && Precedes(records, k, c)
    ensures r.duplicate.prior.Some? ==>
              exists k :: 0 <= k < |records| && Precedes(records, k, c) && records[k].eventId == r.duplicate.prior.value
                          && forall j :: 0 <= j < |records| && Precedes(records, j, c) ==> records[j].core.at <= records[k].core.at
  {
    var fingerprint := FactsOf(c.report).actionFingerprint;
    PriorIsLatestMatch(records, c.report.requestFingerprint, c.at, c.window, fingerprint);
    forall k | 0 <= k < |records|
      ensures IsMatch(records[k], c.report.requestFingerprint, c.at, c.window, fingerprint) <==> Precedes(records, k, c)
    {
      PrecedesIff(records, k, c);
    }
    assert (records + [r])[|records|] == r;
  }

  /** `from[i]` is the call that appended record `i`. */
  predicate CarriedBy(records: seq<Record>, calls: seq<AppendCall>, from: seq<int>) {
    && |from| == |records|
    && (forall i :: 0 <= i < |from| ==> 0 <= from[i] < |calls| && Carries(records[i], calls[from[i]]))
    && (forall i, j :: 0 <= i < j < |from| ==> from[i] < from[j])
  }

  predicate IsTaken(calls: seq<AppendCall>, k: int) {
    0 <= k < |calls| && !IsRefused(Run(calls[..k]), calls[k])
  }

  /** Every call that was not refused is there. */
  ghost predicate NoneIsMissing(calls: seq<AppendCall>, from: seq<int>) {
    forall k :: k in from <==> IsTaken(calls, k)
  }

  lemma CarriedOneMore(records: seq<Record>, calls: seq<AppendCall>, from: seq<int>, c: AppendCall, r: Record)
    requires CarriedBy(records, calls, from)
    ensures CarriedBy(records, calls + [c], from)
    ensures Carries(r, c) ==> CarriedBy(records + [r], calls + [c], from + [|calls|])
  {
    forall i | 0 <= i < |from|
      ensures (calls + [c])[from[i]] == calls[from[i]]
    {
    }
  }

  lemma TakenStays(calls: seq<AppendCall>, c: AppendCall, k: int)
    ensures IsTaken(calls + [c], k) <==> IsTaken(calls, k) || (k == |calls| && !IsRefused(Run(calls), c))
  {
    if 0 <= k <= |calls| {
      assert (calls + [c])[..k] == calls[..k];
      assert calls[..|calls|] == calls;
    }
  }

  lemma NoneIsMissed(calls: seq<AppendCall>, before: seq<int>, c: AppendCall, from: seq<int>)
    requires NoneIsMissing(calls, before)
    requires from == if IsRefused(Run(calls), c) then before else before + [|calls|]
    ensures NoneIsMissing(calls + [c], from)
  {
    forall k
      ensures k in from <==> IsTaken(calls + [c], k)
    {
      TakenStays(calls, c, k);
    }
  }

  lemma RunSnoc(calls: seq<AppendCall>, c: AppendCall)
    ensures Run(calls + [c]) == AfterAppend(Run(calls), c)
  {
    assert (calls + [c])[..|calls|] == calls;
  }

  // The records of any run are, one by one and in order, what the calls that were not refused reported.
  lemma {:induction false} EveryRecordHasItsCall(calls: seq<AppendCall>) returns (from: seq<int>)
    ensures CarriedBy(Run(calls), calls, from) && NoneIsMissing(calls, from)
  {
    if calls == [] {
      from := [];
    } else {
      var init, c := calls[..|calls| - 1], calls[|calls| - 1];
      assert calls == init + [c];
      var before := EveryRecordHasItsCall(init);
      from := if IsRefused(Run(init), c) then before else before + [|init|];
      RunSnoc(init, c);
      AppendIsRefusedIff(Run(init), c);
      NoneIsMissed(init, before, c, from);
      var r: Record :| IsRefused(Run(init), c) || (Run(calls) == Run(init) + [r] && Carries(r, c));
      CarriedOneMore(Run(init), init, before, c, r);
    }
  }
}
