/**
 * In-memory grants and the terminal prompt (SessionGrantStore and TerminalApprovalProvider of
 * approval.py), and what they promise over every history of authorize calls.
 */
module Grants {
  import opened Basics
  import opened Json
  import opened Approval

  datatype Grant = Grant(expiresAt: real, remaining: int)

  type Store = map<Json, Grant>

  // ----- the store --------------------------------------------------------------------------------

  predicate Live(store: Store, scope: Json, now: real) {
    scope in store && now < store[scope].expiresAt && store[scope].remaining > 0
  }

  /** What one consume leaves behind; it succeeds exactly on a live grant. */
  function AfterConsume(store: Store, scope: Json, now: real): Store {
    if Live(store, scope, now) && store[scope].remaining > 1
    then store[scope := Grant(store[scope].expiresAt, store[scope].remaining - 1)]
    else store - {scope}
  }

  function AfterAdd(store: Store, scope: Json, now: real, ttl: int, uses: int): Store {
    store[scope := Grant(now + ttl as real, uses)]
  }

  class SessionGrantStore {
    var grants: Store

    constructor ()
      ensures grants == map[]
    {
      grants := map[];
    }

    method Consume(scope: Json, now: real) returns (ok: bool)
      modifies this
      ensures ok == Live(old(grants), scope, now)
      ensures grants == AfterConsume(old(grants), scope, now)
    {
      if scope !in grants {
        assert grants - {scope} == grants;
        return false;
      }
      var grant := grants[scope];
      if now >= grant.expiresAt || grant.remaining <= 0 {
        grants := grants - {scope};
        return false;
      }
      grants := grants[scope := Grant(grant.expiresAt, grant.remaining - 1)];
      if grants[scope].remaining == 0 {
        grants := grants - {scope};
        assert grants == old(grants) - {scope};
      }
      ok := true;
    }

    method Add(scope: Json, now: real, ttl: int, uses: int)
      modifies this
      ensures grants == AfterAdd(old(grants), scope, now, ttl, uses)
    {
      grants := grants[scope := Grant(now + ttl as real, uses)];
    }
  }

  // ----- the prompt -------------------------------------------------------------------------------

  datatype Source =
    | SessionGrant | ClosedInput | TimeoutOrClosed | InvalidResponse
    | GrantNotAllowed | ExplicitApproval | DenyAnswer

  datatype Outcome = Outcome(approved: bool, source: Source)

  /**
   * The world during one authorize call: the first clock reading, the operator's line (none on a
   * timeout, a closed input or an empty read) and the clock reading when a grant is stored.
   */
  datatype Moment = Moment(now: real, line: Option<string>, later: real)

  datatype ProviderState = ProviderState(store: Store, closed: bool)

  /** The answer when no grant helped. */
  function Prompted(closed: bool, request: Request, m: Moment): Outcome {
    if closed then Outcome(false, ClosedInput)
    else if m.line.None? then Outcome(false, TimeoutOrClosed)
    else
      var parsed := ReadLine(m.line.value, request.requestFingerprint);
      if parsed.Err? then Outcome(false, InvalidResponse)
      else if !parsed.value.approved then Outcome(false, DenyAnswer)
      else if parsed.value.uses != 0 && !request.grantAllowed then Outcome(false, GrantNotAllowed)
      else Outcome(true, ExplicitApproval)
  }

  function OutcomeOf(p: ProviderState, request: Request, m: Moment): Outcome {
    if Live(p.store, request.scopeFingerprint, m.now) then Outcome(true, SessionGrant)
    else Prompted(p.closed, request, m)
  }

  /** What the operator's line gives: the zero answer when there is none or it is invalid. */
  function Given(request: Request, m: Moment): Parsed {
    if m.line.Some? && ReadLine(m.line.value, request.requestFingerprint).Ok?
    then ReadLine(m.line.value, request.requestFingerprint).value
    else Parsed(false, 0, 0)
  }

  function AfterAuthorize(p: ProviderState, request: Request, m: Moment): ProviderState {
    var outcome := OutcomeOf(p, request, m);
    var store := AfterConsume(p.store, request.scopeFingerprint, m.now);
    ProviderState(
      if outcome.source == ExplicitApproval && Given(request, m).uses != 0
      then AfterAdd(store, request.scopeFingerprint, m.later, Given(request, m).ttl, Given(request, m).uses)
      else store,
      p.closed || outcome.source == TimeoutOrClosed)
  }

  class TerminalApprovalProvider {
    const timeout: real
    const grants: SessionGrantStore
    var closed: bool

    constructor (hasInput: bool, timeout: real)
      requires GoodTimeout(timeout)
      ensures Value() == ProviderState(map[], !hasInput)
      ensures fresh(grants) && this.timeout == timeout
    {
      this.timeout := timeout;
      this.grants := new SessionGrantStore();
      this.closed := !hasInput;
    }

    function Value(): ProviderState
      reads this, grants
    {
      ProviderState(grants.grants, closed)
    }

    method Authorize(request: Request, m: Moment) returns (outcome: Outcome)
      modifies this, grants
      ensures outcome == OutcomeOf(old(Value()), request, m)
      ensures Value() == AfterAuthorize(old(Value()), request, m)
    {
      var reused := grants.Consume(request.scopeFingerprint, m.now);
      if reused {
        return Outcome(true, SessionGrant);
      }
      if closed {
        return Outcome(false, ClosedInput);
      }
      if m.line.None? {
        closed := true;
        return Outcome(false, TimeoutOrClosed);
      }
      var parsed := ReadLine(m.line.value, request.requestFingerprint);
      if parsed.Err? {
        return Outcome(false, InvalidResponse);
      }
      if parsed.value.approved && parsed.value.uses != 0 {
        if !request.grantAllowed {
          return Outcome(false, GrantNotAllowed);
        }
        grants.Add(request.scopeFingerprint, m.later, parsed.value.ttl, parsed.value.uses);
      }
      outcome := Outcome(parsed.value.approved, if parsed.value.approved then ExplicitApproval else DenyAnswer);
    }
  }

  // ----- histories ----------------------------------------------------------------------------------

  datatype Ask = Ask(request: Request, moment: Moment, outcome: Outcome)

  function StateAfter(closed: bool, h: seq<Ask>): ProviderState {
    if h == [] then ProviderState(map[], closed)
    else AfterAuthorize(StateAfter(closed, h[..|h| - 1]), h[|h| - 1].request, h[|h| - 1].moment)
  }

  /** Every recorded outcome is what the provider answers after the asks before it. */
  predicate Genuine(closed: bool, h: seq<Ask>) {
    h == [] ||
    (var before, last := h[..|h| - 1], h[|h| - 1];
     Genuine(closed, before)
     && last.request.requestFingerprint.Digest?
     && last.outcome == OutcomeOf(StateAfter(closed, before), last.request, last.moment))
  }

  lemma {:induction false} GenuinePrefix(closed: bool, h: seq<Ask>, n: nat)
    requires Genuine(closed, h) && n <= |h|
    ensures Genuine(closed, h[..n])
    decreases |h|
  {
    if n == |h| {
      assert h[..n] == h;
    } else {
      assert h[..|h| - 1][..n] == h[..n];
      GenuinePrefix(closed, h[..|h| - 1], n);
    }
  }

  /** The provider state that answered ask `i`. */
  lemma StateAt(closed: bool, h: seq<Ask>, i: nat) returns (p: ProviderState)
    requires Genuine(closed, h) && i < |h|
    ensures p == StateAfter(closed, h[..i]) && Genuine(closed, h[..i]) && Genuine(closed, h[..i + 1])
    ensures h[i].outcome == OutcomeOf(p, h[i].request, h[i].moment)
  {
    GenuinePrefix(closed, h, i);
    GenuinePrefix(closed, h, i + 1);
    assert h[..i + 1][..i] == h[..i];
    p := StateAfter(closed, h[..i]);
  }

  predicate GivesGrant(a: Ask, scope: Json) {
    && a.request.scopeFingerprint == scope && a.outcome.source == ExplicitApproval
    && Given(a.request, a.moment).uses != 0
  }

  predicate Reuses(a: Ask, scope: Json) {
    a.request.scopeFingerprint == scope && a.outcome.source == SessionGrant
  }

  function ReusesSince(h: seq<Ask>, scope: Json, from: int): nat {
    if h == [] || |h| <= from then 0
    else ReusesSince(h[..|h| - 1], scope, from) + (if Reuses(h[|h| - 1], scope) then 1 else 0)
  }

  /** The explicit grant an entry of the store goes back to, and how much of it is left. */
  predicate Explains(h: seq<Ask>, scope: Json, g: Grant, j: int) {
    && 0 <= j < |h| && GivesGrant(h[j], scope) && h[j].request.grantAllowed
    && 1 <= Given(h[j].request, h[j].moment).uses <= MAX_GRANT_USES
    && 1 <= Given(h[j].request, h[j].moment).ttl <= MAX_GRANT_TTL_SECONDS
    && g.expiresAt == h[j].moment.later + Given(h[j].request, h[j].moment).ttl as real
    && g.remaining == Given(h[j].request, h[j].moment).uses - ReusesSince(h, scope, j + 1)
    && 1 <= g.remaining <= MAX_GRANT_USES
  }

  lemma ExplainsExtends(h: seq<Ask>, a: Ask, scope: Json, g: Grant, g': Grant, j: int)
    requires Explains(h, scope, g, j)
    requires g' == Grant(g.expiresAt, g.remaining - (if Reuses(a, scope) then 1 else 0)) && g'.remaining >= 1
    ensures Explains(h + [a], scope, g', j)
  {
    assert (h + [a])[..|h|] == h;
    assert (h + [a])[j] == h[j];
  }

  lemma FreshGrantExplains(h: seq<Ask>, a: Ask, scope: Json)
    requires GivesGrant(a, scope) && a.request.requestFingerprint.Digest?
    requires exists p :: a.outcome == OutcomeOf(p, a.request, a.moment)
    ensures var given := Given(a.request, a.moment);
            Explains(h + [a], scope, Grant(a.moment.later + given.ttl as real, given.uses), |h|)
  {
    OnlyExactLinesApprove(a.moment.line.value, a.request.requestFingerprint);
    assert (h + [a])[|h|] == a;
  }

  /** A call that grants nothing for `scope` leaves at most what was there, one use less per reuse. */
  lemma StoredBefore(p: ProviderState, a: Ask, scope: Json)
    requires a.outcome == OutcomeOf(p, a.request, a.moment) && !GivesGrant(a, scope)
    requires scope in AfterAuthorize(p, a.request, a.moment).store
    ensures scope in p.store
    ensures var g, g' := p.store[scope], AfterAuthorize(p, a.request, a.moment).store[scope];
            g' == Grant(g.expiresAt, g.remaining - (if Reuses(a, scope) then 1 else 0))
            && (Reuses(a, scope) ==> g'.remaining >= 1)
  {
  }

  /** Whatever is in the store was put there by an explicit grant and has been counted down since. */
  lemma {:induction false} StoreIsExplained(closed: bool, h: seq<Ask>, scope: Json) returns (j: int)
    requires Genuine(closed, h) && scope in StateAfter(closed, h).store
    ensures Explains(h, scope, StateAfter(closed, h).store[scope], j)
  {
    var before, a := h[..|h| - 1], h[|h| - 1];
    var p := StateAfter(closed, before);
    assert h == before + [a];
    if GivesGrant(a, scope) {
      FreshGrantExplains(before, a, scope);
      j := |before|;
    } else {
      StoredBefore(p, a, scope);
      j := StoreIsExplained(closed, before, scope);
      ExplainsExtends(before, a, scope, p.store[scope], StateAfter(closed, h).store[scope], j);
    }
  }

  /**
   * A grant authorises only what an operator granted before: the same scope, a grant the request
   * allowed, not yet expired, and not used up.
   */
  lemma ReuseGoesBackToAGrant(closed: bool, h: seq<Ask>, i: nat) returns (j: int)
    requires Genuine(closed, h) && i < |h| && h[i].outcome.source == SessionGrant
    ensures 0 <= j < i && GivesGrant(h[j], h[i].request.scopeFingerprint) && h[j].request.grantAllowed
    ensures var given := Given(h[j].request, h[j].moment);
            && h[i].moment.now < h[j].moment.later + given.ttl as real
            && given.ttl <= MAX_GRANT_TTL_SECONDS
            && ReusesSince(h[..i + 1], h[i].request.scopeFingerprint, j + 1) <= given.uses <= MAX_GRANT_USES
  {
    var p := StateAt(closed, h, i);
    j := StoreIsExplained(closed, h[..i], h[i].request.scopeFingerprint);
    assert h[..i + 1][..i] == h[..i];
  }

  // ----- conservation -----------------------------------------------------------------------------

  function GrantedBy(a: Ask, scope: Json): int {
    if GivesGrant(a, scope) then Given(a.request, a.moment).uses else 0
  }

  function Granted(h: seq<Ask>, scope: Json): int {
    if h == [] then 0 else Granted(h[..|h| - 1], scope) + GrantedBy(h[|h| - 1], scope)
  }

  /** Uses dropped because the grant was found expired. */
  function LostBy(store: Store, a: Ask, scope: Json): int {
    if a.request.scopeFingerprint == scope && scope in store && store[scope].expiresAt <= a.moment.now
    then store[scope].remaining else 0
  }

  function Lost(closed: bool, h: seq<Ask>, scope: Json): int {
    if h == [] then 0
    else Lost(closed, h[..|h| - 1], scope) + LostBy(StateAfter(closed, h[..|h| - 1]).store, h[|h| - 1], scope)
  }

  function Remaining(store: Store, scope: Json): int {
    if scope in store then store[scope].remaining else 0
  }

  /** One authorize call: what it grants, consumes and loses is exactly the change of the store. */
  lemma CallConserves(p: ProviderState, a: Ask, scope: Json)
    requires a.outcome == OutcomeOf(p, a.request, a.moment)
    requires scope in p.store ==> 1 <= p.store[scope].remaining
    ensures Remaining(AfterAuthorize(p, a.request, a.moment).store, scope)
            == Remaining(p.store, scope) - (if Reuses(a, scope) then 1 else 0) - LostBy(p.store, a, scope) + GrantedBy(a, scope)
  {
    if a.request.scopeFingerprint == scope {
      assert a.outcome.source == SessionGrant <==> Live(p.store, scope, a.moment.now);
    }
  }

  /** For each scope: uses granted == uses consumed + uses remaining + uses lost to expiry. */
  lemma {:induction false} GrantedUsesAreConserved(closed: bool, h: seq<Ask>, scope: Json)
    requires Genuine(closed, h)
    ensures Granted(h, scope)
            == ReusesSince(h, scope, 0) + Remaining(StateAfter(closed, h).store, scope) + Lost(closed, h, scope)
  {
    if h != [] {
      var before := h[..|h| - 1];
      GrantedUsesAreConserved(closed, before, scope);
      LiveCountsArePositive(closed, before, scope);
      CallConserves(StateAfter(closed, before), h[|h| - 1], scope);
    }
  }

  lemma LiveCountsArePositive(closed: bool, h: seq<Ask>, scope: Json)
    requires Genuine(closed, h)
    ensures scope in StateAfter(closed, h).store ==> 1 <= StateAfter(closed, h).store[scope].remaining <= MAX_GRANT_USES
  {
    if scope in StateAfter(closed, h).store {
      var _ := StoreIsExplained(closed, h, scope);
    }
  }

  /** A grant is stored only after the consume left nothing under that scope: no live grant is overwritten. */
  lemma AddNeverOverwrites(p: ProviderState, request: Request, m: Moment)
    requires OutcomeOf(p, request, m).source != SessionGrant
    ensures request.scopeFingerprint !in AfterConsume(p.store, request.scopeFingerprint, m.now)
    ensures !Live(p.store, request.scopeFingerprint, m.now)
  {
  }

  /** After a timeout or a closed input, and when there was never an input, only grants authorise. */
  lemma {:induction false} ClosedPromptOnlyReuses(closed: bool, h: seq<Ask>, j: int, i: nat)
    requires Genuine(closed, h) && -1 <= j < i < |h| && h[i].outcome.approved
    requires if j == -1 then closed else h[j].outcome.source == TimeoutOrClosed
    ensures h[i].outcome.source == SessionGrant
  {
    var p := StateAt(closed, h, i);
    ClosedStays(closed, h, j, i);
  }

  lemma {:induction false} ClosedStays(closed: bool, h: seq<Ask>, j: int, i: nat)
    requires Genuine(closed, h) && -1 <= j < i <= |h|
    requires if j == -1 then closed else h[j].outcome.source == TimeoutOrClosed
    ensures StateAfter(closed, h[..i]).closed
  {
    if i > 0 {
      assert h[..i][..i - 1] == h[..i - 1];
      if i - 1 > j {
        ClosedStays(closed, h, j, i - 1);
      } else if j >= 0 {
        var p := StateAt(closed, h, j);
      }
    }
  }
}
