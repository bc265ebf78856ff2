/** The token-guessing throttle: failure budgets per address in a bounded LRU map, peeked at
    before the token lookup and charged after a failed one, by requests that interleave freely. */
module AuthThrottle {
  import opened Wire
  import opened Order
  import opened Buckets

  const MAX_TRACKED: nat := 10000
  const BURST: nat := 20
  const WINDOW: nat := 60_000_000_000  // one minute, in nanoseconds

  /** One allowance every three seconds, twenty at most. */
  const BUDGET: Params := RawParams(WINDOW / BURST, BURST)
  const COST: nat := 3_000_000_000

  datatype Entry = Entry(bucket: Bucket, lastUsed: int)

  type Entries = map<string, Entry>

  predicate IsOldest(m: Entries, k: string) {
    k in m && forall o :: o in m ==> m[k].lastUsed <= m[o].lastUsed
  }

  predicate NeedsRoom(m: Entries, ip: string) { ip !in m && |m| >= MAX_TRACKED }

  /** `victim` is the oldest entry the eviction scan came to; it matters only when room is needed. */
  predicate CanCharge(m: Entries, ip: string, victim: string) { NeedsRoom(m, ip) ==> IsOldest(m, victim) }

  function BucketFor(m: Entries, ip: string, now: int): Bucket {
    if ip in m then m[ip].bucket else Fresh(BUDGET, now)
  }

  function Charge(m: Entries, ip: string, now: int, victim: string): Entries {
    (if NeedsRoom(m, ip) then m - {victim} else m)[ip := Entry(Spend(BUDGET, BucketFor(m, ip, now), now), now)]
  }

  predicate ChargeAllowed(m: Entries, ip: string, now: int) { Admits(BUDGET, BucketFor(m, ip, now), now) }

  function Peek(m: Entries, ip: string, now: int): Entries {
    if ip in m then m[ip := m[ip].(lastUsed := now)] else m
  }

  predicate Blocked(m: Entries, ip: string, now: int) { ip in m && Level(BUDGET, m[ip].bucket, now) < BUDGET.interval }

  /** A refused charge is no more than a peek: it costs nothing and evicts nobody. */
  lemma RefusedChargeIsPeek(m: Entries, ip: string, now: int, victim: string)
    requires !ChargeAllowed(m, ip, now)
    ensures ip in m && Charge(m, ip, now, victim) == Peek(m, ip, now)
  {
    CapCoversOne(BUDGET);
  }

  class FailureLimiter {
    var failures: Entries

    constructor ()
      ensures failures == map[]
    {
      failures := map[];
    }

    /** `order` is the order in which this iteration happens to visit the map. */
    method EvictOldest(order: seq<string>) returns (victim: string)
      requires failures != map[] && Elements(order) == failures.Keys
      modifies this
      ensures IsOldest(old(failures), victim) && failures == old(failures) - {victim}
    {
      var oldestKey, oldest, first := "", 0, true;
      assert forall k :: k in failures ==> k in Elements(order);
      for i := 0 to |order|
        invariant failures == old(failures)
        invariant first <==> i == 0
        invariant !first ==> oldestKey in failures && oldest == failures[oldestKey].lastUsed
        invariant !first ==> forall j :: 0 <= j < i ==> order[j] in failures && oldest <= failures[order[j]].lastUsed
      {
        var k := order[i];
        assert k in Elements(order);
        if first || failures[k].lastUsed < oldest {
          oldestKey, oldest, first := k, failures[k].lastUsed, false;
        }
      }
      assert order != [] by { var k :| k in failures; assert k in order; }
      victim := oldestKey;
      failures := failures - {oldestKey};
    }

    method AllowAuthFailure(ip: string, now: int, order: seq<string>) returns (ok: bool, ghost victim: string)
      requires Elements(order) == failures.Keys
      modifies this
      ensures ok == ChargeAllowed(old(failures), ip, now)
      ensures CanCharge(old(failures), ip, victim) && failures == Charge(old(failures), ip, now, victim)
    {
      victim := "";
      ghost var before := BucketFor(failures, ip, now);
      ghost var room := failures;
      if ip !in failures {
        if |failures| >= MAX_TRACKED {
          victim := EvictOldest(order);
          room := failures;
        }
        failures := failures[ip := Entry(Fresh(BUDGET, now), now)];
      }
      var b := failures[ip].bucket;
      assert b == before;
      ok := Admits(BUDGET, b, now);
      failures := failures[ip := Entry(Spend(BUDGET, b, now), now)];
      assert failures == room[ip := Entry(Spend(BUDGET, before, now), now)];
    }

    method AuthFailureBlocked(ip: string, now: int) returns (blocked: bool)
      modifies this
      ensures blocked == Blocked(old(failures), ip, now)
      ensures failures == Peek(old(failures), ip, now)
    {
      if ip !in failures {
        return false;
      }
      failures := failures[ip := failures[ip].(lastUsed := now)];
      blocked := Level(BUDGET, failures[ip].bucket, now) < BUDGET.interval;
    }
  }

  // ----- Interleaved requests ------------------------------------------------------------

  /** A request between two of its atomic steps. */
  datatype Phase = Looking(ip: string) | Charging(ip: string)

  datatype State = State(failures: Entries, requests: map<nat, Phase>)

  /** One atomic step of request `r`. */
  datatype Event =
    | PeekFor(r: nat, ip: string, at: int)
    | Lookup(r: nat, at: int, found: bool)
    | ChargeFor(r: nat, at: int, victim: string)

  datatype Answer = Unauthorized | Throttled | Authenticated | Pending

  predicate Enabled(s: State, e: Event) {
    match e
    case PeekFor(r, ip, at) => r !in s.requests
    case Lookup(r, at, found) => r in s.requests && s.requests[r].Looking?
    case ChargeFor(r, at, victim) =>
      r in s.requests && s.requests[r].Charging? && CanCharge(s.failures, s.requests[r].ip, victim)
  }

  function Next(s: State, e: Event): State
    requires Enabled(s, e)
  {
    match e
    case PeekFor(r, ip, at) =>
      var m := Peek(s.failures, ip, at);
      if Blocked(s.failures, ip, at) then s.(failures := m) else State(m, s.requests[r := Looking(ip)])
    case Lookup(r, at, found) =>
      if found then s.(requests := s.requests - {r}) else s.(requests := s.requests[r := Charging(s.requests[r].ip)])
    case ChargeFor(r, at, victim) => State(Charge(s.failures, s.requests[r].ip, at, victim), s.requests - {r})
  }

  function AnswerOf(s: State, e: Event): Answer
    requires Enabled(s, e)
  {
    match e
    case PeekFor(r, ip, at) => if Blocked(s.failures, ip, at) then Throttled else Pending
    case Lookup(r, at, found) => if found then Authenticated else Pending
    case ChargeFor(r, at, victim) => if ChargeAllowed(s.failures, s.requests[r].ip, at) then Answer.Unauthorized else Throttled
  }

  /** The address a step concerns. */
  function AddressOf(s: State, e: Event): string
    requires Enabled(s, e)
  {
    if e.PeekFor? then e.ip else s.requests[e.r].ip
  }

  predicate ValidRun(s: State, now: int, events: seq<Event>)
    decreases events
  {
    events != [] ==>
      now <= events[0].at && Enabled(s, events[0]) && ValidRun(Next(s, events[0]), events[0].at, events[1..])
  }

  /** `ip`, once tracked, is not evicted during the run. */
  predicate NeverEvicted(s: State, now: int, events: seq<Event>, ip: string)
    requires ValidRun(s, now, events)
    decreases events
  {
    events != [] ==>
      && (ip in s.failures ==> ip in Next(s, events[0]).failures)
      && NeverEvicted(Next(s, events[0]), events[0].at, events[1..], ip)
  }

  /** How many bad tokens from `ip` are evaluated and answered 401. */
  function UnauthorizedCount(s: State, now: int, events: seq<Event>, ip: string): nat
    requires ValidRun(s, now, events)
    decreases events
  {
    if events == [] then 0
    else
      (if Spends(s, events[0], ip) then 1 else 0)
      + UnauthorizedCount(Next(s, events[0]), events[0].at, events[1..], ip)
  }

  function Credit(m: Entries, ip: string, now: int): nat { Level(BUDGET, BucketFor(m, ip, now), now) }

  predicate Spends(s: State, e: Event, ip: string)
    requires Enabled(s, e)
  {
    AnswerOf(s, e) == Answer.Unauthorized && AddressOf(s, e) == ip
  }

  lemma StepConserves(s: State, now: int, e: Event, ip: string)
    requires Enabled(s, e) && now <= e.at
    requires ip in s.failures ==> ip in Next(s, e).failures
    ensures Credit(Next(s, e).failures, ip, e.at) + (if Spends(s, e, ip) then COST else 0)
              <= Credit(s.failures, ip, now) + (e.at - now)
  {
    CapCoversOne(BUDGET);
  }

  lemma {:induction false} SpentWithinCredit(s: State, now: int, events: seq<Event>, ip: string, end: int)
    requires ValidRun(s, now, events) && NeverEvicted(s, now, events, ip)
    requires now <= end && forall i :: 0 <= i < |events| ==> events[i].at <= end
    ensures UnauthorizedCount(s, now, events, ip) * COST <= Credit(s.failures, ip, now) + (end - now)
    decreases events
  {
    if events != [] {
      SpentWithinCredit(Next(s, events[0]), events[0].at, events[1..], ip, end);
      StepConserves(s, now, events[0], ip);
    }
  }

  /** However peeks, lookups and charges interleave, a window of length T answers at most
      20 + T/3s bad tokens of one address with 401. */
  lemma GuessBound(s: State, start: int, events: seq<Event>, ip: string, end: int)
    requires ValidRun(s, start, events) && NeverEvicted(s, start, events, ip)
    requires start <= end && forall i :: 0 <= i < |events| ==> events[i].at <= end
    ensures UnauthorizedCount(s, start, events, ip) <= 20 + (end - start) / 3_000_000_000
  {
    SpentWithinCredit(s, start, events, ip, end);
    DivideBound(UnauthorizedCount(s, start, events, ip), BURST, end - start, COST);
  }

  predicate ChargesElsewhere(s: State, now: int, events: seq<Event>, ip: string)
    requires ValidRun(s, now, events)
    decreases events
  {
    events != [] ==>
      && (events[0].ChargeFor? ==> AddressOf(s, events[0]) != ip)
      && ChargesElsewhere(Next(s, events[0]), events[0].at, events[1..], ip)
  }

  function Run(s: State, now: int, events: seq<Event>): State
    requires ValidRun(s, now, events)
    decreases events
  {
    if events == [] then s else Run(Next(s, events[0]), events[0].at, events[1..])
  }

  lemma {:induction false} AllowanceKept(s: State, now: int, events: seq<Event>, ip: string, later: int)
    requires ValidRun(s, now, events) && ChargesElsewhere(s, now, events, ip)
    requires now <= later && forall i :: 0 <= i < |events| ==> events[i].at <= later
    requires Credit(s.failures, ip, now) >= BUDGET.interval
    ensures ChargeAllowed(Run(s, now, events).failures, ip, later)
    decreases events
  {
    CapCoversOne(BUDGET);
    if events != [] {
      var e := events[0];
      assert Credit(Next(s, e).failures, ip, e.at) >= BUDGET.interval;
      AllowanceKept(Next(s, e), e.at, events[1..], ip, later);
    }
  }

  /** A request that got past the peek is throttled after its lookup only if some charge of the
      same address came in between: without one, its own charge is answered 401. */
  lemma ThrottledOnlyByOthers(s: State, r: nat, ip: string, at: int, between: seq<Event>, later: int, victim: string)
    requires Enabled(s, PeekFor(r, ip, at)) && !Blocked(s.failures, ip, at)
    requires var s1 := Next(s, PeekFor(r, ip, at)); ValidRun(s1, at, between) && ChargesElsewhere(s1, at, between, ip)
    requires at <= later && forall i :: 0 <= i < |between| ==> between[i].at <= later
    requires var s2 := Run(Next(s, PeekFor(r, ip, at)), at, between);
             Enabled(s2, ChargeFor(r, later, victim)) && AddressOf(s2, ChargeFor(r, later, victim)) == ip
    ensures AnswerOf(Run(Next(s, PeekFor(r, ip, at)), at, between), ChargeFor(r, later, victim)) == Answer.Unauthorized
  {
    CapCoversOne(BUDGET);
    AllowanceKept(Next(s, PeekFor(r, ip, at)), at, between, ip, later);
  }

  // ----- One request at a time -----------------------------------------------------------

  const BEARER := "Bearer "

  datatype Outcome = Malformed | BlockedEarly | BadToken | ThrottledLate | Resolved(token: string)

  /** `resolves` is the token lookup. With no other request in between, `ThrottledLate` is never returned. */
  method Authenticate(limiter: FailureLimiter, header: string, ip: string, resolves: string -> bool,
                      peekAt: int, chargeAt: int, order: seq<string>) returns (outcome: Outcome, ghost victim: string)
    requires peekAt <= chargeAt && Elements(order) == limiter.failures.Keys
    modifies limiter
    ensures !(BEARER < header) <==> outcome == Malformed
    ensures BEARER < header ==>
              var token := header[|BEARER|..];
              outcome == if Blocked(old(limiter.failures), ip, peekAt) then BlockedEarly
                         else if resolves(token) then Resolved(token) else BadToken
    ensures outcome == Malformed ==> limiter.failures == old(limiter.failures)
    ensures outcome == BlockedEarly || outcome.Resolved? ==> limiter.failures == Peek(old(limiter.failures), ip, peekAt)
    ensures outcome == BadToken ==>
              var peeked := Peek(old(limiter.failures), ip, peekAt);
              && ChargeAllowed(peeked, ip, chargeAt) && CanCharge(peeked, ip, victim)
              && limiter.failures == Charge(peeked, ip, chargeAt, victim)
  {
    victim := "";
    if !(BEARER <= header) {
      return Malformed, victim;
    }
    var token := header[|BEARER|..];
    if token == "" {
      return Malformed, victim;
    }
    var blocked := limiter.AuthFailureBlocked(ip, peekAt);
    if blocked {
      return BlockedEarly, victim;
    }
    if resolves(token) {
      return Resolved(token), victim;
    }
    CapCoversOne(BUDGET);
    var ok;
    ok, victim := limiter.AllowAuthFailure(ip, chargeAt, order);
    outcome := if !ok then ThrottledLate else BadToken;
  }

  // ----- Survival under LRU eviction -----------------------------------------------------

  datatype Use = Charged(ip: string, at: int, victim: string) | Peeked(ip: string, at: int)

  function Apply(m: Entries, u: Use): Entries {
    match u
    case Charged(ip, at, victim) => Charge(m, ip, at, victim)
    case Peeked(ip, at) => Peek(m, ip, at)
  }

  /** A strictly increasing clock, and every victim an oldest entry. */
  predicate ValidUses(m: Entries, now: int, uses: seq<Use>)
    decreases uses
  {
    uses != [] ==>
      && now < uses[0].at && (uses[0].Charged? ==> CanCharge(m, uses[0].ip, uses[0].victim))
      && ValidUses(Apply(m, uses[0]), uses[0].at, uses[1..])
  }

  function ApplyAll(m: Entries, uses: seq<Use>): Entries
    decreases uses
  {
    if uses == [] then m else ApplyAll(Apply(m, uses[0]), uses[1..])
  }

  /** The addresses charged, or peeked at while tracked: those whose stamp moves. */
  function Stamped(m: Entries, uses: seq<Use>): set<string>
    decreases uses
  {
    if uses == [] then {}
    else UsedBy(m, uses[0]) + Stamped(Apply(m, uses[0]), uses[1..])
  }

  /** Exactly when a charge evicts `x`: the map is full, the address is new, and everybody else
      was used after `x`. */
  lemma EvictedIff(m: Entries, x: string, u: Use)
    requires u.Charged? && x in m && CanCharge(m, u.ip, u.victim)
    requires forall k :: k in m && k != x ==> m[k].lastUsed != m[x].lastUsed
    ensures x !in Apply(m, u) <==> NeedsRoom(m, u.ip) && forall k :: k in m && k != x ==> m[x].lastUsed < m[k].lastUsed
  {
  }

  /** `used` holds every other tracked address that is not older than `x`. */
  predicate Follows(m: Entries, x: string, used: set<string>)
    requires x in m
  {
    forall k :: k in m && k != x ==> m[k].lastUsed < m[x].lastUsed || k in used
  }

  function UsedBy(m: Entries, u: Use): set<string> { if u.Charged? || u.ip in m then {u.ip} else {} }

  lemma UseKeeps(m: Entries, u: Use, x: string, used: set<string>)
    requires x in m && m[x].lastUsed < u.at && u.ip != x && Follows(m, x, used)
    requires u.Charged? && NeedsRoom(m, u.ip) ==> u.victim != x
    ensures var m' := Apply(m, u); x in m' && m'[x] == m[x] && Follows(m', x, used + UsedBy(m, u))
  {
  }

  lemma NotTheVictim(m: Entries, u: Use, x: string, used: set<string>)
    requires x in m && Follows(m, x, used) && |m| <= MAX_TRACKED
    requires u.Charged? && NeedsRoom(m, u.ip) && CanCharge(m, u.ip, u.victim) && u.victim == x
    ensures |used + {u.ip}| >= MAX_TRACKED
  {
    var others := m.Keys - {x};
    assert |others + {u.ip}| == |m|;
    SubsetSize(others + {u.ip}, used + {u.ip});
  }

  lemma {:induction false} Survives(m: Entries, now: int, uses: seq<Use>, x: string, used: set<string>)
    requires x in m && m[x].lastUsed <= now && |m| <= MAX_TRACKED && Follows(m, x, used)
    requires ValidUses(m, now, uses) && forall i :: 0 <= i < |uses| ==> uses[i].ip != x
    requires |used + Stamped(m, uses)| < MAX_TRACKED
    ensures x in ApplyAll(m, uses) && ApplyAll(m, uses)[x] == m[x]
    decreases uses
  {
    if uses != [] {
      var u := uses[0];
      var used' := used + UsedBy(m, u);
      assert used' + Stamped(Apply(m, u), uses[1..]) == used + Stamped(m, uses);
      SubsetSize(used', used + Stamped(m, uses));
      SizeKept(m, u);
      if u.Charged? && NeedsRoom(m, u.ip) && u.victim == x { NotTheVictim(m, u, x, used); }
      UseKeeps(m, u, x, used);
      Survives(Apply(m, u), u.at, uses[1..], x, used');
    }
  }

  lemma SizeKept(m: Entries, u: Use)
    requires |m| <= MAX_TRACKED && (u.Charged? ==> CanCharge(m, u.ip, u.victim))
    ensures |Apply(m, u)| <= MAX_TRACKED
  {
    if u.Charged? {
      var room := if NeedsRoom(m, u.ip) then m - {u.victim} else m;
      assert NeedsRoom(m, u.ip) ==> room.Keys == m.Keys - {u.victim};
      assert Apply(m, u).Keys == room.Keys + {u.ip};
    } else {
      assert Apply(m, u).Keys == m.Keys;
    }
  }

  /** Within the bound, and no stamp in the future. */
  predicate Tidy(m: Entries, now: int) { |m| <= MAX_TRACKED && forall k :: k in m ==> m[k].lastUsed <= now }

  function LastTime(now: int, uses: seq<Use>): int { if uses == [] then now else uses[|uses| - 1].at }

  /** With a strictly increasing clock no stamp is ever in the future. */
  lemma {:induction false} AlwaysTidy(m: Entries, now: int, uses: seq<Use>)
    requires ValidUses(m, now, uses) && Tidy(m, now)
    ensures Tidy(ApplyAll(m, uses), LastTime(now, uses))
    decreases uses
  {
    if uses != [] {
      SizeKept(m, uses[0]);
      AlwaysTidy(Apply(m, uses[0]), uses[0].at, uses[1..]);
    }
  }

  /** Every victim is an oldest entry; nothing is asked of the clock. */
  predicate LegalUses(m: Entries, uses: seq<Use>)
    decreases uses
  {
    uses != [] ==>
      (uses[0].Charged? ==> CanCharge(m, uses[0].ip, uses[0].victim)) && LegalUses(Apply(m, uses[0]), uses[1..])
  }

  /** Every sequence of charges and peeks keeps the map within its bound, whatever the clock does. */
  lemma {:induction false} AlwaysBounded(m: Entries, uses: seq<Use>)
    requires LegalUses(m, uses) && |m| <= MAX_TRACKED
    ensures |ApplyAll(m, uses)| <= MAX_TRACKED
    decreases uses
  {
    if uses != [] {
      SizeKept(m, uses[0]);
      AlwaysBounded(Apply(m, uses[0]), uses[1..]);
    }
  }

  lemma OwnUse(m: Entries, now: int, own: Use)
    requires Tidy(m, now) && ValidUses(m, now, [own]) && (own.Peeked? ==> own.ip in m)
    ensures var m' := Apply(m, own);
            own.ip in m' && m'[own.ip].lastUsed == own.at && |m'| <= MAX_TRACKED && Follows(m', own.ip, {})
  {
    SizeKept(m, own);
  }

  /** With a strictly increasing clock, an address keeps its entry, untouched, after its own charge
      or peek while fewer than 10000 other addresses are used. */
  lemma LRUSurvival(m: Entries, now: int, own: Use, after: seq<Use>)
    requires Tidy(m, now) && ValidUses(m, now, [own]) && (own.Peeked? ==> own.ip in m)
    requires ValidUses(Apply(m, own), own.at, after) && forall i :: 0 <= i < |after| ==> after[i].ip != own.ip
    requires |Stamped(Apply(m, own), after)| < 10000
    ensures var m' := Apply(m, own); own.ip in ApplyAll(m', after) && ApplyAll(m', after)[own.ip] == m'[own.ip]
  {
    OwnUse(m, now, own);
    var s := Stamped(Apply(m, own), after);
    assert {} + s == s;
    Survives(Apply(m, own), own.at, after, own.ip, {});
  }

  /** The same of every run from start-up. */
  lemma LRUSurvivalFromStart(before: seq<Use>, now: int, own: Use, after: seq<Use>)
    requires ValidUses(map[], now, before)
    requires var m := ApplyAll(map[], before);
             ValidUses(m, LastTime(now, before), [own]) && (own.Peeked? ==> own.ip in m)
    requires ValidUses(Apply(ApplyAll(map[], before), own), own.at, after)
    requires forall i :: 0 <= i < |after| ==> after[i].ip != own.ip
    requires |Stamped(Apply(ApplyAll(map[], before), own), after)| < 10000
    ensures own.ip in ApplyAll(Apply(ApplyAll(map[], before), own), after)
  {
    AlwaysTidy(map[], now, before);
    LRUSurvival(ApplyAll(map[], before), LastTime(now, before), own, after);
  }

  // ----- The bound without an assumption about eviction ----------------------------------

  /** What a step does to the map, as a use of it. */
  function UseOf(s: State, e: Event): Option<Use>
    requires Enabled(s, e)
  {
    match e
    case PeekFor(r, ip, at) => Some(Peeked(ip, at))
    case Lookup(r, at, found) => None
    case ChargeFor(r, at, victim) => Some(Charged(s.requests[r].ip, at, victim))
  }

  lemma StepIsUse(s: State, e: Event)
    requires Enabled(s, e)
    ensures match UseOf(s, e)
            case Some(u) =>
              && Next(s, e).failures == Apply(s.failures, u) && u.at == e.at
              && (u.Charged? ==> CanCharge(s.failures, u.ip, u.victim))
            case None => Next(s, e).failures == s.failures
  {
  }

  predicate Strict(now: int, events: seq<Event>) {
    (events != [] ==> now < events[0].at) && forall i :: 0 < i < |events| ==> events[i - 1].at < events[i].at
  }

  lemma StrictTail(now: int, events: seq<Event>)
    requires events != [] && Strict(now, events)
    ensures now < events[0].at && Strict(events[0].at, events[1..])
  {
    var rest := events[1..];
    forall i | 0 < i < |rest| ensures rest[i - 1].at < rest[i].at { assert events[i + 1 - 1].at < events[i + 1].at; }
    assert |events| > 1 ==> events[1 - 1].at < events[1].at;
  }

  /** The other addresses whose stamp a step moves. */
  function OthersBy(s: State, e: Event, ip: string): set<string>
    requires Enabled(s, e)
  {
    match UseOf(s, e) case Some(u) => UsedBy(s.failures, u) - {ip} case None => {}
  }

  function OthersUsed(s: State, now: int, events: seq<Event>, ip: string): set<string>
    requires ValidRun(s, now, events)
    decreases events
  {
    if events == [] then {}
    else OthersBy(s, events[0], ip) + OthersUsed(Next(s, events[0]), events[0].at, events[1..], ip)
  }

  /** The tracked addresses that would outlive `ip`. */
  function NotOlder(m: Entries, ip: string): set<string> {
    if ip in m then set k | k in m && k != ip && m[ip].lastUsed <= m[k].lastUsed else {}
  }

  predicate Followed(m: Entries, ip: string, used: set<string>) { ip in m ==> Follows(m, ip, used) }

  lemma OwnUseFollowed(m: Entries, now: int, u: Use, used: set<string>)
    requires Tidy(m, now) && now < u.at && (u.Charged? ==> CanCharge(m, u.ip, u.victim))
    ensures u.ip in m ==> u.ip in Apply(m, u)
    ensures Followed(Apply(m, u), u.ip, used)
  {
  }

  lemma UseFollowed(m: Entries, now: int, u: Use, ip: string, used: set<string>)
    requires Tidy(m, now) && now < u.at && (u.Charged? ==> CanCharge(m, u.ip, u.victim)) && Followed(m, ip, used)
    requires |used + (UsedBy(m, u) - {ip})| < MAX_TRACKED
    ensures ip in m ==> ip in Apply(m, u)
    ensures Followed(Apply(m, u), ip, used + (UsedBy(m, u) - {ip}))
  {
    if u.ip == ip {
      OwnUseFollowed(m, now, u, used + (UsedBy(m, u) - {ip}));
    } else if ip in m {
      assert UsedBy(m, u) - {ip} == UsedBy(m, u);
      if u.Charged? && NeedsRoom(m, u.ip) && u.victim == ip { NotTheVictim(m, u, ip, used); }
      UseKeeps(m, u, ip, used);
    }
  }

  lemma UseKeepsTidy(m: Entries, now: int, u: Use)
    requires Tidy(m, now) && now < u.at && (u.Charged? ==> CanCharge(m, u.ip, u.victim))
    ensures Tidy(Apply(m, u), u.at)
  {
    SizeKept(m, u);
  }

  lemma StepFollowed(s: State, now: int, e: Event, ip: string, used: set<string>)
    requires Enabled(s, e) && Tidy(s.failures, now) && now < e.at && Followed(s.failures, ip, used)
    requires |used + OthersBy(s, e, ip)| < MAX_TRACKED
    ensures ip in s.failures ==> ip in Next(s, e).failures
    ensures Tidy(Next(s, e).failures, e.at) && Followed(Next(s, e).failures, ip, used + OthersBy(s, e, ip))
  {
    StepIsUse(s, e);
    match UseOf(s, e)
    case Some(u) =>
      UseFollowed(s.failures, now, u, ip, used);
      UseKeepsTidy(s.failures, now, u);
    case None =>
  }

  lemma StepFits(s: State, now: int, events: seq<Event>, ip: string, used: set<string>)
    requires events != [] && ValidRun(s, now, events)
    requires |used + OthersUsed(s, now, events, ip)| < MAX_TRACKED
    ensures var e := events[0]; var used' := used + OthersBy(s, e, ip);
            && Enabled(s, e) && ValidRun(Next(s, e), e.at, events[1..]) && |used'| < MAX_TRACKED
            && |used' + OthersUsed(Next(s, e), e.at, events[1..], ip)| < MAX_TRACKED
  {
    var e := events[0];
    UnionFits(used, OthersBy(s, e, ip), OthersUsed(Next(s, e), e.at, events[1..], ip), MAX_TRACKED);
  }

  lemma UnionFits(used: set<string>, x: set<string>, y: set<string>, n: nat)
    requires |used + (x + y)| < n
    ensures |used + x| < n && |(used + x) + y| < n
  {
    assert (used + x) + y == used + (x + y);
    SubsetSize(used + x, used + (x + y));
  }

  lemma {:induction false} NotEvicted(s: State, now: int, events: seq<Event>, ip: string, used: set<string>)
    requires ValidRun(s, now, events) && Strict(now, events) && Tidy(s.failures, now) && Followed(s.failures, ip, used)
    requires |used + OthersUsed(s, now, events, ip)| < MAX_TRACKED
    ensures NeverEvicted(s, now, events, ip)
    decreases events
  {
    if events != [] {
      StrictTail(now, events);
      StepFits(s, now, events, ip, used);
      StepFollowed(s, now, events[0], ip, used);
      NotEvicted(Next(s, events[0]), events[0].at, events[1..], ip, used + OthersBy(s, events[0], ip));
    }
  }

  /** With a strictly increasing clock the bound needs no assumption about eviction, only that fewer than
      10000 other addresses are not older than `ip` at the start of the window or used during it. */
  lemma GuessBoundUnderLRU(s: State, start: int, events: seq<Event>, ip: string, end: int)
    requires ValidRun(s, start, events) && Strict(start, events) && Tidy(s.failures, start)
    requires start <= end && forall i :: 0 <= i < |events| ==> events[i].at <= end
    requires |NotOlder(s.failures, ip) + OthersUsed(s, start, events, ip)| < 10000
    ensures UnauthorizedCount(s, start, events, ip) <= 20 + (end - start) / 3_000_000_000
  {
    NotEvicted(s, start, events, ip, NotOlder(s.failures, ip));
    GuessBound(s, start, events, ip, end);
  }

  /** Every interleaving keeps the map within its bound, whatever the clock does. */
  lemma {:induction false} RunsBounded(s: State, now: int, events: seq<Event>)
    requires ValidRun(s, now, events) && |s.failures| <= MAX_TRACKED
    ensures |Run(s, now, events).failures| <= MAX_TRACKED
    decreases events
  {
    if events != [] {
      StepIsUse(s, events[0]);
      if UseOf(s, events[0]).Some? { SizeKept(s.failures, UseOf(s, events[0]).value); }
      RunsBounded(Next(s, events[0]), events[0].at, events[1..]);
    }
  }

  function EndOf(now: int, events: seq<Event>): int { if events == [] then now else events[|events| - 1].at }

  /** Every state an interleaving reaches from start-up is tidy. */
  lemma {:induction false} RunsTidy(s: State, now: int, events: seq<Event>)
    requires ValidRun(s, now, events) && Strict(now, events) && Tidy(s.failures, now)
    ensures Tidy(Run(s, now, events).failures, EndOf(now, events))
    decreases events
  {
    if events != [] {
      StrictTail(now, events);
      StepIsUse(s, events[0]);
      if UseOf(s, events[0]).Some? { UseKeepsTidy(s.failures, now, UseOf(s, events[0]).value); }
      RunsTidy(Next(s, events[0]), events[0].at, events[1..]);
    }
  }

  /** From start-up, in any window of any interleaving. */
  lemma GuessBoundFromStart(before: seq<Event>, now: int, events: seq<Event>, ip: string, end: int)
    requires ValidRun(State(map[], map[]), now, before) && Strict(now, before)
    requires var s, start := Run(State(map[], map[]), now, before), EndOf(now, before);
             && ValidRun(s, start, events) && Strict(start, events) && start <= end
             && |NotOlder(s.failures, ip) + OthersUsed(s, start, events, ip)| < 10000
    requires forall i :: 0 <= i < |events| ==> events[i].at <= end
    ensures UnauthorizedCount(Run(State(map[], map[]), now, before), EndOf(now, before), events, ip)
            <= 20 + (end - EndOf(now, before)) / 3_000_000_000
  {
    RunsTidy(State(map[], map[]), now, before);
    GuessBoundUnderLRU(Run(State(map[], map[]), now, before), EndOf(now, before), events, ip, end);
  }
}
