/** Self-registration: the form, the per-address allowance and the probe cap in one handler. */
module Portal {
  import opened Wire
  import opened Buckets
  import opened Catalog
  import RL = RegisterLimiter
  import Order

  datatype Attempt = Attempt(form: ProbeForm, tokenHash: string, suffixes: seq<string>, ip: string, at: int, order: seq<string>)

  datatype Outcome = NotConfigured | BadForm | TooOften | Full | Exhausted | Registered(id: string)

  datatype State = State(catalog: Locations, buckets: RL.Entries)

  /** The submission would otherwise succeed, so it is worth an allowance. */
  predicate Charged(c: Locations, a: Attempt) { c.campuses != map[] && Acceptable(c, Trimmed(a.form)) }

  predicate Allowed(p: Params, s: State, a: Attempt) { Admits(p, RL.BucketFor(p, s.buckets, a.ip, a.at), a.at) }

  function NewRow(c: Locations, a: Attempt): Probe
    requires Charged(c, a)
  {
    NewProbe(c, Trimmed(a.form), a.tokenHash, true)
  }

  function Answer(p: Params, maxProbes: nat, s: State, a: Attempt): Outcome {
    if s.catalog.campuses == map[] then NotConfigured
    else if !Charged(s.catalog, a) then BadForm
    else if !Allowed(p, s, a) then TooOften
    else if |s.catalog.probes| >= maxProbes then Full
    else match Inserted(s.catalog, Trimmed(a.form), NewRow(s.catalog, a), AtMostFive(a.suffixes))
      case Some(id) => Registered(id)
      case None => Exhausted
  }

  function Register(p: Params, maxProbes: nat, s: State, a: Attempt): State
    requires Order.IsOrder(a.order, s.buckets.Keys)
  {
    State(if Allowed(p, s, a) && |s.catalog.probes| < maxProbes
          then CreateProbe(s.catalog, Trimmed(a.form), a.tokenHash, a.suffixes, true)
          else s.catalog,
          if Charged(s.catalog, a) then RL.AllowStep(p, s.buckets, a.ip, a.at, a.order) else s.buckets)
  }

  /** On the catalog a registration is the step of that name. */
  lemma RegisterIsStep(p: Params, maxProbes: nat, s: State, a: Attempt, op: Op)
    requires Order.IsOrder(a.order, s.buckets.Keys)
    requires op == ProbeRegister(a.form, a.tokenHash, a.suffixes, Allowed(p, s, a), maxProbes)
    ensures Register(p, maxProbes, s, a).catalog == Next(s.catalog, op)
  {
    match op
    case ProbeRegister(_, _, _, _, _) =>
  }

  /** One probe more exactly when the visitor is told so; a typo costs no allowance. */
  lemma AnswerTellsEffect(p: Params, maxProbes: nat, s: State, a: Attempt)
    requires Order.IsOrder(a.order, s.buckets.Keys)
    ensures var r, s' := Answer(p, maxProbes, s, a), Register(p, maxProbes, s, a);
            match r
            case Registered(id) =>
              && id !in s.catalog.probes && Charged(s.catalog, a)
              && s'.catalog == s.catalog.(probes := s.catalog.probes[id := NewRow(s.catalog, a)])
              && |s'.catalog.probes| == |s.catalog.probes| + 1 <= maxProbes
              && s'.catalog.probes[id].enabled && s'.catalog.probes[id].selfRegistered
            case _ => s'.catalog == s.catalog
    ensures var r := Answer(p, maxProbes, s, a);
            r == NotConfigured || r == BadForm ==> Register(p, maxProbes, s, a) == s
  {
  }

  /** Who is told what: no campus, a bad form, too often, full; each exactly when the checks before it pass. */
  lemma AnswersIff(p: Params, maxProbes: nat, s: State, a: Attempt)
    ensures var r := Answer(p, maxProbes, s, a);
            var configured, sound := s.catalog.campuses != map[], ProbeFormAccepted(s.catalog, Trimmed(a.form));
            && (r == NotConfigured <==> !configured)
            && (r == BadForm <==> configured && !sound)
            && (r == TooOften <==> configured && sound && !Allowed(p, s, a))
            && (r == Full <==> configured && sound && Allowed(p, s, a) && |s.catalog.probes| >= maxProbes)
  {
  }

  // ----- What any run of registrations is bounded by -------------------------------------

  /** The clock does not go back, and every visiting order is one of the map's at that moment. */
  predicate Ordered(p: Params, maxProbes: nat, s: State, now: int, run: seq<Attempt>)
    decreases run
  {
    run != [] ==>
      var a := run[0];
      && now <= a.at && Order.IsOrder(a.order, s.buckets.Keys)
      && Ordered(p, maxProbes, Register(p, maxProbes, s, a), a.at, run[1..])
  }

  function Final(p: Params, maxProbes: nat, s: State, now: int, run: seq<Attempt>): State
    requires Ordered(p, maxProbes, s, now, run)
    decreases run
  {
    if run == [] then s else Final(p, maxProbes, Register(p, maxProbes, s, run[0]), run[0].at, run[1..])
  }

  /** Registrations that run one at a time never take the table past the cap. `Simultaneous` says
      what remains of this when they overlap. */
  lemma {:induction false} CapHolds(p: Params, maxProbes: nat, s: State, now: int, run: seq<Attempt>)
    requires Ordered(p, maxProbes, s, now, run) && |s.catalog.probes| <= maxProbes
    ensures |Final(p, maxProbes, s, now, run).catalog.probes| <= maxProbes
    decreases run
  {
    if run != [] {
      AnswerTellsEffect(p, maxProbes, s, run[0]);
      CapHolds(p, maxProbes, Register(p, maxProbes, s, run[0]), run[0].at, run[1..]);
    }
  }

  /** The visiting order is one of the map's, and room is only made by dropping a full bucket. */
  predicate Fair(p: Params, s: State, a: Attempt) {
    && Order.IsOrder(a.order, s.buckets.Keys)
    && (RL.NeedsRoom(s.buckets, a.ip) ==>
          var v := RL.Victim(p, s.buckets, a.at, a.order);
          v.Some? && v.value in s.buckets ==> RL.Full(p, s.buckets[v.value], a.at))
  }

  predicate ValidRun(p: Params, maxProbes: nat, s: State, now: int, run: seq<Attempt>)
    decreases run
  {
    run != [] ==>
      var a := run[0];
      && now <= a.at && Fair(p, s, a)
      && ValidRun(p, maxProbes, Register(p, maxProbes, s, a), a.at, run[1..])
  }

  /** Probes created from one address. */
  function Created(p: Params, maxProbes: nat, s: State, now: int, run: seq<Attempt>, ip: string): nat
    requires ValidRun(p, maxProbes, s, now, run)
    decreases run
  {
    if run == [] then 0
    else
      var a := run[0];
      (if a.ip == ip && Answer(p, maxProbes, s, a).Registered? then 1 else 0)
      + Created(p, maxProbes, Register(p, maxProbes, s, a), a.at, run[1..], ip)
  }

  predicate Past(m: RL.Entries, now: int) { forall k :: k in m ==> m[k].bucket.last <= now }

  function Credit(p: Params, s: State, ip: string, now: int): (c: nat)
    ensures c <= Cap(p)
  {
    Level(p, RL.BucketFor(p, s.buckets, ip, now), now)
  }

  lemma PastKept(p: Params, maxProbes: nat, s: State, now: int, a: Attempt)
    requires Past(s.buckets, now) && now <= a.at && Order.IsOrder(a.order, s.buckets.Keys)
    ensures Past(Register(p, maxProbes, s, a).buckets, a.at)
  {
    assert Past(s.buckets, a.at);
  }

  /** One attempt moves an address's credit by what it costs that address, and by nothing else. */
  lemma CreditMoves(p: Params, maxProbes: nat, s: State, a: Attempt, ip: string)
    requires Past(s.buckets, a.at) && Fair(p, s, a)
    ensures Credit(p, Register(p, maxProbes, s, a), ip, a.at)
            + (if a.ip == ip && Answer(p, maxProbes, s, a).Registered? then p.interval else 0) <= Credit(p, s, ip, a.at)
  {
    if Charged(s.catalog, a) {
      var m := RL.Evicted(p, s.buckets, a.ip, a.at, a.order);
      var b := RL.BucketFor(p, s.buckets, a.ip, a.at);
      SpendConserves(p, b, a.at, a.at);
      assert Register(p, maxProbes, s, a).buckets == m[a.ip := RL.Entry(Spend(p, b, a.at), a.at)];
    }
  }

  /** The same, counted from an earlier moment. */
  lemma CreditFlows(p: Params, maxProbes: nat, s: State, now: int, a: Attempt, ip: string)
    requires Past(s.buckets, now) && now <= a.at && Fair(p, s, a)
    ensures Credit(p, Register(p, maxProbes, s, a), ip, a.at)
            + (if a.ip == ip && Answer(p, maxProbes, s, a).Registered? then p.interval else 0)
            <= Credit(p, s, ip, now) + (a.at - now)
  {
    assert Past(s.buckets, a.at);
    CreditMoves(p, maxProbes, s, a, ip);
  }

  lemma CreatedStep(p: Params, maxProbes: nat, s: State, now: int, run: seq<Attempt>, ip: string)
    requires run != [] && ValidRun(p, maxProbes, s, now, run)
    ensures var a, s' := run[0], Register(p, maxProbes, s, run[0]);
            now <= a.at && Fair(p, s, a) && ValidRun(p, maxProbes, s', a.at, run[1..])
            && Created(p, maxProbes, s, now, run, ip)
               == (if a.ip == ip && Answer(p, maxProbes, s, a).Registered? then 1 else 0)
                  + Created(p, maxProbes, s', a.at, run[1..], ip)
  {
  }

  /** `one` is 0 or 1. */
  lemma PaidFor(p: Params, one: nat, rest: nat, before: nat, after: nat, elapsed: nat, left: nat)
    requires one <= 1 && rest * p.interval <= after + left
    requires after + (if one == 1 then p.interval else 0) <= before + elapsed
    ensures (one + rest) * p.interval <= before + (elapsed + left)
  {
    OneMore(rest, p.interval);
  }

  /** One attempt and what the rest of the run creates, if the rest stays within its credit. */
  lemma OneWithinCredit(p: Params, maxProbes: nat, s: State, now: int, end: int, a: Attempt, ip: string, rest: nat)
    requires Past(s.buckets, now) && now <= a.at <= end && Fair(p, s, a)
    requires rest * p.interval <= Credit(p, Register(p, maxProbes, s, a), ip, a.at) + (end - a.at)
    ensures ((if a.ip == ip && Answer(p, maxProbes, s, a).Registered? then 1 else 0) + rest) * p.interval
            <= Credit(p, s, ip, now) + (end - now)
  {
    CreditFlows(p, maxProbes, s, now, a, ip);
    PaidFor(p, if a.ip == ip && Answer(p, maxProbes, s, a).Registered? then 1 else 0, rest,
            Credit(p, s, ip, now), Credit(p, Register(p, maxProbes, s, a), ip, a.at), a.at - now, end - a.at);
  }

  lemma {:induction false} CreatedWithinCredit(p: Params, maxProbes: nat, s: State, now: int, end: int, run: seq<Attempt>, ip: string)
    requires ValidRun(p, maxProbes, s, now, run) && Past(s.buckets, now) && now <= end
    requires forall i :: 0 <= i < |run| ==> run[i].at <= end
    ensures Created(p, maxProbes, s, now, run, ip) * p.interval <= Credit(p, s, ip, now) + (end - now)
    decreases run
  {
    if run != [] {
      var a, s' := run[0], Register(p, maxProbes, s, run[0]);
      CreatedStep(p, maxProbes, s, now, run, ip);
      var rest := Created(p, maxProbes, s', a.at, run[1..], ip);
      assert rest * p.interval <= Credit(p, s', ip, a.at) + (end - a.at) by {
        PastKept(p, maxProbes, s, now, a);
        CreatedWithinCredit(p, maxProbes, s', a.at, end, run[1..], ip);
      }
      OneWithinCredit(p, maxProbes, s, now, end, a, ip, rest);
    }
  }

  /** From any state, one address creates at most `burst` probes plus one per interval of the window. */
  lemma AddressBound(p: Params, maxProbes: nat, s: State, now: int, end: int, run: seq<Attempt>, ip: string)
    requires ValidRun(p, maxProbes, s, now, run) && Past(s.buckets, now) && now <= end
    requires forall i :: 0 <= i < |run| ==> run[i].at <= end
    ensures Created(p, maxProbes, s, now, run, ip) <= p.burst + (end - now) / p.interval
  {
    var n, credit := Created(p, maxProbes, s, now, run, ip), Credit(p, s, ip, now);
    CreatedWithinCredit(p, maxProbes, s, now, end, run, ip);
    WithinBound(p, n, credit, end - now);
  }

  // ----- The same as a condition on traffic ----------------------------------------------

  /** The addresses that submitted within one full refill before `now`. */
  function Recent(p: Params, past: seq<Attempt>, now: int): set<string> {
    set a | a in past && now - a.at < Cap(p) :: a.ip
  }

  /** At every submission fewer than 10000 addresses have submitted recently. */
  predicate Light(p: Params, past: seq<Attempt>, run: seq<Attempt>)
    decreases run
  {
    run != [] ==> |Recent(p, past, run[0].at)| < 10000 && Light(p, past + [run[0]], run[1..])
  }

  predicate Stamped(s: State, past: seq<Attempt>, now: int) {
    forall k :: k in s.buckets ==>
      s.buckets[k].bucket.last <= s.buckets[k].lastUsed <= now && SubmittedAt(past, k, s.buckets[k].lastUsed)
  }

  predicate SubmittedAt(past: seq<Attempt>, ip: string, at: int) { exists a :: a in past && a.ip == ip && a.at == at }

  lemma LightIsFair(p: Params, s: State, past: seq<Attempt>, now: int, a: Attempt)
    requires Stamped(s, past, now) && now <= a.at && Order.IsOrder(a.order, s.buckets.Keys)
    requires |Recent(p, past, a.at)| < 10000
    ensures Fair(p, s, a)
  {
    if RL.NeedsRoom(s.buckets, a.ip) {
      forall k | k in s.buckets && a.at - s.buckets[k].lastUsed < Cap(p) ensures k in Recent(p, past, a.at) {
        var b :| b in past && b.ip == k && b.at == s.buckets[k].lastUsed;
      }
      RL.RoomIsFull(p, s.buckets, a.at, a.order, Recent(p, past, a.at));
    }
  }

  lemma RegisterStamped(p: Params, maxProbes: nat, s: State, past: seq<Attempt>, now: int, a: Attempt)
    requires Stamped(s, past, now) && now <= a.at && Order.IsOrder(a.order, s.buckets.Keys)
    ensures Stamped(Register(p, maxProbes, s, a), past + [a], a.at)
  {
    var m, m' := s.buckets, Register(p, maxProbes, s, a).buckets;
    forall k | k in m' ensures SubmittedAt(past + [a], k, m'[k].lastUsed) {
      if Charged(s.catalog, a) && k == a.ip {
        assert a in past + [a];
      } else {
        var b :| b in past && b.ip == k && b.at == m[k].lastUsed;
        assert b in past + [a];
      }
    }
  }

  lemma {:induction false} LightIsValid(p: Params, maxProbes: nat, s: State, past: seq<Attempt>, now: int, run: seq<Attempt>)
    requires Ordered(p, maxProbes, s, now, run) && Light(p, past, run) && Stamped(s, past, now)
    ensures ValidRun(p, maxProbes, s, now, run)
    decreases run
  {
    if run != [] {
      LightIsFair(p, s, past, now, run[0]);
      RegisterStamped(p, maxProbes, s, past, now, run[0]);
      LightIsValid(p, maxProbes, Register(p, maxProbes, s, run[0]), past + [run[0]], run[0].at, run[1..]);
    }
  }

  /** Every state a run reaches from start-up is stamped by its own submissions. */
  lemma {:induction false} RunsStamped(p: Params, maxProbes: nat, s: State, past: seq<Attempt>, now: int, run: seq<Attempt>)
    requires Ordered(p, maxProbes, s, now, run) && Stamped(s, past, now)
    ensures Stamped(Final(p, maxProbes, s, now, run), past + run, if run == [] then now else run[|run| - 1].at)
    decreases run
  {
    if run == [] {
      assert past + run == past;
    } else {
      RegisterStamped(p, maxProbes, s, past, now, run[0]);
      RunsStamped(p, maxProbes, Register(p, maxProbes, s, run[0]), past + [run[0]], run[0].at, run[1..]);
      assert past + [run[0]] + run[1..] == past + run;
      assert |run| > 1 ==> run[1..][|run[1..]| - 1] == run[|run| - 1];
    }
  }

  /** In any window of such a run, while traffic is light, one address creates at most `burst` probes plus
      one per interval. */
  lemma AddressBoundInLightTraffic(
      p: Params, maxProbes: nat, s: State, past: seq<Attempt>, now: int, end: int, run: seq<Attempt>, ip: string)
    requires Stamped(s, past, now) && Ordered(p, maxProbes, s, now, run) && Light(p, past, run) && now <= end
    requires forall i :: 0 <= i < |run| ==> run[i].at <= end
    ensures ValidRun(p, maxProbes, s, now, run)
    ensures Created(p, maxProbes, s, now, run, ip) <= p.burst + (end - now) / p.interval
  {
    LightIsValid(p, maxProbes, s, past, now, run);
    assert Past(s.buckets, now);
    AddressBound(p, maxProbes, s, now, end, run, ip);
  }

  // ----- The handler ---------------------------------------------------------------------

  method HandleRegister(store: Store, limiter: RL.Limiter, maxProbes: nat, a: Attempt) returns (r: Outcome)
    requires Order.IsOrder(a.order, limiter.buckets.Keys)
    modifies store, limiter
    ensures r == Answer(limiter.params, maxProbes, old(State(store.Value(), limiter.buckets)), a)
    ensures State(store.Value(), limiter.buckets)
            == Register(limiter.params, maxProbes, old(State(store.Value(), limiter.buckets)), a)
  {
    var f := Trimmed(a.form);
    if |store.campuses| == 0 {
      return NotConfigured;
    }
    if !Located(store.Value(), f.campus, f.building) || !ValidNetwork(f.network) || |f.description| > 256 {
      return BadForm;
    }
    var ok := limiter.Allow(a.ip, a.at, a.order);
    if !ok {
      return TooOften;
    }
    if |store.probes| >= maxProbes {
      return Full;
    }
    var id := store.InsertProbe(f, NewProbe(store.Value(), f, a.tokenHash, true), a.suffixes);
    r := if id == None then Exhausted else Registered(id.value);
  }
}
