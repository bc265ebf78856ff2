/** Token buckets with exact integer credit, and the limiter that keeps one per probe.

    Credit is counted in time units: it grows with elapsed time up to `burst * interval`, and an
    admission costs one `interval`. */
module Buckets {

  datatype RawParams = RawParams(interval: nat, burst: nat)

  /** Start-up refuses a non-positive interval or burst. */
  type Params = p: RawParams | p.interval > 0 && p.burst > 0 witness RawParams(1, 1)

  datatype Bucket = Bucket(credit: nat, last: int)

  function Cap(p: Params): nat { p.burst * p.interval }

  function Min(a: nat, b: nat): nat { if a < b then a else b }

  /** Credit at `now`; a clock that went backwards adds nothing. */
  function Level(p: Params, b: Bucket, now: int): nat {
    Min(Cap(p), b.credit + if now > b.last then now - b.last else 0)
  }

  function Fresh(p: Params, now: int): Bucket { Bucket(Cap(p), now) }

  predicate Admits(p: Params, b: Bucket, now: int) { Level(p, b, now) >= p.interval }

  function Spend(p: Params, b: Bucket, now: int): Bucket {
    if Admits(p, b, now) then Bucket(Level(p, b, now) - p.interval, now) else b
  }

  lemma CapCoversOne(p: Params)
    ensures Cap(p) >= p.interval
  {
    assert p.burst * p.interval >= 1 * p.interval;
  }

  /** What a bucket does later depends only on its level now. */
  lemma LevelLater(p: Params, b: Bucket, now: int, later: int)
    requires b.last <= now <= later
    ensures Level(p, b, later) == Min(Cap(p), Level(p, b, now) + (later - now))
  {
  }

  predicate Nondecreasing(times: seq<int>) {
    forall i, j :: 0 <= i < j < |times| ==> times[i] <= times[j]
  }

  function Decisions(p: Params, b: Bucket, times: seq<int>): (r: seq<bool>)
    ensures |r| == |times|
    decreases times
  {
    if times == [] then []
    else [Admits(p, b, times[0])] + Decisions(p, Spend(p, b, times[0]), times[1..])
  }

  function Count(ds: seq<bool>): nat {
    if ds == [] then 0 else (if ds[0] then 1 else 0) + Count(ds[1..])
  }

  /** Credit conservation: what is spent was there at the start or has flowed in since. */
  lemma {:induction false} SpentWithinCredit(p: Params, b: Bucket, times: seq<int>, start: int, end: int)
    requires start <= end && Nondecreasing(times)
    requires forall i :: 0 <= i < |times| ==> start <= times[i] <= end
    ensures Count(Decisions(p, b, times)) * p.interval <= Level(p, b, start) + (end - start)
    decreases times
  {
    if times != [] {
      var t, rest := times[0], times[1..];
      var b' := Spend(p, b, t);
      SpentWithinCredit(p, b', rest, t, end);
      var n := Count(Decisions(p, b', rest));
      OneMore(n, p.interval);
      assert Decisions(p, b, times)[1..] == Decisions(p, b', rest);
      SpendConserves(p, b, start, t);
    }
  }

  lemma OneMore(n: nat, k: nat)
    ensures (1 + n) * k == k + n * k
  {
  }

  lemma SpendConserves(p: Params, b: Bucket, start: int, t: int)
    requires start <= t
    ensures Level(p, Spend(p, b, t), t) + (if Admits(p, b, t) then p.interval else 0) <= Level(p, b, start) + (t - start)
  {
  }

  /** At most `burst` plus one per interval of any window, whatever came before it. */
  lemma WindowBound(p: Params, b: Bucket, times: seq<int>, start: int, end: int)
    requires start <= end && Nondecreasing(times)
    requires forall i :: 0 <= i < |times| ==> start <= times[i] <= end
    ensures Count(Decisions(p, b, times)) <= p.burst + (end - start) / p.interval
  {
    SpentWithinCredit(p, b, times, start, end);
    DivideBound(Count(Decisions(p, b, times)), p.burst, end - start, p.interval);
  }

  lemma DivideBound(n: nat, burst: nat, span: nat, interval: nat)
    requires interval > 0 && n * interval <= burst * interval + span
    ensures n <= burst + span / interval
  {
    var q := span / interval;
    assert span < (q + 1) * interval;
    var m := burst + q + 1;
    assert m * interval == burst * interval + (q + 1) * interval;
    assert n * interval < m * interval;
    LessFromProducts(n, m, interval);
  }

  lemma WithinBound(p: Params, n: nat, credit: nat, span: nat)
    requires credit <= Cap(p) && n * p.interval <= credit + span
    ensures n <= p.burst + span / p.interval
  {
    DivideBound(n, p.burst, span, p.interval);
  }

  lemma LessFromProducts(n: nat, m: nat, k: nat)
    requires n * k < m * k
    ensures n < m
  {
    if m <= n { ProductsMonotone(m, n, k); }
  }

  lemma ProductsMonotone(m: nat, n: nat, k: nat)
    requires m <= n
    ensures m * k <= n * k
  {
    assert (n - m) * k >= 0;
  }

  // ----- Exactly when a call is refused --------------------------------------------------

  /** The bucket after some calls. */
  function After(p: Params, b: Bucket, times: seq<int>): Bucket
    decreases times
  {
    if times == [] then b else After(p, Spend(p, b, times[0]), times[1..])
  }

  /** The calls lie between `start` and `end`, in order. */
  predicate Within(start: int, times: seq<int>, end: int) {
    start <= end && Nondecreasing(times) && forall i :: 0 <= i < |times| ==> start <= times[i] <= end
  }

  /** What was there at `start` and has flowed in by `end` does not pay for the admissions in between and one more. */
  predicate Overdrawn(p: Params, level: nat, start: int, end: int, ds: seq<bool>)
    requires start <= end
  {
    level + (end - start) < (Count(ds) + 1) * p.interval
  }

  /** Counted from some call at which the bucket was at most full. */
  predicate OverdrawnSince(p: Params, times: seq<int>, ds: seq<bool>, end: int, j: nat)
    requires j < |times| == |ds|
  {
    times[j] <= end && Overdrawn(p, Cap(p), times[j], end, ds[j..])
  }

  predicate EverOverdrawn(p: Params, times: seq<int>, ds: seq<bool>, end: int)
    requires |times| == |ds|
  {
    exists j | 0 <= j < |times| :: OverdrawnSince(p, times, ds, end, j)
  }

  lemma CountStep(p: Params, d: bool, ds: seq<bool>)
    ensures Count([d] + ds) == (if d then 1 else 0) + Count(ds)
    ensures (Count([d] + ds) + 1) * p.interval == (if d then p.interval else 0) + (Count(ds) + 1) * p.interval
  {
    assert ([d] + ds)[1..] == ds;
    OneMore(Count(ds) + 1, p.interval);
  }

  /** Being overdrawn, told from the first call on instead of from the start. */
  lemma OverdrawnStep(p: Params, b: Bucket, start: int, t: int, end: int, ds: seq<bool>)
    requires b.last <= start <= t <= end
    ensures var d := Admits(p, b, t);
            Overdrawn(p, Level(p, Spend(p, b, t), t), t, end, ds) <==>
              Overdrawn(p, Level(p, b, start), start, end, [d] + ds) || Overdrawn(p, Cap(p), t, end, [d] + ds)
  {
    LevelLater(p, b, start, t);
    CountStep(p, Admits(p, b, t), ds);
  }

  lemma EverStep(p: Params, t: int, times: seq<int>, d: bool, ds: seq<bool>, end: int)
    requires |times| == |ds| && t <= end
    ensures EverOverdrawn(p, [t] + times, [d] + ds, end) <==> Overdrawn(p, Cap(p), t, end, [d] + ds) || EverOverdrawn(p, times, ds, end)
  {
    var ts, es := [t] + times, [d] + ds;
    assert es[0..] == es;
    if j :| 0 <= j < |ts| && OverdrawnSince(p, ts, es, end, j) && j > 0 {
      assert es[j..] == ds[j - 1..];
      assert OverdrawnSince(p, times, ds, end, j - 1);
    }
    if j :| 0 <= j < |times| && OverdrawnSince(p, times, ds, end, j) {
      assert es[j + 1..] == ds[j..];
      assert OverdrawnSince(p, ts, es, end, j + 1);
    }
    if Overdrawn(p, Cap(p), t, end, es) { assert OverdrawnSince(p, ts, es, end, 0); }
  }

  /** A call is refused exactly when the admissions since the start, or since some earlier call, have used
      up what can have been there and what has flowed in. Refusals cost nothing. */
  lemma {:induction false} RefusedIff(p: Params, b: Bucket, start: int, times: seq<int>, end: int)
    requires b.last <= start && Within(start, times, end)
    ensures var ds := Decisions(p, b, times);
            !Admits(p, After(p, b, times), end) <==>
              Overdrawn(p, Level(p, b, start), start, end, ds) || EverOverdrawn(p, times, ds, end)
    decreases times
  {
    if times == [] {
      LevelLater(p, b, start, end);
      CapCoversOne(p);
    } else {
      var t, rest := times[0], times[1..];
      var d, b' := Admits(p, b, t), Spend(p, b, t);
      var ds := Decisions(p, b', rest);
      assert times == [t] + rest && Decisions(p, b, times) == [d] + ds;
      RefusedIff(p, b', t, rest, end);
      OverdrawnStep(p, b, start, t, end, ds);
      EverStep(p, t, rest, d, ds, end);
    }
  }

  predicate NotBefore(times: seq<int>, now: int) {
    Nondecreasing(times) && forall i :: 0 <= i < |times| ==> now <= times[i]
  }

  /** Replacing a bucket by a fresh one goes unnoticed exactly when the bucket is full. */
  lemma FreshUnnoticedIffFull(p: Params, b: Bucket, now: int)
    requires b.last <= now
    ensures (forall times :: NotBefore(times, now) ==> Decisions(p, b, times) == Decisions(p, Fresh(p, now), times))
            <==> Level(p, b, now) == Cap(p)
  {
    if Level(p, b, now) == Cap(p) {
      forall times | NotBefore(times, now) ensures Decisions(p, b, times) == Decisions(p, Fresh(p, now), times) {
        SameLevelSameDecisions(p, b, Fresh(p, now), now, times);
      }
    } else {
      FreshNoticed(p, b, now);
    }
  }

  /** A burst at one instant tells a fresh bucket from one that is not full. */
  lemma FreshNoticed(p: Params, b: Bucket, now: int)
    requires b.last <= now && Level(p, b, now) < Cap(p)
    ensures var times := seq(p.burst, i => now);
            NotBefore(times, now) && Decisions(p, b, times) != Decisions(p, Fresh(p, now), times)
  {
    var times := seq(p.burst, i => now);
    FullBurst(p, now, p.burst);
    SpentWithinCredit(p, b, times, now, now);
    LessFromProducts(Count(Decisions(p, b, times)), p.burst, p.interval);
  }

  lemma {:induction false} SameLevelSameDecisions(p: Params, b: Bucket, c: Bucket, now: int, times: seq<int>)
    requires b.last <= now && c.last <= now && Level(p, b, now) == Level(p, c, now)
    requires NotBefore(times, now)
    ensures Decisions(p, b, times) == Decisions(p, c, times)
    decreases times
  {
    if times != [] {
      var t := times[0];
      LevelLater(p, b, now, t);
      LevelLater(p, c, now, t);
      SameLevelSameDecisions(p, Spend(p, b, t), Spend(p, c, t), t, times[1..]);
    }
  }

  /** A bucket holding `n` intervals admits `n` calls at one instant. */
  lemma {:induction false} BurstAdmitted(p: Params, b: Bucket, now: int, n: nat)
    requires b.last <= now && Level(p, b, now) >= n * p.interval
    ensures Count(Decisions(p, b, seq(n, i => now))) == n
    decreases n
  {
    if n > 0 {
      var times := seq(n, i => now);
      assert times[1..] == seq(n - 1, i => now);
      assert n * p.interval == p.interval + (n - 1) * p.interval;
      assert (n - 1) * p.interval >= 0;
      BurstAdmitted(p, Spend(p, b, now), now, n - 1);
    }
  }

  lemma FullBurst(p: Params, now: int, n: nat)
    requires n <= p.burst
    ensures Count(Decisions(p, Fresh(p, now), seq(n, i => now))) == n
  {
    assert n * p.interval <= p.burst * p.interval;
    BurstAdmitted(p, Fresh(p, now), now, n);
  }

  // ----- One bucket per probe ------------------------------------------------------------

  datatype Call = Allow(id: string, at: int) | Remove(id: string)

  function BucketOf(p: Params, m: map<string, Bucket>, id: string, now: int): Bucket {
    if id in m then m[id] else Fresh(p, now)
  }

  function Step(p: Params, m: map<string, Bucket>, c: Call): map<string, Bucket> {
    match c
    case Allow(id, at) => m[id := Spend(p, BucketOf(p, m, id, at), at)]
    case Remove(id) => m - {id}
  }

  /** The answers one probe gets in a trace of everybody's calls. */
  function AnswersTo(p: Params, m: map<string, Bucket>, calls: seq<Call>, id: string): seq<bool>
    decreases calls
  {
    if calls == [] then []
    else
      var c := calls[0];
      (if c.Allow? && c.id == id then [Admits(p, BucketOf(p, m, id, c.at), c.at)] else [])
      + AnswersTo(p, Step(p, m, c), calls[1..], id)
  }

  function RunCalls(p: Params, m: map<string, Bucket>, calls: seq<Call>): map<string, Bucket>
    decreases calls
  {
    if calls == [] then m else RunCalls(p, Step(p, m, calls[0]), calls[1..])
  }

  lemma {:induction false} AnswersConcat(p: Params, m: map<string, Bucket>, a: seq<Call>, b: seq<Call>, id: string)
    ensures AnswersTo(p, m, a + b, id) == AnswersTo(p, m, a, id) + AnswersTo(p, RunCalls(p, m, a), b, id)
    decreases a
  {
    if a == [] {
      assert a + b == b;
    } else {
      assert (a + b)[1..] == a[1..] + b;
      AnswersConcat(p, Step(p, m, a[0]), a[1..], b, id);
    }
  }

  /** Deleting a refused call from a trace leaves every other answer, of every probe, as it was. */
  lemma RefusalCostsNothing(p: Params, m: map<string, Bucket>, before: seq<Call>, c: Call, after: seq<Call>, id: string)
    requires c.Allow? && var n := RunCalls(p, m, before); !Admits(p, BucketOf(p, n, c.id, c.at), c.at)
    ensures var gone := if c.id == id then [false] else [];
            var head, tail := AnswersTo(p, m, before, id), AnswersTo(p, RunCalls(p, m, before), after, id);
            && AnswersTo(p, m, before + ([c] + after), id) == head + (gone + tail)
            && AnswersTo(p, m, before + after, id) == head + tail
  {
    AnswersConcat(p, m, before, after, id);
    AnswersConcat(p, m, before, [c] + after, id);
    RefusedHead(p, RunCalls(p, m, before), c, after, id);
  }

  lemma RefusedHead(p: Params, n: map<string, Bucket>, c: Call, after: seq<Call>, id: string)
    requires c.Allow? && !Admits(p, BucketOf(p, n, c.id, c.at), c.at)
    ensures AnswersTo(p, n, [c] + after, id) == (if c.id == id then [false] else []) + AnswersTo(p, n, after, id)
  {
    assert ([c] + after)[1..] == after;
    RefusedStepIdle(p, n, c);
  }

  lemma RefusedStepIdle(p: Params, m: map<string, Bucket>, c: Call)
    requires c.Allow? && !Admits(p, BucketOf(p, m, c.id, c.at), c.at)
    ensures Step(p, m, c) == m
  {
    CapCoversOne(p);
  }

  function Only(calls: seq<Call>, id: string): seq<Call> {
    if calls == [] then [] else (if calls[0].id == id then [calls[0]] else []) + Only(calls[1..], id)
  }

  predicate SameEntry(m: map<string, Bucket>, n: map<string, Bucket>, id: string) {
    (id in m <==> id in n) && (id in m ==> m[id] == n[id])
  }

  /** Deleting everybody else's calls from a trace changes nothing for one probe. */
  lemma {:induction false} Isolation(p: Params, m: map<string, Bucket>, n: map<string, Bucket>, calls: seq<Call>, id: string)
    requires SameEntry(m, n, id)
    ensures AnswersTo(p, m, calls, id) == AnswersTo(p, n, Only(calls, id), id)
    decreases calls
  {
    if calls != [] {
      var c := calls[0];
      if c.id == id {
        var rest := Only(calls[1..], id);
        assert Only(calls, id) == [c] + rest && ([c] + rest)[1..] == rest;
        Isolation(p, Step(p, m, c), Step(p, n, c), calls[1..], id);
      } else {
        assert Only(calls, id) == Only(calls[1..], id);
        Isolation(p, Step(p, m, c), n, calls[1..], id);
      }
    }
  }

  function Times(calls: seq<Call>, id: string): seq<int> {
    if calls == [] then []
    else (if calls[0].Allow? && calls[0].id == id then [calls[0].at] else []) + Times(calls[1..], id)
  }

  lemma TimesTail(calls: seq<Call>, id: string)
    requires calls != []
    ensures var c, rest := calls[0], Times(calls[1..], id);
            if c.Allow? && c.id == id
            then Times(calls, id) == [c.at] + rest && Times(calls, id)[0] == c.at && Times(calls, id)[1..] == rest
            else Times(calls, id) == rest
  {
  }

  /** Without a `Remove`, one probe's answers are those of one bucket. */
  lemma {:induction false} AnswersAreDecisions(p: Params, m: map<string, Bucket>, calls: seq<Call>, id: string)
    requires id in m && forall i :: 0 <= i < |calls| ==> calls[i] != Remove(id)
    ensures AnswersTo(p, m, calls, id) == Decisions(p, m[id], Times(calls, id))
    decreases calls
  {
    if calls != [] {
      AnswersAreDecisions(p, Step(p, m, calls[0]), calls[1..], id);
      TimesTail(calls, id);
    }
  }

  /** A full bucket stays full until it is spent from. */
  lemma SpendFresh(p: Params, start: int, at: int)
    requires start <= at
    ensures Admits(p, Fresh(p, start), at) && Admits(p, Fresh(p, at), at)
    ensures Spend(p, Fresh(p, start), at) == Spend(p, Fresh(p, at), at)
  {
    CapCoversOne(p);
  }

  lemma {:induction false} FirstCallCreates(p: Params, m: map<string, Bucket>, calls: seq<Call>, id: string, start: int)
    requires id !in m && (forall i :: 0 <= i < |calls| ==> calls[i] != Remove(id))
    requires var ts := Times(calls, id); forall i :: 0 <= i < |ts| ==> start <= ts[i]
    ensures AnswersTo(p, m, calls, id) == Decisions(p, Fresh(p, start), Times(calls, id))
    decreases calls
  {
    if calls != [] {
      var c := calls[0];
      TimesTail(calls, id);
      if c.Allow? && c.id == id {
        SpendFresh(p, start, c.at);
        AnswersAreDecisions(p, Step(p, m, c), calls[1..], id);
      } else {
        FirstCallCreates(p, Step(p, m, c), calls[1..], id, start);
      }
    }
  }

  /** Per probe, in any trace: a window without a `Remove` admits `burst` plus one per interval. */
  lemma ProbeWindowBound(p: Params, m: map<string, Bucket>, calls: seq<Call>, id: string, start: int, end: int)
    requires start <= end && forall i :: 0 <= i < |calls| ==> calls[i] != Remove(id)
    requires Nondecreasing(Times(calls, id)) && forall i :: 0 <= i < |Times(calls, id)| ==> start <= Times(calls, id)[i] <= end
    ensures Count(AnswersTo(p, m, calls, id)) <= p.burst + (end - start) / p.interval
  {
    var b := BucketOf(p, m, id, start);
    if id in m { AnswersAreDecisions(p, m, calls, id); } else { FirstCallCreates(p, m, calls, id, start); }
    WindowBound(p, b, Times(calls, id), start, end);
  }

  class Limiter {
    const params: Params
    var buckets: map<string, Bucket>

    constructor (p: Params)
      ensures params == p && buckets == map[]
    {
      params, buckets := p, map[];
    }

    method Allow(probeID: string, now: int) returns (ok: bool)
      modifies this
      ensures ok == Admits(params, BucketOf(params, old(buckets), probeID, now), now)
      ensures buckets == Step(params, old(buckets), Call.Allow(probeID, now))
    {
      if probeID !in buckets {
        buckets := buckets[probeID := Fresh(params, now)];
      }
      var b := buckets[probeID];
      ok := Admits(params, b, now);
      buckets := buckets[probeID := Spend(params, b, now)];
    }

    method Remove(probeID: string)
      modifies this
      ensures buckets == Step(params, old(buckets), Call.Remove(probeID))
    {
      buckets := buckets - {probeID};
    }
  }
}
