/** The registration limiter: a bounded map of buckets standing in for one bucket per address. */
module RegisterLimiter {
  import opened Wire
  import opened Order
  import opened Buckets

  const MAX_TRACKED: nat := 10000

  datatype Entry = Entry(bucket: Bucket, lastUsed: int)

  type Entries = map<string, Entry>

  predicate Full(p: Params, e: Entry, now: int) { Level(p, e.bucket, now) >= Cap(p) }

  /** The eviction scan: the first full bucket met, else the oldest, with "" standing for "none yet". */
  function Scan(p: Params, m: Entries, now: int, order: seq<string>, oldestKey: string, oldest: int): Option<string>
    requires Elements(order) <= m.Keys
    decreases order
  {
    if order == [] then (if oldestKey != "" then Some(oldestKey) else None)
    else
      var k := order[0];
      assert k in Elements(order) && Elements(order[1..]) <= Elements(order);
      if Full(p, m[k], now) then Some(k)
      else if oldestKey == "" || m[k].lastUsed < oldest then Scan(p, m, now, order[1..], k, m[k].lastUsed)
      else Scan(p, m, now, order[1..], oldestKey, oldest)
  }

  function Victim(p: Params, m: Entries, now: int, order: seq<string>): Option<string>
    requires Elements(order) <= m.Keys
  {
    Scan(p, m, now, order, "", 0)
  }

  function Drop(m: Entries, victim: Option<string>): Entries {
    match victim case Some(k) => m - {k} case None => m
  }

  predicate NeedsRoom(m: Entries, ip: string) { ip !in m && |m| >= MAX_TRACKED }

  function Evicted(p: Params, m: Entries, ip: string, now: int, order: seq<string>): Entries
    requires IsOrder(order, m.Keys)
  {
    if NeedsRoom(m, ip) then Drop(m, Victim(p, m, now, order)) else m
  }

  function BucketFor(p: Params, m: Entries, ip: string, now: int): Bucket {
    if ip in m then m[ip].bucket else Fresh(p, now)
  }

  function AllowStep(p: Params, m: Entries, ip: string, now: int, order: seq<string>): Entries
    requires IsOrder(order, m.Keys)
  {
    Evicted(p, m, ip, now, order)[ip := Entry(Spend(p, BucketFor(p, m, ip, now), now), now)]
  }

  // ----- What the scan finds -------------------------------------------------------------

  lemma {:induction false} ScanFinds(p: Params, m: Entries, now: int, order: seq<string>, oldestKey: string, oldest: int)
    requires Elements(order) <= m.Keys && "" !in order
    requires oldestKey != "" ==> oldestKey in m && m[oldestKey].lastUsed == oldest && !Full(p, m[oldestKey], now)
    ensures var v := Scan(p, m, now, order, oldestKey, oldest);
            && (v == None <==> order == [] && oldestKey == "")
            && (v.Some? ==> && v.value in m && (v.value in order || v.value == oldestKey)
                            && (Full(p, m[v.value], now) ||
                                (&& (forall k :: k in order ==> !Full(p, m[k], now) && m[v.value].lastUsed <= m[k].lastUsed)
                                 && (oldestKey != "" ==> m[v.value].lastUsed <= oldest))))
    decreases order
  {
    if order != [] {
      var k, rest := order[0], order[1..];
      assert k in Elements(order) && Elements(rest) <= Elements(order);
      assert order == [k] + rest;
      if Full(p, m[k], now) {
      } else if oldestKey == "" || m[k].lastUsed < oldest {
        ScanFinds(p, m, now, rest, k, m[k].lastUsed);
      } else {
        ScanFinds(p, m, now, rest, oldestKey, oldest);
      }
    }
  }

  /** What the comments promise of a victim among `s`: a full bucket, else a least recently used one. */
  predicate Proper(p: Params, m: Entries, now: int, s: set<string>, v: Option<string>)
    requires s <= m.Keys
  {
    && v.Some? && v.value in s
    && (Full(p, m[v.value], now) || forall k :: k in s ==> !Full(p, m[k], now) && m[v.value].lastUsed <= m[k].lastUsed)
  }

  /** No bucket is full and the one to evict is that of the address "". */
  predicate Masked(p: Params, m: Entries, now: int, s: set<string>)
    requires s <= m.Keys
  {
    "" in s && forall k :: k in s ==> !Full(p, m[k], now) && (k != "" ==> m[""].lastUsed < m[k].lastUsed)
  }

  function Seen(order: seq<string>, oldestKey: string): set<string> {
    Elements(order) + if oldestKey != "" then {oldestKey} else {}
  }

  /** Passing over an entry that is not full and no older than another changes neither side. */
  lemma PassedOver(p: Params, m: Entries, now: int, s: set<string>, d: string, c: string, v: Option<string>)
    requires s <= m.Keys && d in m && d !in s && d != "" && c in s && c != ""
    requires !Full(p, m[d], now) && m[c].lastUsed <= m[d].lastUsed && (v.Some? ==> v.value in s)
    ensures Proper(p, m, now, s + {d}, v) <==> Proper(p, m, now, s, v)
    ensures Masked(p, m, now, s + {d}) <==> Masked(p, m, now, s)
  {
    assert v.Some? && (forall k :: k in s ==> m[v.value].lastUsed <= m[k].lastUsed) ==> m[v.value].lastUsed <= m[c].lastUsed;
    assert Masked(p, m, now, s) ==> m[""].lastUsed < m[c].lastUsed;
  }

  lemma {:induction false} ScanProperIff(p: Params, m: Entries, now: int, order: seq<string>, oldestKey: string, oldest: int)
    requires Elements(order) <= m.Keys && (order != [] || oldestKey != "")
    requires forall i, j :: 0 <= i < j < |order| ==> order[i] != order[j]
    requires oldestKey != "" ==> oldestKey in m && oldestKey !in order && m[oldestKey].lastUsed == oldest && !Full(p, m[oldestKey], now)
    ensures Proper(p, m, now, Seen(order, oldestKey), Scan(p, m, now, order, oldestKey, oldest))
            <==> !Masked(p, m, now, Seen(order, oldestKey))
    decreases order
  {
    if order != [] {
      var k, rest := order[0], order[1..];
      assert order == [k] + rest && Elements(order) == Elements(rest) + {k};
      assert k !in rest;
      if k == "" {
        ScanMeetsEmpty(p, m, now, rest, oldestKey, oldest);
        assert order == [""] + rest;
      } else if !Full(p, m[k], now) {
        var c, t := if oldestKey == "" || m[k].lastUsed < oldest then k else oldestKey,
                    if oldestKey == "" || m[k].lastUsed < oldest then m[k].lastUsed else oldest;
        ScanProperIff(p, m, now, rest, c, t);
        ScanAmong(p, m, now, rest, c, t);
        if oldestKey == "" {
          assert Seen(order, oldestKey) == Seen(rest, c);
        } else {
          var d := if m[k].lastUsed < oldest then oldestKey else k;
          assert Seen(order, oldestKey) == Seen(rest, c) + {d};
          PassedOver(p, m, now, Seen(rest, c), d, c, Scan(p, m, now, rest, c, t));
        }
      }
    }
  }

  /** The scan at the address "": it either forgets it had a candidate, or keeps one that is no newer. */
  lemma ScanMeetsEmpty(p: Params, m: Entries, now: int, rest: seq<string>, oldestKey: string, oldest: int)
    requires Elements([""] + rest) <= m.Keys && "" !in rest
    requires oldestKey != "" ==> oldestKey in m && m[oldestKey].lastUsed == oldest && !Full(p, m[oldestKey], now)
    ensures var order := [""] + rest;
            Proper(p, m, now, Seen(order, oldestKey), Scan(p, m, now, order, oldestKey, oldest))
            <==> !Masked(p, m, now, Seen(order, oldestKey))
  {
    var order := [""] + rest;
    assert order[1..] == rest && "" in Elements(order);
    assert forall k :: k in rest <==> k in Elements(rest);
    assert Elements(order) == Elements(rest) + {""};
    if !Full(p, m[""], now) {
      if oldestKey == "" || m[""].lastUsed < oldest {
        ScanFinds(p, m, now, rest, "", m[""].lastUsed);
        ScanAmong(p, m, now, rest, "", m[""].lastUsed);
        var v := Scan(p, m, now, rest, "", m[""].lastUsed);
        if v.Some? && !Full(p, m[v.value], now) {
          assert Proper(p, m, now, Seen(order, oldestKey), v) <==> m[v.value].lastUsed <= m[""].lastUsed;
        }
      } else {
        ScanFinds(p, m, now, rest, oldestKey, oldest);
      }
    }
  }

  /** The victim is the promised one exactly when the bucket of the address "" is not the one to evict,
      which the scan cannot tell from "no candidate yet". */
  lemma VictimProperIff(p: Params, m: Entries, now: int, order: seq<string>)
    requires IsOrder(order, m.Keys) && m != map[]
    ensures Proper(p, m, now, m.Keys, Victim(p, m, now, order)) <==> !Masked(p, m, now, m.Keys)
  {
    assert order != [] by { var k :| k in m; assert k in Elements(order); }
    assert Seen(order, "") == m.Keys;
    ScanProperIff(p, m, now, order, "", 0);
  }

  /** And then, if "" happens to be visited last, nothing at all is evicted. */
  lemma NothingEvictedIff(p: Params, m: Entries, now: int, order: seq<string>)
    requires IsOrder(order, m.Keys) && m != map[]
    ensures Victim(p, m, now, order) == None <==> order[|order| - 1] == "" && Masked(p, m, now, m.Keys)
  {
    assert forall k :: k in order <==> k in Elements(order);
    assert order != [] by { var k :| k in m; assert k in order; }
    NothingFoundIff(p, m, now, order, "", 0);
  }

  lemma {:induction false} NothingFoundIff(p: Params, m: Entries, now: int, order: seq<string>, oldestKey: string, oldest: int)
    requires order != [] && Elements(order) <= m.Keys
    requires forall i, j :: 0 <= i < j < |order| ==> order[i] != order[j]
    ensures Scan(p, m, now, order, oldestKey, oldest) == None <==>
              && order[|order| - 1] == ""
              && (forall k :: k in order ==> !Full(p, m[k], now) && (k != "" ==> "" in m && m[""].lastUsed < m[k].lastUsed))
              && (oldestKey != "" ==> "" in m && m[""].lastUsed < oldest)
    decreases order
  {
    var k, rest := order[0], order[1..];
    assert k in Elements(order) && Elements(rest) <= Elements(order);
    assert order == [k] + rest;
    if rest == [] {
      assert order == [k];
    } else {
      assert order[|order| - 1] == rest[|rest| - 1];
      if !Full(p, m[k], now) {
        if oldestKey == "" || m[k].lastUsed < oldest {
          NothingFoundIff(p, m, now, rest, k, m[k].lastUsed);
        } else {
          NothingFoundIff(p, m, now, rest, oldestKey, oldest);
        }
      }
      assert order[|order| - 1] == "" ==> k != "";
      assert order[|order| - 1] == "" ==> "" in Elements(order);
    }
  }

  /** So a call keeps the bound, except that one. */
  lemma BoundedIff(p: Params, m: Entries, ip: string, now: int, order: seq<string>)
    requires IsOrder(order, m.Keys) && |m| <= MAX_TRACKED
    ensures |AllowStep(p, m, ip, now, order)| <= MAX_TRACKED
            <==> !(NeedsRoom(m, ip) && order != [] && order[|order| - 1] == "" && Masked(p, m, now, m.Keys))
  {
    var after := AllowStep(p, m, ip, now, order);
    assert after.Keys == Evicted(p, m, ip, now, order).Keys + {ip};
    if NeedsRoom(m, ip) {
      NothingEvictedIff(p, m, now, order);
      ScanAmong(p, m, now, order, "", 0);
      assert order != [] by { var k :| k in m; assert k in Elements(order); }
      DropShrinks(m, Victim(p, m, now, order));
    }
  }

  lemma DropShrinks(m: Entries, v: Option<string>)
    requires v.Some? ==> v.value in m
    ensures |Drop(m, v)| == |m| - if v.Some? then 1 else 0
  {
    assert v.Some? ==> Drop(m, v).Keys == m.Keys - {v.value};
  }

  lemma {:induction false} ScanAmong(p: Params, m: Entries, now: int, order: seq<string>, oldestKey: string, oldest: int)
    requires Elements(order) <= m.Keys
    ensures var v := Scan(p, m, now, order, oldestKey, oldest); v.Some? ==> v.value in Seen(order, oldestKey)
    decreases order
  {
    if order != [] {
      var k := order[0];
      assert k in Elements(order) && Elements(order[1..]) <= Elements(order);
      if oldestKey == "" || m[k].lastUsed < oldest { ScanAmong(p, m, now, order[1..], k, m[k].lastUsed); }
      else { ScanAmong(p, m, now, order[1..], oldestKey, oldest); }
    }
  }

  function Repeated(k: nat): (s: string)
    ensures |s| == k
  {
    seq(k, i => 'a')
  }

  /** "a...a" of every length below `n`, the longest first, so that "" comes last. */
  function Descending(n: nat): seq<string> { seq(n, i requires 0 <= i < n => Repeated(n - 1 - i)) }

  lemma DescendingDistinct(n: nat)
    ensures var r := Descending(n); |r| == n && forall i, j :: 0 <= i < j < n ==> r[i] != r[j]
    ensures forall i :: 0 <= i < n ==> (Descending(n)[i] == "" <==> i == n - 1)
  {
    assert forall i :: 0 <= i < n ==> Descending(n)[i] == Repeated(n - 1 - i);
    assert n > 0 ==> Repeated(0) == "";
  }

  lemma {:induction false} ElementsCount(r: seq<string>)
    requires forall i, j :: 0 <= i < j < |r| ==> r[i] != r[j]
    ensures |Elements(r)| == |r|
    decreases r
  {
    if r != [] {
      assert r == [r[0]] + r[1..];
      ElementsCount(r[1..]);
      assert Elements(r) == {r[0]} + Elements(r[1..]) && r[0] !in Elements(r[1..]);
    }
  }

  /** When `keys` were last used and drained: "" a moment before all others. */
  function Stamp(k: string): int { if k == "" then 5 else 6 }

  function Drained(keys: set<string>): Entries { map k | k in keys :: Entry(Bucket(0, Stamp(k)), Stamp(k)) }

  lemma NewIsNew(n: nat)
    ensures "new" !in Elements(Descending(n))
  {
    assert forall i :: 0 <= i < n ==> Descending(n)[i] == Repeated(n - 1 - i);
    assert forall k :: k > 0 ==> Repeated(k)[0] == 'a';
  }

  /** A full table with the address "" in it: the next new address makes it exceed its bound. */
  lemma EmptyAddressOverflows(p: Params)
    requires Cap(p) > 1
    ensures var order := Descending(MAX_TRACKED);
            var m := Drained(Elements(order));
            && IsOrder(order, m.Keys) && |m| == 10000 && "new" !in m
            && |AllowStep(p, m, "new", 6, order)| == 10001
  {
    var order := Descending(MAX_TRACKED);
    var m := Drained(Elements(order));
    DescendingDistinct(MAX_TRACKED);
    ElementsCount(order);
    assert m.Keys == Elements(order);
    assert order[MAX_TRACKED - 1] in Elements(order);
    NewIsNew(MAX_TRACKED);
    NothingEvictedIff(p, m, 6, order);
    assert AllowStep(p, m, "new", 6, order).Keys == m.Keys + {"new"};
  }

  // ----- The bounded map refines the unbounded one ---------------------------------------

  datatype Event = Allow(ip: string, at: int, order: seq<string>) | Remove(ip: string)

  function Step(p: Params, m: Entries, e: Event): Entries
    requires e.Allow? ==> IsOrder(e.order, m.Keys)
  {
    match e
    case Allow(ip, at, order) => AllowStep(p, m, ip, at, order)
    case Remove(ip) => m - {ip}
  }

  /** The clock does not go back, and every visiting order is one of the map's at that moment. */
  predicate ValidRun(p: Params, m: Entries, now: int, events: seq<Event>)
    decreases events
  {
    events != [] ==>
      var e := events[0];
      && (e.Allow? ==> now <= e.at && IsOrder(e.order, m.Keys))
      && ValidRun(p, Step(p, m, e), if e.Allow? then e.at else now, events[1..])
  }

  /** Whenever a bucket is dropped to make room, it is full. */
  predicate DropsOnlyFull(p: Params, m: Entries, now: int, events: seq<Event>)
    requires ValidRun(p, m, now, events)
    decreases events
  {
    events != [] ==>
      var e := events[0];
      && (e.Allow? && NeedsRoom(m, e.ip) ==>
            var v := Victim(p, m, e.at, e.order); v.Some? && v.value in m ==> Full(p, m[v.value], e.at))
      && DropsOnlyFull(p, Step(p, m, e), if e.Allow? then e.at else now, events[1..])
  }

  function Answers(p: Params, m: Entries, now: int, events: seq<Event>): seq<bool>
    requires ValidRun(p, m, now, events)
    decreases events
  {
    if events == [] then []
    else
      var e := events[0];
      (if e.Allow? then [Admits(p, BucketFor(p, m, e.ip, e.at), e.at)] else [])
      + Answers(p, Step(p, m, e), if e.Allow? then e.at else now, events[1..])
  }

  /** The same calls put to one eternal bucket per address. */
  function AsCall(e: Event): Call {
    match e case Allow(ip, at, _) => Call.Allow(ip, at) case Remove(ip) => Call.Remove(ip)
  }

  function UnboundedAnswers(p: Params, n: map<string, Bucket>, events: seq<Event>): seq<bool>
    decreases events
  {
    if events == [] then []
    else
      var e := events[0];
      (if e.Allow? then [Admits(p, BucketOf(p, n, e.ip, e.at), e.at)] else [])
      + UnboundedAnswers(p, Buckets.Step(p, n, AsCall(e)), events[1..])
  }

  /** Every address, tracked or not, has the same credit in both maps. */
  ghost predicate SameLevels(p: Params, m: Entries, n: map<string, Bucket>, now: int) {
    && (forall k :: k in m ==> m[k].bucket.last <= now)
    && (forall k :: k in n ==> n[k].last <= now)
    && forall ip: string :: Level(p, BucketFor(p, m, ip, now), now) == Level(p, BucketOf(p, n, ip, now), now)
  }

  lemma SameLevelsLater(p: Params, m: Entries, n: map<string, Bucket>, now: int, later: int)
    requires SameLevels(p, m, n, now) && now <= later
    ensures SameLevels(p, m, n, later)
  {
    forall ip: string
      ensures Level(p, BucketFor(p, m, ip, later), later) == Level(p, BucketOf(p, n, ip, later), later)
    {
      LevelLater(p, BucketFor(p, m, ip, now), now, later);
      LevelLater(p, BucketOf(p, n, ip, now), now, later);
      LevelLater(p, Fresh(p, now), now, later);
    }
  }

  lemma AllowKeepsLevels(p: Params, m: Entries, n: map<string, Bucket>, ip: string, now: int, order: seq<string>)
    requires SameLevels(p, m, n, now) && IsOrder(order, m.Keys)
    requires NeedsRoom(m, ip) ==> var v := Victim(p, m, now, order); v.Some? && v.value in m ==> Full(p, m[v.value], now)
    ensures SameLevels(p, AllowStep(p, m, ip, now, order), Buckets.Step(p, n, Call.Allow(ip, now)), now)
  {
    var m', n' := AllowStep(p, m, ip, now, order), Buckets.Step(p, n, Call.Allow(ip, now));
    forall a: string ensures Level(p, BucketFor(p, m', a, now), now) == Level(p, BucketOf(p, n', a, now), now) {
      assert Level(p, BucketFor(p, m, a, now), now) == Level(p, BucketOf(p, n, a, now), now);
    }
  }

  lemma {:induction false} RefinesUnbounded(p: Params, m: Entries, n: map<string, Bucket>, now: int, events: seq<Event>)
    requires SameLevels(p, m, n, now)
    requires ValidRun(p, m, now, events) && DropsOnlyFull(p, m, now, events)
    ensures Answers(p, m, now, events) == UnboundedAnswers(p, n, events)
    decreases events
  {
    if events != [] {
      var e := events[0];
      var m', n' := Step(p, m, e), Buckets.Step(p, n, AsCall(e));
      if e.Allow? {
        SameLevelsLater(p, m, n, now, e.at);
        AllowKeepsLevels(p, m, n, e.ip, e.at, e.order);
        assert Level(p, BucketFor(p, m, e.ip, e.at), e.at) == Level(p, BucketOf(p, n, e.ip, e.at), e.at);
        RefinesUnbounded(p, m', n', e.at, events[1..]);
      } else {
        RemoveKeepsLevels(p, m, n, e.ip, now);
        RefinesUnbounded(p, m', n', now, events[1..]);
      }
    }
  }

  lemma RemoveKeepsLevels(p: Params, m: Entries, n: map<string, Bucket>, ip: string, now: int)
    requires SameLevels(p, m, n, now)
    ensures SameLevels(p, m - {ip}, n - {ip}, now)
  {
    forall a: string
      ensures Level(p, BucketFor(p, m - {ip}, a, now), now) == Level(p, BucketOf(p, n - {ip}, a, now), now)
    {
      assert Level(p, BucketFor(p, m, a, now), now) == Level(p, BucketOf(p, n, a, now), now);
    }
  }

  /** From start-up: a run that only ever drops full buckets answers every call as the unbounded limiter. */
  lemma BoundedRefinesUnbounded(p: Params, now: int, events: seq<Event>)
    requires ValidRun(p, map[], now, events) && DropsOnlyFull(p, map[], now, events)
    ensures Answers(p, map[], now, events) == UnboundedAnswers(p, map[], events)
  {
    RefinesUnbounded(p, map[], map[], now, events);
  }

  // ----- A refused call costs nothing ----------------------------------------------------

  /** It moves a stamp and leaves every bucket as it was. */
  lemma RefusedOnlyStamps(p: Params, m: Entries, ip: string, now: int, order: seq<string>)
    requires IsOrder(order, m.Keys) && !Admits(p, BucketFor(p, m, ip, now), now)
    ensures ip in m && AllowStep(p, m, ip, now, order) == m[ip := m[ip].(lastUsed := now)]
  {
    CapCoversOne(p);
  }

  function RunUnbounded(p: Params, n: map<string, Bucket>, events: seq<Event>): map<string, Bucket>
    decreases events
  {
    if events == [] then n else RunUnbounded(p, Buckets.Step(p, n, AsCall(events[0])), events[1..])
  }

  lemma {:induction false} UnboundedConcat(p: Params, n: map<string, Bucket>, a: seq<Event>, b: seq<Event>)
    ensures UnboundedAnswers(p, n, a + b) == UnboundedAnswers(p, n, a) + UnboundedAnswers(p, RunUnbounded(p, n, a), b)
    decreases a
  {
    if a == [] {
      assert a + b == b;
    } else {
      assert (a + b)[1..] == a[1..] + b;
      UnboundedConcat(p, Buckets.Step(p, n, AsCall(a[0])), a[1..], b);
    }
  }

  lemma RefusedHead(p: Params, n: map<string, Bucket>, e: Event, after: seq<Event>)
    requires e.Allow? && !Admits(p, BucketOf(p, n, e.ip, e.at), e.at)
    ensures UnboundedAnswers(p, n, [e] + after) == [false] + UnboundedAnswers(p, n, after)
  {
    assert ([e] + after)[1..] == after;
    RefusedStepIdle(p, n, AsCall(e));
  }

  /** Without a refused call every other call is answered as before: over eternal buckets, which the bounded
      map answers like in light traffic. */
  lemma RefusalUnnoticed(p: Params, before: seq<Event>, e: Event, after: seq<Event>)
    requires e.Allow? && !Admits(p, BucketOf(p, RunUnbounded(p, map[], before), e.ip, e.at), e.at)
    ensures var head, tail := UnboundedAnswers(p, map[], before), UnboundedAnswers(p, RunUnbounded(p, map[], before), after);
            && UnboundedAnswers(p, map[], before + ([e] + after)) == head + ([false] + tail)
            && UnboundedAnswers(p, map[], before + after) == head + tail
  {
    UnboundedConcat(p, map[], before, after);
    UnboundedConcat(p, map[], before, [e] + after);
    RefusedHead(p, RunUnbounded(p, map[], before), e, after);
  }

  // ----- What light traffic is enough for ------------------------------------------------

  lemma {:induction false} ScanTakesFull(p: Params, m: Entries, now: int, order: seq<string>, oldestKey: string, oldest: int)
    requires Elements(order) <= m.Keys && exists k :: k in order && Full(p, m[k], now)
    ensures var v := Scan(p, m, now, order, oldestKey, oldest); v.Some? && v.value in m && Full(p, m[v.value], now)
    decreases order
  {
    var k, rest := order[0], order[1..];
    assert order == [k] + rest && k in Elements(order) && Elements(rest) <= Elements(order);
    if !Full(p, m[k], now) {
      assert exists l :: l in rest && Full(p, m[l], now);
      if oldestKey == "" || m[k].lastUsed < oldest { ScanTakesFull(p, m, now, rest, k, m[k].lastUsed); }
      else { ScanTakesFull(p, m, now, rest, oldestKey, oldest); }
    }
  }

  /** Every tracked address was last used at a call of `callers` or so long ago that its bucket is full. */
  predicate Accounted(p: Params, m: Entries, now: int, callers: set<string>) {
    forall k :: k in m ==> m[k].bucket.last <= m[k].lastUsed <= now && (k in callers || now - m[k].lastUsed >= Cap(p))
  }

  /** With fewer recent callers than places, room is made by dropping a full bucket. */
  lemma RoomIsFull(p: Params, m: Entries, now: int, order: seq<string>, callers: set<string>)
    requires IsOrder(order, m.Keys) && |m| >= MAX_TRACKED && Accounted(p, m, now, callers) && |callers| < MAX_TRACKED
    ensures var v := Victim(p, m, now, order); v.Some? && v.value in m && Full(p, m[v.value], now)
  {
    if m.Keys <= callers { SubsetSize(m.Keys, callers); }
    var k :| k in m && k !in callers;
    assert k in Elements(order);
    assert Full(p, m[k], now);
    ScanTakesFull(p, m, now, order, "", 0);
  }

  /** The addresses that called within one full refill before `now`. */
  function Recent(p: Params, past: seq<Event>, now: int): set<string> {
    set e | e in past && e.Allow? && now - e.at < Cap(p) :: e.ip
  }

  /** At every call fewer than 10000 addresses have called recently. */
  predicate Light(p: Params, past: seq<Event>, events: seq<Event>)
    decreases events
  {
    events != [] ==>
      && (events[0].Allow? ==> |Recent(p, past, events[0].at)| < MAX_TRACKED)
      && Light(p, past + [events[0]], events[1..])
  }

  /** The stamps in the map are those of past calls. */
  predicate Stamped(m: Entries, past: seq<Event>, now: int) {
    forall k :: k in m ==> m[k].bucket.last <= m[k].lastUsed <= now && CalledAt(past, k, m[k].lastUsed)
  }

  predicate CalledAt(past: seq<Event>, ip: string, at: int) {
    exists e :: e in past && e.Allow? && e.ip == ip && e.at == at
  }

  lemma StampedAccounted(p: Params, m: Entries, past: seq<Event>, now: int, later: int)
    requires Stamped(m, past, now) && now <= later
    ensures Accounted(p, m, later, Recent(p, past, later))
  {
    forall k | k in m && later - m[k].lastUsed < Cap(p) ensures k in Recent(p, past, later) {
      var e :| e in past && e.Allow? && e.ip == k && e.at == m[k].lastUsed;
    }
  }

  lemma StepStamped(p: Params, m: Entries, past: seq<Event>, now: int, e: Event)
    requires Stamped(m, past, now) && (e.Allow? ==> now <= e.at && IsOrder(e.order, m.Keys))
    ensures Stamped(Step(p, m, e), past + [e], if e.Allow? then e.at else now)
  {
    var m' := Step(p, m, e);
    forall k | k in m' ensures CalledAt(past + [e], k, m'[k].lastUsed) {
      if e.Allow? && k == e.ip {
        assert e in past + [e];
      } else {
        var c :| c in past && c.Allow? && c.ip == k && c.at == m[k].lastUsed;
        assert c in past + [e];
      }
    }
  }

  lemma {:induction false} LightDropsOnlyFull(p: Params, past: seq<Event>, m: Entries, now: int, events: seq<Event>)
    requires ValidRun(p, m, now, events) && Light(p, past, events) && Stamped(m, past, now)
    ensures DropsOnlyFull(p, m, now, events)
    decreases events
  {
    if events != [] {
      var e := events[0];
      if e.Allow? && NeedsRoom(m, e.ip) {
        StampedAccounted(p, m, past, now, e.at);
        RoomIsFull(p, m, e.at, e.order, Recent(p, past, e.at));
      }
      StepStamped(p, m, past, now, e);
      LightDropsOnlyFull(p, past + [e], Step(p, m, e), if e.Allow? then e.at else now, events[1..]);
    }
  }

  /** From start-up, while traffic is light, the bounded map answers every call as one eternal bucket per
      address would. */
  lemma LightTrafficRefines(p: Params, now: int, events: seq<Event>)
    requires ValidRun(p, map[], now, events) && Light(p, [], events)
    ensures Answers(p, map[], now, events) == UnboundedAnswers(p, map[], events)
  {
    LightDropsOnlyFull(p, [], map[], now, events);
    BoundedRefinesUnbounded(p, now, events);
  }

  // ----- What holds as long as no call names the address "" ------------------------------

  /** In the run every map is within the bound, and whenever room is made the promised entry goes. */
  predicate Orderly(p: Params, m: Entries, now: int, events: seq<Event>)
    requires ValidRun(p, m, now, events)
    decreases events
  {
    && |m| <= MAX_TRACKED
    && (events != [] ==>
          var e := events[0];
          && (e.Allow? && NeedsRoom(m, e.ip) ==> Proper(p, m, e.at, m.Keys, Victim(p, m, e.at, e.order)))
          && Orderly(p, Step(p, m, e), if e.Allow? then e.at else now, events[1..]))
  }

  lemma StepOrderly(p: Params, m: Entries, e: Event)
    requires "" !in m && |m| <= MAX_TRACKED && (e.Allow? ==> IsOrder(e.order, m.Keys) && e.ip != "")
    ensures "" !in Step(p, m, e) && |Step(p, m, e)| <= MAX_TRACKED
    ensures e.Allow? && NeedsRoom(m, e.ip) ==> Proper(p, m, e.at, m.Keys, Victim(p, m, e.at, e.order))
  {
    match e
    case Allow(ip, at, order) =>
      BoundedIff(p, m, ip, at, order);
      if NeedsRoom(m, ip) { VictimProperIff(p, m, at, order); }
    case Remove(ip) => SubsetSize((m - {ip}).Keys, m.Keys);
  }

  lemma {:induction false} OrderlyRun(p: Params, m: Entries, now: int, events: seq<Event>)
    requires ValidRun(p, m, now, events) && "" !in m && |m| <= MAX_TRACKED
    requires forall i :: 0 <= i < |events| && events[i].Allow? ==> events[i].ip != ""
    ensures Orderly(p, m, now, events)
    decreases events
  {
    if events != [] {
      StepOrderly(p, m, events[0]);
      OrderlyRun(p, Step(p, m, events[0]), if events[0].Allow? then events[0].at else now, events[1..]);
    }
  }

  /** From start-up, in every run in which no call names "". */
  lemma OrderlyFromStart(p: Params, now: int, events: seq<Event>)
    requires ValidRun(p, map[], now, events)
    requires forall i :: 0 <= i < |events| && events[i].Allow? ==> events[i].ip != ""
    ensures Orderly(p, map[], now, events)
  {
    OrderlyRun(p, map[], now, events);
  }

  // ----- The limiter ---------------------------------------------------------------------

  class Limiter {
    const params: Params
    var buckets: Entries

    constructor (p: Params)
      ensures params == p && buckets == map[]
    {
      params, buckets := p, map[];
    }

    /** `order` is the order in which this iteration happens to visit the map. */
    method EvictIdle(now: int, order: seq<string>)
      requires IsOrder(order, buckets.Keys)
      modifies this
      ensures buckets == Drop(old(buckets), Victim(params, old(buckets), now, order))
    {
      var oldestKey, oldest := "", 0;
      assert order[0..] == order;
      for i := 0 to |order|
        invariant buckets == old(buckets)
        invariant Elements(order[i..]) <= buckets.Keys
        invariant Scan(params, buckets, now, order[i..], oldestKey, oldest) == Victim(params, buckets, now, order)
      {
        var k := order[i];
        assert order[i..][0] == k && order[i..][1..] == order[i + 1..];
        assert k in Elements(order[i..]) && Elements(order[i + 1..]) <= Elements(order[i..]);
        if Full(params, buckets[k], now) {
          buckets := buckets - {k};
          return;
        }
        if oldestKey == "" || buckets[k].lastUsed < oldest {
          oldestKey, oldest := k, buckets[k].lastUsed;
        }
      }
      if oldestKey != "" {
        buckets := buckets - {oldestKey};
      }
    }

    method Allow(ip: string, now: int, order: seq<string>) returns (ok: bool)
      requires IsOrder(order, buckets.Keys)
      modifies this
      ensures ok == Admits(params, BucketFor(params, old(buckets), ip, now), now)
      ensures buckets == AllowStep(params, old(buckets), ip, now, order)
    {
      ghost var room := Evicted(params, buckets, ip, now, order);
      ghost var before := BucketFor(params, buckets, ip, now);
      if ip !in buckets {
        if |buckets| >= MAX_TRACKED {
          EvictIdle(now, order);
        }
        assert buckets == room;
        buckets := buckets[ip := Entry(Fresh(params, now), now)];
      }
      var b := buckets[ip].bucket;
      assert b == before;
      ok := Admits(params, b, now);
      buckets := buckets[ip := Entry(Spend(params, b, now), now)];
      assert buckets == room[ip := Entry(Spend(params, before, now), now)];
    }

    method Remove(ip: string)
      modifies this
      ensures buckets == old(buckets) - {ip}
    {
      buckets := buckets - {ip};
    }
  }
}
