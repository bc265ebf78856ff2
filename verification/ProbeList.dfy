/** The administrator's probe list, which works out for itself which probes are online. */
module ProbeList {
  import opened Wire
  import opened Order
  import opened Scrape
  import Catalog
  import Latest
  import Validation

  const ALL := "all"
  const ONLINE := "online"
  const OFFLINE := "offline"
  const DISABLED := "disabled"

  /** What a row shows: online, and when last heard of. */
  function OnlineState(v: View, id: string): (bool, Option<int>) {
    if id !in v.probes || !v.probes[id].enabled then (false, None)
    else if id !in v.latest then (false, None)
    else (v.now - v.latest[id].at <= v.threshold, Some(v.latest[id].at))
  }

  predicate MatchesFilter(filter: string, enabled: bool, online: bool) {
    if filter == DISABLED then !enabled
    else if filter == ONLINE then enabled && online
    else if filter == OFFLINE then enabled && !online
    else true
  }

  predicate Matches(v: View, filter: string, id: string) {
    id in v.probes && MatchesFilter(filter, v.probes[id].enabled, OnlineState(v, id).0)
  }

  function Matching(v: View, filter: string): set<string> { set id | id in v.probes && Matches(v, filter, id) }

  function MatchingIn(v: View, filter: string, ids: seq<string>): set<string> { set id | id in ids && Matches(v, filter, id) }

  function CountOf(counts: map<string, nat>, filter: string): nat { if filter in counts then counts[filter] else 0 }

  const COUNTED := [DISABLED, ONLINE, OFFLINE]

  /** The counts of the filters over the rows seen so far. */
  predicate Tallied(v: View, counts: map<string, nat>, seen: seq<string>) {
    forall f :: f in COUNTED ==> CountOf(counts, f) == |MatchingIn(v, f, seen)|
  }

  /** One pass over the probes, counting each under every filter it matches. */
  method CountProbeFilters(store: Catalog.Store, latest: Latest.Store, now: int, threshold: int) returns (counts: map<string, nat>)
    ensures var v := View(store.probes, latest.entries, now, threshold);
            CountOf(counts, ALL) == |Matching(v, ALL)| && forall f :: f in COUNTED ==> CountOf(counts, f) == |Matching(v, f)|
  {
    var v := View(store.probes, latest.entries, now, threshold);
    var ids := Ascending(v.probes.Keys);
    AscendingDistinct(v.probes.Keys);
    Validation.AscendingLength(v.probes.Keys);
    counts := map[ALL := |ids|];
    for i := 0 to |ids|
      invariant CountOf(counts, ALL) == |ids| && Tallied(v, counts, ids[..i])
    {
      InAscending(ids[i], v.probes.Keys);
      counts := CountRow(v, counts, ids, i);
    }
    AllTallied(v, counts);
  }

  method CountRow(v: View, before: map<string, nat>, ids: seq<string>, i: nat) returns (counts: map<string, nat>)
    requires Distinct(ids) && i < |ids| && ids[i] in v.probes && Tallied(v, before, ids[..i])
    ensures CountOf(counts, ALL) == CountOf(before, ALL) && Tallied(v, counts, ids[..i + 1])
  {
    counts := Tally(before, v.probes[ids[i]].enabled, OnlineState(v, ids[i]).0);
    OneRowMore(v, before, counts, ids, i);
  }

  lemma OneRowMore(v: View, before: map<string, nat>, counts: map<string, nat>, ids: seq<string>, i: nat)
    requires Distinct(ids) && i < |ids| && Tallied(v, before, ids[..i])
    requires forall f :: f in COUNTED ==> CountOf(counts, f) == CountOf(before, f) + if Matches(v, f, ids[i]) then 1 else 0
    ensures Tallied(v, counts, ids[..i + 1])
  {
    forall f | f in COUNTED ensures CountOf(counts, f) == |MatchingIn(v, f, ids[..i + 1])| { OneMatchMore(v, f, ids, i); }
  }

  lemma AllTallied(v: View, counts: map<string, nat>)
    requires var ids := Ascending(v.probes.Keys); Tallied(v, counts, ids[..|ids|])
    ensures forall f :: f in COUNTED ==> CountOf(counts, f) == |Matching(v, f)|
    ensures Matching(v, ALL) == v.probes.Keys
  {
    forall f | f in COUNTED ensures CountOf(counts, f) == |Matching(v, f)| { AllMatches(v, f); }
  }

  /** The inner loop: one row, every counted filter. */
  method Tally(before: map<string, nat>, enabled: bool, online: bool) returns (counts: map<string, nat>)
    ensures CountOf(counts, ALL) == CountOf(before, ALL)
    ensures forall f :: f in COUNTED ==> CountOf(counts, f) == CountOf(before, f) + if MatchesFilter(f, enabled, online) then 1 else 0
  {
    counts := before;
    for k := 0 to |COUNTED|
      invariant CountOf(counts, ALL) == CountOf(before, ALL)
      invariant forall j :: 0 <= j < |COUNTED| ==>
        CountOf(counts, COUNTED[j]) == CountOf(before, COUNTED[j]) + if j < k && MatchesFilter(COUNTED[j], enabled, online) then 1 else 0
    {
      var f := COUNTED[k];
      assert forall j :: 0 <= j < |COUNTED| && j != k ==> COUNTED[j] != f;
      if MatchesFilter(f, enabled, online) {
        counts := counts[f := CountOf(counts, f) + 1];
      }
    }
  }

  lemma OneMatchMore(v: View, f: string, ids: seq<string>, i: nat)
    requires Distinct(ids) && i < |ids|
    ensures |MatchingIn(v, f, ids[..i + 1])| == |MatchingIn(v, f, ids[..i])| + if Matches(v, f, ids[i]) then 1 else 0
  {
    assert ids[..i + 1] == ids[..i] + [ids[i]];
    assert ids[i] !in MatchingIn(v, f, ids[..i]);
    assert MatchingIn(v, f, ids[..i + 1]) == MatchingIn(v, f, ids[..i]) + if Matches(v, f, ids[i]) then {ids[i]} else {};
  }

  lemma AllMatches(v: View, f: string)
    ensures var ids := Ascending(v.probes.Keys); MatchingIn(v, f, ids[..|ids|]) == Matching(v, f)
  {
    var ids := Ascending(v.probes.Keys);
    assert ids[..|ids|] == ids;
    forall id ensures id in ids <==> id in v.probes { InAscending(id, v.probes.Keys); }
  }

  // ----- The page and the metrics never disagree -----------------------------------------

  lemma Partition(v: View)
    ensures |Matching(v, ALL)| == |Matching(v, DISABLED)| + |Matching(v, ONLINE)| + |Matching(v, OFFLINE)|
  {
    var d, on, off := Matching(v, DISABLED), Matching(v, ONLINE), Matching(v, OFFLINE);
    assert d !! on && (d + on) !! off;
    assert Matching(v, ALL) == d + on + off;
  }

  /** The two totals of a scrape are the page's counts, and the counts partition the probes. */
  lemma TotalsAreCounts(v: View, f: Float)
    ensures On(Scraped(v), RegisteredProbes, [], f) <==> f == Amount(|Matching(v, ALL)|)
    ensures On(Scraped(v), OnlineProbes, [], f) <==> f == Amount(|Matching(v, ONLINE)|)
    ensures |Matching(v, ALL)| == |Matching(v, DISABLED)| + |Matching(v, ONLINE)| + |Matching(v, OFFLINE)|
  {
    Partition(v);
    assert Matching(v, ALL) == v.probes.Keys;
    OnlineCounted(v);
    TotalSeries(v, Series(RegisteredProbes, [], f));
    TotalSeries(v, Series(OnlineProbes, [], f));
  }

  lemma OnlineCounted(v: View)
    ensures OnlineIn(v, Ascending(v.probes.Keys)) == Matching(v, ONLINE)
  {
    forall id ensures id in Ascending(v.probes.Keys) <==> id in v.probes { InAscending(id, v.probes.Keys); }
  }

  lemma TotalSeries(v: View, s: Series)
    requires s.labels == []
    ensures s in Scraped(v) <==> s in Totals(v)
  {
    InScrape(v, s);
    if id :| id in v.probes && s in EmitProbe(v, id) { ProbeLabels(v, id, s); }
  }

  /** Row by row: the scrape says online 1 or 0 exactly as the page does, and says nothing of a
      disabled probe. */
  lemma RowsAgree(v: View, id: string, f: Float)
    requires id in v.probes
    ensures On(Scraped(v), Online, Identity(id, v.probes[id]), f) <==>
              (f == Flag(true) && Matches(v, ONLINE, id)) || (f == Flag(false) && Matches(v, OFFLINE, id))
  {
    var l := Identity(id, v.probes[id]);
    StatusScraped(v, id, Series(Online, l, f));
    assert v.probes[id].enabled ==>
      (Series(Online, l, f) in Status(v, id) <==> f == Flag(OnlineState(v, id).0));
  }

  /** Online means enabled and heard of within the threshold, and nothing else is online. */
  lemma OnlineIff(v: View, id: string)
    requires id in v.probes
    ensures On(Scraped(v), Online, Identity(id, v.probes[id]), Fin(1.0)) <==>
              v.probes[id].enabled && id in v.latest && v.now - v.latest[id].at <= v.threshold
    ensures On(Scraped(v), Online, Identity(id, v.probes[id]), Fin(0.0)) <==>
              v.probes[id].enabled && !(id in v.latest && v.now - v.latest[id].at <= v.threshold)
  {
    RowsAgree(v, id, Fin(1.0));
    RowsAgree(v, id, Fin(0.0));
  }

  /** And a last contact is shown exactly when the scrape carries it, to the second. */
  lemma LastContactAgrees(v: View, id: string, f: Float)
    requires id in v.probes
    ensures On(Scraped(v), LastSeen, Identity(id, v.probes[id]), f) <==>
              OnlineState(v, id).1.Some? && f == Amount(OnlineState(v, id).1.value / NS_PER_S)
  {
    StatusScraped(v, id, Series(LastSeen, Identity(id, v.probes[id]), f));
  }

  lemma StatusScraped(v: View, id: string, s: Series)
    requires id in v.probes && s.labels == Identity(id, v.probes[id]) && TypeOf(s.metric) == None
    ensures s in Scraped(v) <==> s in Status(v, id)
  {
    OwnSeries(v, id, s);
    StatusSeries(v, id, s);
  }

  /** The series about the probe itself. */
  function Status(v: View, id: string): seq<Series>
    requires id in v.probes
  {
    var l := Identity(id, v.probes[id]);
    if !v.probes[id].enabled then []
    else if id !in v.latest then [Series(Online, l, Flag(false))]
    else [Series(Online, l, Flag(Fresh(v, id))), Series(LastSeen, l, Amount(v.latest[id].at / NS_PER_S))]
  }

  lemma StatusSeries(v: View, id: string, s: Series)
    requires id in v.probes && TypeOf(s.metric) == None
    ensures s in EmitProbe(v, id) <==> s in Status(v, id)
  {
    var ident := Identity(id, v.probes[id]);
    if id in v.latest && s in EmitMeasurements(v.latest[id].results, ident) {
      MeasurementLabels(v.latest[id].results, ident, s);
    }
  }

  lemma OwnSeries(v: View, id: string, s: Series)
    requires id in v.probes && s.labels == Identity(id, v.probes[id])
    ensures s in Scraped(v) <==> s in EmitProbe(v, id)
  {
    InScrape(v, s);
    forall k | k in v.probes && s in EmitProbe(v, k) ensures k == id {
      ProbeLabels(v, k, s);
      assert s.labels[..5][0] == k;
    }
  }
}
