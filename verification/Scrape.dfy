/** What a scrape emits for a table of probes and their latest measurements. */
module Scrape {
  import opened Wire
  import opened Order
  import Catalog
  import Latest
  import Validation

  datatype Metric =
    | Online | LastSeen
    | ICMPSuccess | ICMPLoss | ICMPRTT | ICMPRTTMin | ICMPRTTMax | ICMPJitter
    | DNSSuccess | DNSDuration | HTTPSuccess | HTTPDuration | HTTPStatus
    | RegisteredProbes | OnlineProbes

  datatype Series = Series(metric: Metric, labels: seq<string>, value: Float)

  /** What one scrape reads. */
  datatype View = View(probes: map<string, Catalog.Probe>, latest: Latest.Entries, now: int, threshold: int)

  const NS_PER_S := 1_000_000_000

  function Flag(b: bool): Float { Fin(if b then 1.0 else 0.0) }

  function Seconds(ms: Float): (s: Float)
    ensures if ms.Fin? then s.Fin? && s.v * 1000.0 == ms.v else s == ms
  {
    if ms.Fin? then Fin(ms.v / 1000.0) else ms
  }

  function Amount(n: int): Float { Fin(n as real) }

  // ----- One measurement -----------------------------------------------------------------

  function One(metric: Metric, labels: seq<string>, v: Option<Float>): seq<Series> {
    match v case Some(f) => [Series(metric, labels, Seconds(f))] case None => []
  }

  function EmitICMP(m: ICMPResult, labels: seq<string>): seq<Series> {
    [Series(ICMPSuccess, labels, Flag(m.success)), Series(ICMPLoss, labels, m.loss)]
    + One(ICMPRTTMin, labels, m.minRTT) + One(ICMPRTT, labels, m.avgRTT)
    + One(ICMPRTTMax, labels, m.maxRTT) + One(ICMPJitter, labels, m.jitter)
  }

  function EmitDNS(m: DNSResult, labels: seq<string>): seq<Series> {
    [Series(DNSSuccess, labels, Flag(m.success))] + One(DNSDuration, labels, m.duration)
  }

  function EmitHTTP(m: HTTPResult, labels: seq<string>): seq<Series> {
    [Series(HTTPSuccess, labels, Flag(m.success))]
    + (match m.status case Some(code) => [Series(HTTPStatus, labels, Amount(code))] case None => [])
    + One(HTTPDuration, labels, m.duration)
  }

  function EmitMeasurement(t: string, m: Measurement, labels: seq<string>): seq<Series> {
    if t == ICMP then (if m.icmp.Some? then EmitICMP(m.icmp.value, labels) else [])
    else if t == DNS then (if m.dns.Some? then EmitDNS(m.dns.value, labels) else [])
    else if t == HTTP then (if m.http.Some? then EmitHTTP(m.http.value, labels) else [])
    else []
  }

  // ----- Everything, in sorted order -----------------------------------------------------

  function FlatMap(keys: seq<string>, f: string -> seq<Series>): seq<Series> {
    if keys == [] then [] else FlatMap(keys[..|keys| - 1], f) + f(keys[|keys| - 1])
  }

  function EmitType(byType: ByType, labels: seq<string>, t: string): seq<Series> {
    if t in byType then EmitMeasurement(t, byType[t], labels) else []
  }

  function TypeEmitter(byType: ByType, labels: seq<string>): string -> seq<Series> { t => EmitType(byType, labels, t) }

  function EmitTarget(results: Results, ident: seq<string>, target: string): seq<Series> {
    if target in results then
      FlatMap(Ascending(results[target].Keys), TypeEmitter(results[target], ident + [target]))
    else []
  }

  function TargetEmitter(results: Results, ident: seq<string>): string -> seq<Series> { t => EmitTarget(results, ident, t) }

  function EmitMeasurements(results: Results, ident: seq<string>): seq<Series> {
    FlatMap(Ascending(results.Keys), TargetEmitter(results, ident))
  }

  /** The labels only the gateway sets. */
  function Identity(id: string, p: Catalog.Probe): seq<string> { [id, p.campus, p.groupCode, p.building, p.network] }

  predicate Fresh(v: View, id: string) { id in v.latest && v.now - v.latest[id].at <= v.threshold }

  /** Enabled and heard of within the threshold. */
  predicate IsOnline(v: View, id: string) { id in v.probes && v.probes[id].enabled && Fresh(v, id) }

  function EmitProbe(v: View, id: string): seq<Series> {
    if id !in v.probes || !v.probes[id].enabled then []
    else
      var ident := Identity(id, v.probes[id]);
      if id !in v.latest then [Series(Online, ident, Flag(false))]
      else
        [Series(Online, ident, Flag(Fresh(v, id)))]
        + (if Fresh(v, id) then EmitMeasurements(v.latest[id].results, ident) else [])
        + [Series(LastSeen, ident, Amount(v.latest[id].at / NS_PER_S))]
  }

  function ProbeEmitter(v: View): string -> seq<Series> { id => EmitProbe(v, id) }

  function OnlineIn(v: View, ids: seq<string>): set<string> { set id | id in ids && IsOnline(v, id) }

  function Totals(v: View): seq<Series> {
    [Series(RegisteredProbes, [], Amount(|v.probes|)), Series(OnlineProbes, [], Amount(|OnlineIn(v, Ascending(v.probes.Keys))|))]
  }

  function Scraped(v: View): seq<Series> {
    FlatMap(Ascending(v.probes.Keys), ProbeEmitter(v)) + Totals(v)
  }

  // ----- What is emitted, exactly --------------------------------------------------------

  function TypeOf(m: Metric): Option<string> {
    match m
    case ICMPSuccess => Some(ICMP) case ICMPLoss => Some(ICMP) case ICMPRTT => Some(ICMP)
    case ICMPRTTMin => Some(ICMP) case ICMPRTTMax => Some(ICMP) case ICMPJitter => Some(ICMP)
    case DNSSuccess => Some(DNS) case DNSDuration => Some(DNS)
    case HTTPSuccess => Some(HTTP) case HTTPDuration => Some(HTTP) case HTTPStatus => Some(HTTP)
    case _ => None
  }

  /** The labels name an online probe and a target and type it has just measured. */
  predicate Source(v: View, labels: seq<string>, t: string) {
    && |labels| == 6 && IsOnline(v, labels[0])
    && labels == Identity(labels[0], v.probes[labels[0]]) + [labels[5]]
    && labels[5] in v.latest[labels[0]].results && t in v.latest[labels[0]].results[labels[5]]
  }

  function Measured(v: View, labels: seq<string>, t: string): Measurement
    requires Source(v, labels, t)
  {
    v.latest[labels[0]].results[labels[5]][t]
  }

  lemma {:induction false} InFlatMap(keys: seq<string>, f: string -> seq<Series>, s: Series)
    ensures s in FlatMap(keys, f) <==> exists k :: k in keys && s in f(k)
  {
    if keys != [] {
      var pre, k := keys[..|keys| - 1], keys[|keys| - 1];
      assert keys == pre + [k];
      InFlatMap(pre, f, s);
    }
  }

  lemma InAscending(k: string, s: set<string>)
    ensures k in Ascending(s) <==> k in s
  {
    assert k in Ascending(s) <==> k in Elements(Ascending(s));
  }

  lemma OfType(t: string, m: Measurement, labels: seq<string>, s: Series)
    requires s in EmitMeasurement(t, m, labels)
    ensures s.labels == labels && TypeOf(s.metric) == Some(t)
  {
  }

  lemma InTarget(results: Results, ident: seq<string>, target: string, s: Series)
    ensures s in EmitTarget(results, ident, target)
            <==> target in results && s.labels == ident + [target]
                 && exists t :: TypeOf(s.metric) == Some(t) && t in results[target] && s in EmitMeasurement(t, results[target][t], s.labels)
  {
    if target in results {
      var byType, labels := results[target], ident + [target];
      var keys, f := Ascending(byType.Keys), TypeEmitter(byType, labels);
      InFlatMap(keys, f, s);
      forall t ensures t in keys <==> t in byType { InAscending(t, byType.Keys); }
      forall t | t in byType && s in f(t) ensures s.labels == labels && TypeOf(s.metric) == Some(t) {
        OfType(t, byType[t], labels, s);
      }
    }
  }

  lemma InMeasurements(results: Results, ident: seq<string>, s: Series)
    ensures s in EmitMeasurements(results, ident)
            <==> exists target :: target in results && s in EmitTarget(results, ident, target)
  {
    InFlatMap(Ascending(results.Keys), TargetEmitter(results, ident), s);
    forall t ensures t in Ascending(results.Keys) <==> t in results { InAscending(t, results.Keys); }
  }

  lemma InScrape(v: View, s: Series)
    ensures s in Scraped(v) <==> s in Totals(v) || exists id :: id in v.probes && s in EmitProbe(v, id)
  {
    InFlatMap(Ascending(v.probes.Keys), ProbeEmitter(v), s);
    forall id ensures id in Ascending(v.probes.Keys) <==> id in v.probes { InAscending(id, v.probes.Keys); }
  }

  lemma InProbe(v: View, id: string, s: Series)
    requires TypeOf(s.metric) != None
    ensures s in EmitProbe(v, id) <==>
              IsOnline(v, id) && s in EmitMeasurements(v.latest[id].results, Identity(id, v.probes[id]))
  {
  }

  /** A measurement series is emitted exactly when its labels name a source that yields it. */
  lemma MeasurementSeries(v: View, s: Series, t: string)
    requires TypeOf(s.metric) == Some(t)
    ensures s in Scraped(v) <==> Source(v, s.labels, t) && s in EmitMeasurement(t, Measured(v, s.labels, t), s.labels)
  {
    InScrape(v, s);
    forall id ensures id in v.probes && s in EmitProbe(v, id) <==> EmittedFor(v, id, s, t) { SeriesOfProbe(v, id, s, t); }
    if Source(v, s.labels, t) && s in EmitMeasurement(t, Measured(v, s.labels, t), s.labels) {
      assert EmittedFor(v, s.labels[0], s, t);
    }
    if id :| EmittedFor(v, id, s, t) {
      assert s.labels[0] == id;
    }
  }

  predicate EmittedFor(v: View, id: string, s: Series, t: string) {
    Source(v, s.labels, t) && s.labels[0] == id && s in EmitMeasurement(t, Measured(v, s.labels, t), s.labels)
  }

  lemma InTargetOf(results: Results, ident: seq<string>, target: string, s: Series, t: string)
    requires TypeOf(s.metric) == Some(t)
    ensures s in EmitTarget(results, ident, target)
            <==> target in results && s.labels == ident + [target] && t in results[target]
                 && s in EmitMeasurement(t, results[target][t], s.labels)
  {
    InTarget(results, ident, target, s);
  }

  lemma SeriesOfProbe(v: View, id: string, s: Series, t: string)
    requires TypeOf(s.metric) == Some(t)
    ensures id in v.probes && s in EmitProbe(v, id) <==> EmittedFor(v, id, s, t)
  {
    InProbe(v, id, s);
    if IsOnline(v, id) {
      var results, ident := v.latest[id].results, Identity(id, v.probes[id]);
      InMeasurements(results, ident, s);
      if EmittedFor(v, id, s, t) { InTargetOf(results, ident, s.labels[5], s, t); }
      if target :| target in results && s in EmitTarget(results, ident, target) { FromTarget(v, id, target, s, t); }
    }
  }

  lemma FromTarget(v: View, id: string, target: string, s: Series, t: string)
    requires TypeOf(s.metric) == Some(t) && IsOnline(v, id)
    requires s in EmitTarget(v.latest[id].results, Identity(id, v.probes[id]), target)
    ensures EmittedFor(v, id, s, t)
  {
    InTargetOf(v.latest[id].results, Identity(id, v.probes[id]), target, s, t);
    assert s.labels[0] == id && s.labels[5] == target;
  }

  // ----- No series twice -----------------------------------------------------------------

  predicate SameName(s: Series, u: Series) { s.metric == u.metric && s.labels == u.labels }

  predicate NoRepeat(out: seq<Series>) { forall i, j :: 0 <= i < j < |out| ==> !SameName(out[i], out[j]) }

  predicate Apart(a: seq<Series>, b: seq<Series>) {
    forall i, j :: 0 <= i < |a| && 0 <= j < |b| ==> !SameName(a[i], b[j])
  }

  lemma NoRepeatConcat(a: seq<Series>, b: seq<Series>)
    requires NoRepeat(a) && NoRepeat(b) && Apart(a, b)
    ensures NoRepeat(a + b)
  {
  }

  predicate Distinct(keys: seq<string>) { forall i, j :: 0 <= i < j < |keys| ==> keys[i] != keys[j] }

  lemma AscendingDistinct(s: set<string>)
    ensures Distinct(Ascending(s))
  {
    var r := Ascending(s);
    forall i, j | 0 <= i < j < |r| ensures r[i] != r[j] { LessIrreflexive(r[i]); }
  }

  lemma {:induction false} NoRepeatFlatMap(keys: seq<string>, f: string -> seq<Series>)
    requires Distinct(keys) && (forall k :: NoRepeat(f(k))) && forall k, l :: k != l ==> Apart(f(k), f(l))
    ensures NoRepeat(FlatMap(keys, f))
  {
    if keys != [] {
      var pre, k := keys[..|keys| - 1], keys[|keys| - 1];
      NoRepeatFlatMap(pre, f);
      var out := FlatMap(pre, f);
      forall i, j | 0 <= i < |out| && 0 <= j < |f(k)| ensures !SameName(out[i], f(k)[j]) {
        InFlatMap(pre, f, out[i]);
        var l :| l in pre && out[i] in f(l);
        var n :| 0 <= n < |f(l)| && f(l)[n] == out[i];
        assert Apart(f(l), f(k));
      }
      NoRepeatConcat(out, f(k));
    }
  }

  predicate Lacks(a: seq<Series>, metric: Metric) { forall i :: 0 <= i < |a| ==> a[i].metric != metric }

  lemma NoRepeatOne(a: seq<Series>, metric: Metric, labels: seq<string>, v: Option<Float>)
    requires NoRepeat(a) && Lacks(a, metric)
    ensures NoRepeat(a + One(metric, labels, v))
    ensures forall m :: m != metric && Lacks(a, m) ==> Lacks(a + One(metric, labels, v), m)
  {
  }

  lemma NoRepeatICMP(m: ICMPResult, labels: seq<string>)
    ensures NoRepeat(EmitICMP(m, labels))
  {
    var a := [Series(ICMPSuccess, labels, Flag(m.success)), Series(ICMPLoss, labels, m.loss)];
    NoRepeatOne(a, ICMPRTTMin, labels, m.minRTT);
    var b := a + One(ICMPRTTMin, labels, m.minRTT);
    NoRepeatOne(b, ICMPRTT, labels, m.avgRTT);
    var c := b + One(ICMPRTT, labels, m.avgRTT);
    NoRepeatOne(c, ICMPRTTMax, labels, m.maxRTT);
    NoRepeatOne(c + One(ICMPRTTMax, labels, m.maxRTT), ICMPJitter, labels, m.jitter);
  }

  lemma NoRepeatMeasurement(t: string, m: Measurement, labels: seq<string>)
    ensures NoRepeat(EmitMeasurement(t, m, labels))
  {
    if t == ICMP && m.icmp.Some? { NoRepeatICMP(m.icmp.value, labels); }
  }

  lemma NoRepeatTarget(results: Results, ident: seq<string>, target: string)
    ensures NoRepeat(EmitTarget(results, ident, target))
  {
    if target in results {
      var byType, labels := results[target], ident + [target];
      var f := TypeEmitter(byType, labels);
      forall t ensures NoRepeat(f(t)) { if t in byType { NoRepeatMeasurement(t, byType[t], labels); } }
      forall t, u | t != u ensures Apart(f(t), f(u)) { TypesApart(byType, labels, t, u); }
      AscendingDistinct(byType.Keys);
      NoRepeatFlatMap(Ascending(byType.Keys), f);
    }
  }

  lemma TypesApart(byType: ByType, labels: seq<string>, t: string, u: string)
    requires t != u
    ensures Apart(EmitType(byType, labels, t), EmitType(byType, labels, u))
  {
    var a, b := EmitType(byType, labels, t), EmitType(byType, labels, u);
    forall i, j | 0 <= i < |a| && 0 <= j < |b| ensures !SameName(a[i], b[j]) {
      OfType(t, byType[t], labels, a[i]);
      OfType(u, byType[u], labels, b[j]);
    }
  }

  lemma NoRepeatMeasurements(results: Results, ident: seq<string>)
    ensures NoRepeat(EmitMeasurements(results, ident))
  {
    var f := TargetEmitter(results, ident);
    forall t ensures NoRepeat(f(t)) { NoRepeatTarget(results, ident, t); }
    forall t, u | t != u ensures Apart(f(t), f(u)) { TargetsApart(results, ident, t, u); }
    AscendingDistinct(results.Keys);
    NoRepeatFlatMap(Ascending(results.Keys), f);
  }

  lemma TargetsApart(results: Results, ident: seq<string>, t: string, u: string)
    requires t != u
    ensures Apart(EmitTarget(results, ident, t), EmitTarget(results, ident, u))
  {
    var a, b := EmitTarget(results, ident, t), EmitTarget(results, ident, u);
    forall i, j | 0 <= i < |a| && 0 <= j < |b| ensures !SameName(a[i], b[j]) {
      InTarget(results, ident, t, a[i]);
      InTarget(results, ident, u, b[j]);
      assert (ident + [t])[|ident|] != (ident + [u])[|ident|];
    }
  }

  /** Every series of a probe carries its ID first; measurement series carry a target as well. */
  lemma ProbeLabels(v: View, id: string, s: Series)
    requires s in EmitProbe(v, id)
    ensures id in v.probes && |s.labels| >= 5 && s.labels[..5] == Identity(id, v.probes[id])
    ensures TypeOf(s.metric) == None ==> s.metric == Online || s.metric == LastSeen
  {
    var ident := Identity(id, v.probes[id]);
    if id in v.latest && s in EmitMeasurements(v.latest[id].results, ident) {
      MeasurementLabels(v.latest[id].results, ident, s);
    }
  }

  lemma MeasurementLabels(results: Results, ident: seq<string>, s: Series)
    requires s in EmitMeasurements(results, ident)
    ensures TypeOf(s.metric) != None && |s.labels| == |ident| + 1 && s.labels[..|ident|] == ident
  {
    InMeasurements(results, ident, s);
    var target :| target in results && s in EmitTarget(results, ident, target);
    InTarget(results, ident, target, s);
  }

  lemma NoRepeatAround(first: Series, body: seq<Series>, last: Series)
    requires NoRepeat(body) && first.metric == Online && last.metric == LastSeen
    requires forall s :: s in body ==> TypeOf(s.metric) != None
    ensures NoRepeat([first] + body + [last])
  {
    NoRepeatConcat([first], body);
    NoRepeatConcat([first] + body, [last]);
  }

  lemma NoRepeatProbe(v: View, id: string)
    ensures NoRepeat(EmitProbe(v, id))
  {
    if id in v.probes && v.probes[id].enabled && id in v.latest {
      var ident := Identity(id, v.probes[id]);
      var body := if Fresh(v, id) then EmitMeasurements(v.latest[id].results, ident) else [];
      NoRepeatMeasurements(v.latest[id].results, ident);
      forall s | s in body ensures TypeOf(s.metric) != None { MeasurementLabels(v.latest[id].results, ident, s); }
      NoRepeatAround(Series(Online, ident, Flag(Fresh(v, id))), body, Series(LastSeen, ident, Amount(v.latest[id].at / NS_PER_S)));
    }
  }

  lemma ProbesApart(v: View, k: string, l: string)
    requires k != l
    ensures Apart(EmitProbe(v, k), EmitProbe(v, l))
  {
    var a, b := EmitProbe(v, k), EmitProbe(v, l);
    forall i, j | 0 <= i < |a| && 0 <= j < |b| ensures !SameName(a[i], b[j]) {
      ProbeLabels(v, k, a[i]);
      ProbeLabels(v, l, b[j]);
      assert a[i].labels[..5][0] == k && b[j].labels[..5][0] == l;
    }
  }

  /** No metric name and label values occur twice in one scrape, whatever it reads. */
  lemma NoSeriesTwice(v: View)
    ensures NoRepeat(Scraped(v))
  {
    var f, keys := ProbeEmitter(v), Ascending(v.probes.Keys);
    forall k ensures NoRepeat(f(k)) { NoRepeatProbe(v, k); }
    forall k, l | k != l ensures Apart(f(k), f(l)) { ProbesApart(v, k, l); }
    AscendingDistinct(v.probes.Keys);
    NoRepeatFlatMap(keys, f);
    var out := FlatMap(keys, f);
    forall i | 0 <= i < |out| ensures |out[i].labels| > 0 {
      InFlatMap(keys, f, out[i]);
      var id :| id in keys && out[i] in f(id);
      ProbeLabels(v, id, out[i]);
    }
    NoRepeatConcat(out, Totals(v));
  }

  /** The labels of every series about a probe: which label is which. */
  lemma LabelsNameTheProbe(v: View, s: Series)
    requires s in Scraped(v) && s.labels != []
    ensures |s.labels| >= 5 && s.labels[0] in v.probes
    ensures var p := v.probes[s.labels[0]];
            s.labels[1] == p.campus && s.labels[2] == p.groupCode && s.labels[3] == p.building && s.labels[4] == p.network
  {
    InScrape(v, s);
    var id :| id in v.probes && s in EmitProbe(v, id);
    ProbeLabels(v, id, s);
    FirstFive(s.labels, id, v.probes[id]);
  }

  lemma FirstFive(l: seq<string>, id: string, p: Catalog.Probe)
    requires |l| >= 5 && l[..5] == Identity(id, p)
    ensures l[0] == id && l[1] == p.campus && l[2] == p.groupCode && l[3] == p.building && l[4] == p.network
  {
    var five := l[..5];
    assert five[0] == l[0] && five[1] == l[1] && five[2] == l[2] && five[3] == l[3] && five[4] == l[4];
  }

  // ----- Coherence -----------------------------------------------------------------------

  predicate On(out: seq<Series>, metric: Metric, labels: seq<string>, value: Float) { Series(metric, labels, value) in out }

  predicate Emits(out: seq<Series>, metric: Metric, labels: seq<string>) {
    exists s :: s in out && s.metric == metric && s.labels == labels
  }

  predicate InOrder(a: Float, b: Float, c: Float) { a.Fin? && b.Fin? && c.Fin? && 0.0 <= a.v <= b.v <= c.v }

  ghost predicate RTTOrdered(out: seq<Series>, l: seq<string>) {
    forall a, b, c :: On(out, ICMPRTTMin, l, a) && On(out, ICMPRTT, l, b) && On(out, ICMPRTTMax, l, c) ==>
      InOrder(a, b, c)
  }

  predicate RTTExactlyOnSuccess(out: seq<Series>, l: seq<string>) {
    var up := On(out, ICMPSuccess, l, Fin(1.0));
    && (Emits(out, ICMPRTTMin, l) <==> up) && (Emits(out, ICMPRTT, l) <==> up) && (Emits(out, ICMPRTTMax, l) <==> up)
    && (Emits(out, ICMPJitter, l) ==> up)
  }

  ghost predicate LossCoherent(out: seq<Series>, l: seq<string>) {
    forall f :: On(out, ICMPLoss, l, f) ==>
      && f.Fin? && 0.0 <= f.v <= 1.0
      && (On(out, ICMPSuccess, l, Fin(1.0)) ==> Validation.Abs(f.v - 1.0) > Validation.TOTAL_LOSS_TOLERANCE)
  }

  ghost predicate JitterCoherent(out: seq<Series>, l: seq<string>) {
    forall f :: On(out, ICMPJitter, l, f) ==> f.Fin? && f.v >= 0.0
  }

  ghost predicate ICMPCoherent(out: seq<Series>, l: seq<string>) {
    RTTOrdered(out, l) && RTTExactlyOnSuccess(out, l) && LossCoherent(out, l) && JitterCoherent(out, l)
  }

  ghost predicate DNSCoherent(out: seq<Series>, l: seq<string>) {
    && (Emits(out, DNSDuration, l) <==> On(out, DNSSuccess, l, Fin(1.0)))
    && (forall f :: On(out, DNSDuration, l, f) ==> f.Fin? && f.v >= 0.0)
  }

  ghost predicate HTTPCoherent(out: seq<Series>, l: seq<string>) {
    && (On(out, HTTPSuccess, l, Fin(1.0)) <==> exists code: int :: 200 <= code < 400 && On(out, HTTPStatus, l, Amount(code)))
    && (Emits(out, HTTPDuration, l) <==> Emits(out, HTTPStatus, l))
    && (forall f :: On(out, HTTPStatus, l, f) ==> f.Fin? && 100.0 <= f.v <= 599.0)
    && (forall f :: On(out, HTTPDuration, l, f) ==> f.Fin? && f.v >= 0.0)
  }

  ghost predicate Coherent(out: seq<Series>) {
    forall l: seq<string> :: ICMPCoherent(out, l) && DNSCoherent(out, l) && HTTPCoherent(out, l)
  }

  /** Everything in memory is well formed. */
  predicate Sound(latest: Latest.Entries) {
    forall id :: id in latest ==> SoundResults(latest[id].results)
  }

  predicate SoundResults(results: Results) {
    forall t :: t in results ==> SoundTypes(results[t])
  }

  predicate SoundTypes(byType: ByType) {
    forall pt :: pt in byType ==> Validation.WellFormed(pt, byType[pt])
  }

  function ICMPField(m: ICMPResult, metric: Metric): Option<Float> {
    match metric
    case ICMPSuccess => Some(Flag(m.success))
    case ICMPLoss => Some(m.loss)
    case ICMPRTTMin => InSeconds(m.minRTT)
    case ICMPRTT => InSeconds(m.avgRTT)
    case ICMPRTTMax => InSeconds(m.maxRTT)
    case ICMPJitter => InSeconds(m.jitter)
    case _ => None
  }

  function InSeconds(v: Option<Float>): Option<Float> { match v case Some(f) => Some(Seconds(f)) case None => None }

  lemma ICMPHas(m: ICMPResult, l: seq<string>, metric: Metric, f: Float)
    ensures On(EmitICMP(m, l), metric, l, f) <==> ICMPField(m, metric) == Some(f)
  {
  }

  /** A DNS measurement brings its success, and its duration if it has one. */
  lemma DNSHas(m: DNSResult, l: seq<string>, metric: Metric, f: Float)
    ensures On(EmitDNS(m, l), metric, l, f) <==>
              (metric == DNSSuccess && f == Fin(if m.success then 1.0 else 0.0))
              || (metric == DNSDuration && InSeconds(m.duration) == Some(f))
  {
  }

  /** An HTTP measurement brings its success, and its status and its duration if it has them. */
  lemma HTTPHas(m: HTTPResult, l: seq<string>, metric: Metric, f: Float)
    ensures On(EmitHTTP(m, l), metric, l, f) <==>
              (metric == HTTPSuccess && f == Fin(if m.success then 1.0 else 0.0))
              || (metric == HTTPStatus && m.status.Some? && f == Fin(m.status.value as real))
              || (metric == HTTPDuration && InSeconds(m.duration) == Some(f))
  {
  }

  lemma ICMPEmits(m: ICMPResult, l: seq<string>, metric: Metric)
    ensures Emits(EmitICMP(m, l), metric, l) <==> ICMPField(m, metric).Some?
  {
    var out := EmitICMP(m, l);
    if ICMPField(m, metric).Some? {
      ICMPHas(m, l, metric, ICMPField(m, metric).value);
      assert Series(metric, l, ICMPField(m, metric).value) in out;
    }
    if s :| s in out && s.metric == metric && s.labels == l { assert On(out, metric, l, s.value); ICMPHas(m, l, metric, s.value); }
  }

  lemma ICMPEmission(m: ICMPResult, l: seq<string>)
    requires Validation.WellFormedICMP(m)
    ensures ICMPCoherent(EmitICMP(m, l), l)
  {
    RTTEmission(m, l);
    JitterEmission(m, l);
    ExactlyOnSuccess(m, l);
    LossEmission(m, l);
  }

  lemma JitterEmission(m: ICMPResult, l: seq<string>)
    requires Validation.WellFormedReplies(m)
    ensures JitterCoherent(EmitICMP(m, l), l)
  {
    forall f | On(EmitICMP(m, l), ICMPJitter, l, f) ensures f.Fin? && f.v >= 0.0 { ICMPHas(m, l, ICMPJitter, f); }
  }

  lemma ExactlyOnSuccess(m: ICMPResult, l: seq<string>)
    requires Validation.WellFormedReplies(m)
    ensures RTTExactlyOnSuccess(EmitICMP(m, l), l)
  {
    ICMPHas(m, l, ICMPSuccess, Fin(1.0));
    ICMPEmits(m, l, ICMPRTTMin);
    ICMPEmits(m, l, ICMPRTT);
    ICMPEmits(m, l, ICMPRTTMax);
    ICMPEmits(m, l, ICMPJitter);
  }

  lemma SecondsMonotone(a: real, b: real)
    requires a <= b
    ensures a / 1000.0 <= b / 1000.0
  {
  }

  /** `out` carries the fields of `m` and nothing else. */
  ghost predicate Carries(out: seq<Series>, m: ICMPResult, l: seq<string>) {
    forall metric, f :: On(out, metric, l, f) <==> ICMPField(m, metric) == Some(f)
  }

  lemma RTTEmission(m: ICMPResult, l: seq<string>)
    requires Validation.WellFormedReplies(m)
    ensures RTTOrdered(EmitICMP(m, l), l)
  {
    forall metric, f ensures On(EmitICMP(m, l), metric, l, f) <==> ICMPField(m, metric) == Some(f) { ICMPHas(m, l, metric, f); }
    RTTFromFields(EmitICMP(m, l), m, l);
  }

  lemma RTTFromFields(out: seq<Series>, m: ICMPResult, l: seq<string>)
    requires Carries(out, m, l) && Validation.WellFormedReplies(m)
    ensures RTTOrdered(out, l)
  {
    forall a, b, c | On(out, ICMPRTTMin, l, a) && On(out, ICMPRTT, l, b) && On(out, ICMPRTTMax, l, c)
      ensures InOrder(a, b, c)
    {
      FieldsOrdered(m, a, b, c);
    }
  }

  lemma FieldsOrdered(m: ICMPResult, a: Float, b: Float, c: Float)
    requires Validation.WellFormedReplies(m)
    requires ICMPField(m, ICMPRTTMin) == Some(a) && ICMPField(m, ICMPRTT) == Some(b) && ICMPField(m, ICMPRTTMax) == Some(c)
    ensures InOrder(a, b, c)
  {
    SecondsMonotone(0.0, m.minRTT.value.v);
    SecondsMonotone(m.minRTT.value.v, m.avgRTT.value.v);
    SecondsMonotone(m.avgRTT.value.v, m.maxRTT.value.v);
  }

  lemma LossEmission(m: ICMPResult, l: seq<string>)
    requires Validation.WellFormedLoss(m) && (m.success <==> m.received != 0)
    ensures LossCoherent(EmitICMP(m, l), l)
  {
    forall f | On(EmitICMP(m, l), ICMPLoss, l, f)
      ensures f == m.loss
    {
      ICMPHas(m, l, ICMPLoss, f);
    }
    ICMPHas(m, l, ICMPSuccess, Fin(1.0));
  }

  lemma DNSEmission(m: DNSResult, l: seq<string>)
    requires Validation.WellFormedDNS(m)
    ensures DNSCoherent(EmitDNS(m, l), l)
  {
    assert m.success ==> Series(DNSDuration, l, Seconds(m.duration.value)) in EmitDNS(m, l);
    assert Series(DNSSuccess, l, Flag(m.success)) in EmitDNS(m, l);
  }

  lemma HTTPEmission(m: HTTPResult, l: seq<string>)
    requires Validation.WellFormedHTTP(m)
    ensures HTTPCoherent(EmitHTTP(m, l), l)
  {
    var out := EmitHTTP(m, l);
    assert m.status.Some? ==> Series(HTTPStatus, l, Amount(m.status.value)) in out && Series(HTTPDuration, l, Seconds(m.duration.value)) in out;
    assert Series(HTTPSuccess, l, Flag(m.success)) in out;
  }

  /** Two outputs agree on the series of one type and one set of labels. */
  ghost predicate Agree(a: seq<Series>, b: seq<Series>, l: seq<string>, t: string) {
    forall s: Series :: TypeOf(s.metric) == Some(t) && s.labels == l ==> (s in a <==> s in b)
  }

  lemma AgreeEmits(a: seq<Series>, b: seq<Series>, l: seq<string>, t: string, m: Metric)
    requires Agree(a, b, l, t) && TypeOf(m) == Some(t)
    ensures Emits(a, m, l) <==> Emits(b, m, l)
    ensures forall f :: On(a, m, l, f) <==> On(b, m, l, f)
  {
  }

  lemma ICMPTransfer(a: seq<Series>, b: seq<Series>, l: seq<string>)
    requires Agree(a, b, l, ICMP) && ICMPCoherent(b, l)
    ensures ICMPCoherent(a, l)
  {
    RTTTransfer(a, b, l);
    AgreeEmits(a, b, l, ICMP, ICMPRTTMin);
    AgreeEmits(a, b, l, ICMP, ICMPRTT);
    AgreeEmits(a, b, l, ICMP, ICMPRTTMax);
    AgreeEmits(a, b, l, ICMP, ICMPJitter);
    AgreeEmits(a, b, l, ICMP, ICMPSuccess);
    AgreeEmits(a, b, l, ICMP, ICMPLoss);
    assert LossCoherent(a, l);
    assert JitterCoherent(a, l);
  }

  lemma RTTTransfer(a: seq<Series>, b: seq<Series>, l: seq<string>)
    requires Agree(a, b, l, ICMP) && RTTOrdered(b, l)
    ensures RTTOrdered(a, l)
  {
    forall x, y, z | On(a, ICMPRTTMin, l, x) && On(a, ICMPRTT, l, y) && On(a, ICMPRTTMax, l, z)
      ensures InOrder(x, y, z)
    {
      assert On(b, ICMPRTTMin, l, x) && On(b, ICMPRTT, l, y) && On(b, ICMPRTTMax, l, z);
    }
  }

  lemma DNSTransfer(a: seq<Series>, b: seq<Series>, l: seq<string>)
    requires Agree(a, b, l, DNS) && DNSCoherent(b, l)
    ensures DNSCoherent(a, l)
  {
    AgreeEmits(a, b, l, DNS, DNSSuccess);
    AgreeEmits(a, b, l, DNS, DNSDuration);
  }

  lemma HTTPTransfer(a: seq<Series>, b: seq<Series>, l: seq<string>)
    requires Agree(a, b, l, HTTP) && HTTPCoherent(b, l)
    ensures HTTPCoherent(a, l)
  {
    AgreeEmits(a, b, l, HTTP, HTTPSuccess);
    AgreeEmits(a, b, l, HTTP, HTTPStatus);
    AgreeEmits(a, b, l, HTTP, HTTPDuration);
  }

  /** What a scrape emits of one type under one set of labels: one measurement, or nothing. */
  function Emission(v: View, l: seq<string>, t: string): seq<Series> {
    if Source(v, l, t) then EmitMeasurement(t, Measured(v, l, t), l) else []
  }

  lemma AgreesWithEmission(v: View, l: seq<string>, t: string)
    ensures Agree(Scraped(v), Emission(v, l, t), l, t)
  {
    forall s: Series | TypeOf(s.metric) == Some(t) && s.labels == l ensures s in Scraped(v) <==> s in Emission(v, l, t) {
      MeasurementSeries(v, s, t);
    }
  }

  lemma SoundSource(v: View, l: seq<string>, t: string)
    requires Sound(v.latest) && Source(v, l, t)
    ensures Validation.WellFormed(t, Measured(v, l, t))
  {
    assert SoundResults(v.latest[l[0]].results);
    assert SoundTypes(v.latest[l[0]].results[l[5]]);
  }

  /** Well-formed measurements in memory are all a coherent scrape needs. */
  lemma SoundIsCoherent(v: View)
    requires Sound(v.latest)
    ensures Coherent(Scraped(v))
  {
    forall l: seq<string>
      ensures ICMPCoherent(Scraped(v), l) && DNSCoherent(Scraped(v), l) && HTTPCoherent(Scraped(v), l)
    {
      ICMPAt(v, l);
      DNSAt(v, l);
      HTTPAt(v, l);
    }
  }

  lemma ICMPAt(v: View, l: seq<string>)
    requires Sound(v.latest)
    ensures ICMPCoherent(Scraped(v), l)
  {
    AgreesWithEmission(v, l, ICMP);
    if Source(v, l, ICMP) {
      SoundSource(v, l, ICMP);
      ICMPEmission(Measured(v, l, ICMP).icmp.value, l);
    }
    ICMPTransfer(Scraped(v), Emission(v, l, ICMP), l);
  }

  lemma DNSAt(v: View, l: seq<string>)
    requires Sound(v.latest)
    ensures DNSCoherent(Scraped(v), l)
  {
    AgreesWithEmission(v, l, DNS);
    if Source(v, l, DNS) {
      SoundSource(v, l, DNS);
      DNSEmission(Measured(v, l, DNS).dns.value, l);
    }
    DNSTransfer(Scraped(v), Emission(v, l, DNS), l);
  }

  lemma HTTPAt(v: View, l: seq<string>)
    requires Sound(v.latest)
    ensures HTTPCoherent(Scraped(v), l)
  {
    AgreesWithEmission(v, l, HTTP);
    if Source(v, l, HTTP) {
      SoundSource(v, l, HTTP);
      HTTPEmission(Measured(v, l, HTTP).http.value, l);
    }
    HTTPTransfer(Scraped(v), Emission(v, l, HTTP), l);
  }

  // ----- The collector -------------------------------------------------------------------

  lemma OneKeyMore(keys: seq<string>, i: nat, f: string -> seq<Series>)
    requires i < |keys|
    ensures FlatMap(keys[..i + 1], f) == FlatMap(keys[..i], f) + f(keys[i])
  {
    assert keys[..i + 1][..i] == keys[..i];
  }

  method CollectMeasurements(results: Results, ident: seq<string>, visits: Validation.Visits) returns (out: seq<Series>)
    requires Validation.VisitsOf(visits, results)
    ensures out == EmitMeasurements(results, ident)
  {
    out := [];
    var targets := Validation.SortedKeys(visits.targets, results.Keys);
    for i := 0 to |targets|
      invariant out == FlatMap(targets[..i], TargetEmitter(results, ident))
    {
      var target := targets[i];
      InAscending(target, results.Keys);
      OneKeyMore(targets, i, TargetEmitter(results, ident));
      assert Validation.VisitsAt(visits, results, target);
      var one := CollectTarget(results, ident, target, visits.types[target]);
      out := out + one;
    }
    assert targets[..|targets|] == targets;
  }

  method CollectTarget(results: Results, ident: seq<string>, target: string, order: seq<string>) returns (out: seq<Series>)
    requires target in results && IsOrder(order, results[target].Keys)
    ensures out == EmitTarget(results, ident, target)
  {
    out := [];
    var byType, labels := results[target], ident + [target];
    var types := Validation.SortedKeys(order, byType.Keys);
    for i := 0 to |types|
      invariant out == FlatMap(types[..i], TypeEmitter(byType, labels))
    {
      InAscending(types[i], byType.Keys);
      OneKeyMore(types, i, TypeEmitter(byType, labels));
      out := out + EmitMeasurement(types[i], byType[types[i]], labels);
    }
    assert types[..|types|] == types;
  }

  lemma OneProbeMore(v: View, ids: seq<string>, i: nat)
    requires Distinct(ids) && i < |ids|
    ensures FlatMap(ids[..i + 1], ProbeEmitter(v)) == FlatMap(ids[..i], ProbeEmitter(v)) + EmitProbe(v, ids[i])
    ensures |OnlineIn(v, ids[..i + 1])| == |OnlineIn(v, ids[..i])| + if IsOnline(v, ids[i]) then 1 else 0
  {
    OneKeyMore(ids, i, ProbeEmitter(v));
    OneOnlineMore(v, ids, i);
  }

  lemma OneOnlineMore(v: View, ids: seq<string>, i: nat)
    requires Distinct(ids) && i < |ids|
    ensures |OnlineIn(v, ids[..i + 1])| == |OnlineIn(v, ids[..i])| + if IsOnline(v, ids[i]) then 1 else 0
  {
    assert ids[..i + 1] == ids[..i] + [ids[i]];
    assert ids[i] !in OnlineIn(v, ids[..i]);
    assert OnlineIn(v, ids[..i + 1]) == OnlineIn(v, ids[..i]) + if IsOnline(v, ids[i]) then {ids[i]} else {};
  }

  /** The orders in which each probe's results are visited. */
  predicate VisitsAll(visits: map<string, Validation.Visits>, latest: Latest.Entries) {
    forall id :: id in latest ==> id in visits && Validation.VisitsOf(visits[id], latest[id].results)
  }

  /** One scrape: the probes in order, then the two totals counted on the way. */
  method Collect(store: Catalog.Store, latest: Latest.Store, now: int, threshold: int, visits: map<string, Validation.Visits>)
    returns (out: seq<Series>)
    requires VisitsAll(visits, latest.entries)
    ensures out == Scraped(View(store.probes, latest.entries, now, threshold))
  {
    ghost var v := View(store.probes, latest.entries, now, threshold);
    out := [];
    var ids := Ascending(store.probes.Keys);
    AscendingDistinct(store.probes.Keys);
    Validation.AscendingLength(store.probes.Keys);
    var registered, online := 0, 0;
    for i := 0 to |ids|
      invariant out == FlatMap(ids[..i], ProbeEmitter(v))
      invariant registered == i && online == |OnlineIn(v, ids[..i])|
    {
      var id := ids[i];
      InAscending(id, store.probes.Keys);
      OneProbeMore(v, ids, i);
      registered := registered + 1;
      var one, isOnline := CollectProbe(store, latest, id, now, threshold, visits);
      out := out + one;
      if isOnline {
        online := online + 1;
      }
    }
    assert ids[..|ids|] == ids;
    out := out + [Series(RegisteredProbes, [], Amount(registered)), Series(OnlineProbes, [], Amount(online))];
  }

  method CollectProbe(store: Catalog.Store, latest: Latest.Store, id: string, now: int, threshold: int,
                      visits: map<string, Validation.Visits>) returns (out: seq<Series>, online: bool)
    requires id in store.probes && VisitsAll(visits, latest.entries)
    ensures var v := View(store.probes, latest.entries, now, threshold);
            out == EmitProbe(v, id) && online == IsOnline(v, id)
  {
    var p := store.probes[id];
    if !p.enabled {
      return [], false;
    }
    var ident := Identity(id, p);
    var e := latest.Get(id);
    if e == None {
      return [Series(Online, ident, Flag(false))], false;
    }
    online := now - e.value.at <= threshold;
    out := [Series(Online, ident, Flag(online))];
    if online {
      var body := CollectMeasurements(e.value.results, ident, visits[id]);
      out := out + body;
    }
    out := out + [Series(LastSeen, ident, Amount(e.value.at / NS_PER_S))];
  }
}
