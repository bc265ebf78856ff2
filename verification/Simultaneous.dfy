/** Registrations that overlap: each checks the cap in one step and inserts its row in a later one. */
module Simultaneous {
  import opened Wire
  import opened Buckets
  import opened Catalog
  import opened Portal
  import RL = RegisterLimiter
  import Order
  import Import

  /** A registration between the two: what it will insert. */
  datatype Flight = Flight(form: ProbeForm, row: Probe, suffixes: seq<string>)

  datatype World = World(shop: State, flights: map<nat, Flight>)

  /** `after` is any catalog with no probe that was not there. */
  datatype Event = Check(r: nat, a: Attempt) | Insert(r: nat) | Edit(after: Locations)

  predicate Enabled(w: World, e: Event) {
    match e
    case Check(r, a) => r !in w.flights && Order.IsOrder(a.order, w.shop.buckets.Keys)
    case Insert(r) => r in w.flights
    case Edit(after) => after.probes.Keys <= w.shop.catalog.probes.Keys
  }

  predicate Passes(p: Params, maxProbes: nat, s: State, a: Attempt) {
    Charged(s.catalog, a) && Allowed(p, s, a) && |s.catalog.probes| < maxProbes
  }

  function Checked(p: Params, maxProbes: nat, w: World, r: nat, a: Attempt): World
    requires Order.IsOrder(a.order, w.shop.buckets.Keys)
  {
    var s := w.shop;
    World(if Charged(s.catalog, a) then s.(buckets := RL.AllowStep(p, s.buckets, a.ip, a.at, a.order)) else s,
          if Passes(p, maxProbes, s, a)
          then w.flights[r := Flight(Trimmed(a.form), NewRow(s.catalog, a), AtMostFive(a.suffixes))]
          else w.flights)
  }

  function Landed(c: Locations, f: Flight): Locations {
    match Inserted(c, f.form, f.row, f.suffixes)
    case Some(id) => c.(probes := c.probes[id := f.row])
    case None => c
  }

  function Step(p: Params, maxProbes: nat, w: World, e: Event): World
    requires Enabled(w, e)
  {
    match e
    case Check(r, a) => Checked(p, maxProbes, w, r, a)
    case Insert(r) => World(w.shop.(catalog := Landed(w.shop.catalog, w.flights[r])), w.flights - {r})
    case Edit(after) => w.(shop := w.shop.(catalog := after))
  }

  lemma TakenBack(flights: map<nat, Flight>, r: nat, f: Flight)
    requires r !in flights
    ensures flights[r := f] - {r} == flights
  {
  }

  /** The handler as one step is its check followed at once by its insert. */
  lemma OneAtATime(p: Params, maxProbes: nat, w: World, r: nat, a: Attempt)
    requires Enabled(w, Check(r, a))
    ensures var w1 := Step(p, maxProbes, w, Check(r, a));
            if Passes(p, maxProbes, w.shop, a)
            then Enabled(w1, Insert(r)) && Step(p, maxProbes, w1, Insert(r)) == World(Register(p, maxProbes, w.shop, a), w.flights)
            else w1 == World(Register(p, maxProbes, w.shop, a), w.flights)
  {
    if Passes(p, maxProbes, w.shop, a) {
      TakenBack(w.flights, r, Flight(Trimmed(a.form), NewRow(w.shop.catalog, a), AtMostFive(a.suffixes)));
    }
  }

  /** Step `i` leads from world `i` to the next one and leaves at most `k` registrations in flight. */
  predicate Taken(p: Params, maxProbes: nat, k: nat, es: seq<Event>, ws: seq<World>, i: nat)
    requires i < |es| < |ws|
  {
    Enabled(ws[i], es[i]) && ws[i + 1] == Step(p, maxProbes, ws[i], es[i]) && |ws[i + 1].flights| <= k
  }

  /** A run in which at most `k` registrations ever stand between check and insert. */
  predicate IsRun(p: Params, maxProbes: nat, k: nat, es: seq<Event>, ws: seq<World>) {
    && |ws| == |es| + 1 && ws[0].flights == map[]
    && forall i :: 0 <= i < |es| ==> Taken(p, maxProbes, k, es, ws, i)
  }

  function Probes(w: World): nat { |w.shop.catalog.probes| }

  /** An edit stands for any step of an administrator that creates no probe. */
  lemma EditsAreEnabled(w: World, op: Op)
    requires !op.ProbeCreate? && !op.ProbeRegister?
    ensures Enabled(w, Edit(Catalog.Next(w.shop.catalog, op)))
  {
  }

  lemma StepBound(p: Params, maxProbes: nat, k: nat, w: World, e: Event, bound: int)
    requires Enabled(w, e) && |Step(p, maxProbes, w, e).flights| <= k
    requires Probes(w) + |w.flights| <= bound && maxProbes + k - 1 <= bound
    ensures var w' := Step(p, maxProbes, w, e); Probes(w') + |w'.flights| <= bound
  {
    match e
    case Check(r, a) =>
    case Insert(r) => assert w.flights.Keys == (w.flights - {r}).Keys + {r};
    case Edit(after) => Order.SubsetSize(after.probes.Keys, w.shop.catalog.probes.Keys);
  }

  lemma {:induction false} BoundKept(p: Params, maxProbes: nat, k: nat, es: seq<Event>, ws: seq<World>, n: nat, bound: int)
    requires IsRun(p, maxProbes, k, es, ws) && n < |ws|
    requires Probes(ws[0]) <= bound && maxProbes + k - 1 <= bound
    ensures Probes(ws[n]) + |ws[n].flights| <= bound
  {
    if n > 0 {
      BoundKept(p, maxProbes, k, es, ws, n - 1, bound);
      assert Taken(p, maxProbes, k, es, ws, n - 1);
      StepBound(p, maxProbes, k, ws[n - 1], es[n - 1], bound);
    }
  }

  /** With at most `k` in flight the table is never more than `k - 1` over the cap. */
  lemma OvershootBound(p: Params, maxProbes: nat, k: nat, es: seq<Event>, ws: seq<World>, n: nat)
    requires IsRun(p, maxProbes, k, es, ws) && n < |ws| && Probes(ws[0]) < maxProbes + k
    ensures Probes(ws[n]) <= maxProbes - 1 + k
  {
    BoundKept(p, maxProbes, k, es, ws, n, maxProbes + k - 1);
  }

  // ----- Two at once go over -------------------------------------------------------------

  /** A place to register at. */
  datatype Site = Site(form: ProbeForm, campusName: string, room: Import.Building)

  predicate Open(site: Site) {
    && Trimmed(site.form) == site.form && ValidNetwork(site.form.network) && |site.form.description| <= 256
    && Import.ValidCode(site.form.campus) && Import.ValidCode(site.form.building) && site.room.campus == site.form.campus
  }

  function Row(site: Site, who: string, selfRegistered: bool): Probe {
    Probe(who, site.form.campus, site.campusName, site.room.groupCode, site.room.groupName, site.form.building, site.room.name,
          site.form.network, true, site.form.description, selfRegistered)
  }

  function Name(n: nat): string { seq(n, i => 'x') }

  function Fillers(site: Site, n: nat): map<string, Probe> {
    if n == 0 then map[] else Fillers(site, n - 1)[Name(n - 1) := Row(site, Name(n - 1), false)]
  }

  lemma {:induction false} FillersSize(site: Site, n: nat)
    ensures |Fillers(site, n)| == n
    ensures forall k :: k in Fillers(site, n) ==> |k| < n && k == Name(|k|) && Fillers(site, n)[k].tokenHash == k
  {
    if n > 0 {
      FillersSize(site, n - 1);
      assert |Name(n - 1)| == n - 1;
      assert Fillers(site, n).Keys == Fillers(site, n - 1).Keys + {Name(n - 1)};
    }
  }

  /** One room, and `n` probes in it. */
  function Crowded(site: Site, n: nat): Locations {
    Locations(map[site.form.campus := site.campusName], map[site.form.building := site.room], Fillers(site, n))
  }

  function Visitor(site: Site, who: string, order: seq<string>): Attempt { Attempt(site.form, who, [who], who, 0, order) }

  lemma VisitorWelcome(site: Site, n: nat, who: string, order: seq<string>)
    requires Open(site)
    ensures Charged(Crowded(site, n), Visitor(site, who, order))
    ensures NewRow(Crowded(site, n), Visitor(site, who, order)) == Row(site, who, true)
  {
    assert site.form.campus in Crowded(site, n).campuses;
  }

  function FlightOf(site: Site, who: string): Flight { Flight(site.form, Row(site, who, true), [who]) }

  function IDOf(site: Site, who: string): string { ProbeID(site.form, who) }

  lemma VisitorPasses(p: Params, maxProbes: nat, site: Site, w: World, r: nat, n: nat, who: string, order: seq<string>)
    requires Open(site) && w.shop.catalog == Crowded(site, n) && n < maxProbes && who !in w.shop.buckets
    requires Enabled(w, Check(r, Visitor(site, who, order)))
    ensures var w' := Step(p, maxProbes, w, Check(r, Visitor(site, who, order)));
            && w'.shop.catalog == Crowded(site, n) && w'.flights == w.flights[r := FlightOf(site, who)]
            && (|w.shop.buckets| < RL.MAX_TRACKED ==> w'.shop.buckets.Keys == w.shop.buckets.Keys + {who})
  {
    VisitorWelcome(site, n, who, order);
    FillersSize(site, n);
    CapCoversOne(p);
  }

  lemma Lands(c: Locations, site: Site, who: string)
    requires IDOf(site, who) !in c.probes && !TokenTaken(c, who)
    ensures Landed(c, FlightOf(site, who)) == c.(probes := c.probes[IDOf(site, who) := Row(site, who, true)])
  {
    var f := FlightOf(site, who);
    assert ProbeID(f.form, f.suffixes[0]) == IDOf(site, who);
    assert Insertable(c, IDOf(site, who), f.row);
  }

  lemma NotFiller(site: Site, n: nat, who: string)
    requires |who| == 1 && who != "x"
    ensures IDOf(site, who) !in Crowded(site, n).probes && !TokenTaken(Crowded(site, n), who)
  {
    FillersSize(site, n);
    assert IDOf(site, who)[|site.form.campus|] == '-';
    assert Name(1) == "x";
  }

  lemma StillFree(c: Locations, site: Site, one: string, other: string)
    requires IDOf(site, one) != IDOf(site, other) && one != other && IDOf(site, one) !in c.probes
    requires IDOf(site, other) !in c.probes && !TokenTaken(c, other)
    ensures var c1 := c.(probes := c.probes[IDOf(site, one) := Row(site, one, true)]);
            IDOf(site, other) !in c1.probes && !TokenTaken(c1, other) && c1.probes.Keys == c.probes.Keys + {IDOf(site, one)}
  {
  }

  lemma IDsDiffer(site: Site, one: string, other: string)
    requires one != other
    ensures IDOf(site, one) != IDOf(site, other)
  {
    var n := |site.form.campus + "-" + site.form.building + "-"|;
    assert IDOf(site, one)[n..] == one && IDOf(site, other)[n..] == other;
  }

  /** Both inserts find their ID free, since the second visitor has another suffix and token. */
  lemma BothLand(site: Site, n: nat, one: string, other: string)
    requires |one| == |other| == 1 && one != other && one != "x" && other != "x"
    ensures |Landed(Landed(Crowded(site, n), FlightOf(site, one)), FlightOf(site, other)).probes| == n + 2
  {
    var c := Crowded(site, n);
    NotFiller(site, n, one);
    NotFiller(site, n, other);
    Lands(c, site, one);
    IDsDiffer(site, one, other);
    StillFree(c, site, one, other);
    var c1 := Landed(c, FlightOf(site, one));
    Lands(c1, site, other);
    assert Landed(c1, FlightOf(site, other)).probes.Keys == c1.probes.Keys + {IDOf(site, other)};
    FillersSize(site, n);
  }

  function Brink(site: Site, n: nat): World { World(State(Crowded(site, n), map[]), map[]) }

  lemma FirstPasses(p: Params, n: nat, site: Site, one: string) returns (w1: World)
    requires Open(site)
    ensures var w, e := Brink(site, n), Check(0, Visitor(site, one, [])); Enabled(w, e) && w1 == Step(p, n + 1, w, e)
    ensures w1.shop.catalog == Crowded(site, n) && w1.flights == map[0 := FlightOf(site, one)] && w1.shop.buckets.Keys == {one}
  {
    VisitorPasses(p, n + 1, site, Brink(site, n), 0, n, one, []);
    w1 := Step(p, n + 1, Brink(site, n), Check(0, Visitor(site, one, [])));
  }

  lemma SecondPasses(p: Params, n: nat, site: Site, w1: World, one: string, other: string) returns (w2: World)
    requires Open(site) && one != other && w1.shop.catalog == Crowded(site, n)
    requires w1.flights == map[0 := FlightOf(site, one)] && w1.shop.buckets.Keys == {one}
    ensures var e := Check(1, Visitor(site, other, [one])); Enabled(w1, e) && w2 == Step(p, n + 1, w1, e)
    ensures w2.shop.catalog == Crowded(site, n) && w2.flights == map[0 := FlightOf(site, one), 1 := FlightOf(site, other)]
  {
    VisitorPasses(p, n + 1, site, w1, 1, n, other, [one]);
    w2 := Step(p, n + 1, w1, Check(1, Visitor(site, other, [one])));
  }

  lemma InsertsLand(p: Params, maxProbes: nat, w2: World, f: Flight, g: Flight) returns (w3: World, w4: World)
    requires w2.flights == map[0 := f, 1 := g]
    ensures Enabled(w2, Insert(0)) && w3 == Step(p, maxProbes, w2, Insert(0)) && |w3.flights| <= 2
    ensures Enabled(w3, Insert(1)) && w4 == Step(p, maxProbes, w3, Insert(1)) && |w4.flights| <= 2
    ensures w4.shop.catalog == Landed(Landed(w2.shop.catalog, f), g)
  {
    w3 := Step(p, maxProbes, w2, Insert(0));
    assert w3.flights == map[1 := g];
    w4 := Step(p, maxProbes, w3, Insert(1));
    assert w4.flights == map[];
  }

  lemma TakenAt(p: Params, maxProbes: nat, es: seq<Event>, ws: seq<World>, i: nat, w: World, e: Event, w': World)
    requires i < |es| < |ws| && ws[i] == w && es[i] == e && ws[i + 1] == w'
    requires Enabled(w, e) && w' == Step(p, maxProbes, w, e) && |w'.flights| <= 2
    ensures Taken(p, maxProbes, 2, es, ws, i)
  {
  }

  lemma FourTaken(p: Params, maxProbes: nat, es: seq<Event>, ws: seq<World>)
    requires |es| == 4 && |ws| == 5 && ws[0].flights == map[]
    requires Taken(p, maxProbes, 2, es, ws, 0) && Taken(p, maxProbes, 2, es, ws, 1)
    requires Taken(p, maxProbes, 2, es, ws, 2) && Taken(p, maxProbes, 2, es, ws, 3)
    ensures IsRun(p, maxProbes, 2, es, ws)
  {
    forall i | 0 <= i < |es| ensures Taken(p, maxProbes, 2, es, ws, i) { assert i in {0, 1, 2, 3}; }
  }

  predicate Overlap(es: seq<Event>) {
    |es| == 4 && es[0].Check? && es[1].Check? && es[2] == Insert(es[0].r) && es[3] == Insert(es[1].r)
  }

  lemma ChecksThenInserts(p: Params, maxProbes: nat, w: World, w1: World, w2: World, a: Attempt, b: Attempt, f: Flight, g: Flight)
      returns (es: seq<Event>, ws: seq<World>)
    requires w.flights == map[] && Enabled(w, Check(0, a)) && Step(p, maxProbes, w, Check(0, a)) == w1 && |w1.flights| <= 2
    requires Enabled(w1, Check(1, b)) && Step(p, maxProbes, w1, Check(1, b)) == w2 && w2.flights == map[0 := f, 1 := g]
    ensures Overlap(es) && IsRun(p, maxProbes, 2, es, ws) && |ws| == 5
    ensures ws[0] == w && ws[4].shop.catalog == Landed(Landed(w2.shop.catalog, f), g)
  {
    var w3, w4 := InsertsLand(p, maxProbes, w2, f, g);
    es, ws := Assembled(p, maxProbes, w, w1, w2, w3, w4, Check(0, a), Check(1, b), Insert(0), Insert(1));
  }

  lemma Assembled(p: Params, maxProbes: nat, w: World, w1: World, w2: World, w3: World, w4: World,
                  e: Event, e1: Event, e2: Event, e3: Event) returns (es: seq<Event>, ws: seq<World>)
    requires w.flights == map[]
    requires Enabled(w, e) && w1 == Step(p, maxProbes, w, e) && |w1.flights| <= 2
    requires Enabled(w1, e1) && w2 == Step(p, maxProbes, w1, e1) && |w2.flights| <= 2
    requires Enabled(w2, e2) && w3 == Step(p, maxProbes, w2, e2) && |w3.flights| <= 2
    requires Enabled(w3, e3) && w4 == Step(p, maxProbes, w3, e3) && |w4.flights| <= 2
    ensures |es| == 4 && es[0] == e && es[1] == e1 && es[2] == e2 && es[3] == e3
    ensures IsRun(p, maxProbes, 2, es, ws) && |ws| == 5 && ws[0] == w && ws[4] == w4
  {
    es, ws := [e, e1, e2, e3], [w, w1, w2, w3, w4];
    TakenAt(p, maxProbes, es, ws, 0, w, e, w1);
    TakenAt(p, maxProbes, es, ws, 1, w1, e1, w2);
    TakenAt(p, maxProbes, es, ws, 2, w2, e2, w3);
    TakenAt(p, maxProbes, es, ws, 3, w3, e3, w4);
    FourTaken(p, maxProbes, es, ws);
  }

  lemma Overshoot(p: Params, n: nat, site: Site, one: string, other: string) returns (es: seq<Event>, ws: seq<World>)
    requires Open(site) && |one| == |other| == 1 && one != other && one != "x" && other != "x"
    ensures Overlap(es) && IsRun(p, n + 1, 2, es, ws) && |ws| == 5
    ensures Probes(ws[0]) == n && Probes(ws[4]) == n + 2
  {
    var w1 := FirstPasses(p, n, site, one);
    var w2 := SecondPasses(p, n, site, w1, one, other);
    es, ws := ChecksThenInserts(p, n + 1, Brink(site, n), w1, w2, Visitor(site, one, []), Visitor(site, other, [one]),
                                FlightOf(site, one), FlightOf(site, other));
    BothLand(site, n, one, other);
    FillersSize(site, n);
  }

  const HALL := Site(ProbeForm("a", "b", "wired", ""), "A", Import.Building("a", "g", "G", "B"))

  lemma HallOpen()
    ensures Open(HALL)
  {
  }

  /** One below the cap, two visitors check and then both insert: one over the cap. */
  lemma TwoOvershoot(p: Params, maxProbes: nat) returns (es: seq<Event>, ws: seq<World>)
    requires maxProbes > 0
    ensures Overlap(es) && IsRun(p, maxProbes, 2, es, ws) && |ws| == 5
    ensures Probes(ws[0]) == maxProbes - 1 && Probes(ws[4]) == maxProbes + 1
  {
    HallOpen();
    es, ws := Overshoot(p, maxProbes - 1, HALL, "u", "v");
  }

  /** In every run that starts within the cap, with at most `k` in flight, the table stays within it. */
  ghost predicate CapSafe(p: Params, maxProbes: nat, k: nat) {
    forall es: seq<Event>, ws: seq<World>, n: nat ::
      IsRun(p, maxProbes, k, es, ws) && n < |ws| && Probes(ws[0]) <= maxProbes ==> Probes(ws[n]) <= maxProbes
  }

  lemma SomeOvershoot(p: Params, maxProbes: nat, k: nat) returns (es: seq<Event>, ws: seq<World>)
    requires maxProbes > 0 && k >= 2
    ensures IsRun(p, maxProbes, k, es, ws) && |ws| == 5 && Probes(ws[0]) <= maxProbes && Probes(ws[4]) > maxProbes
  {
    es, ws := TwoOvershoot(p, maxProbes);
    forall i | 0 <= i < |es| ensures Taken(p, maxProbes, k, es, ws, i) { assert Taken(p, maxProbes, 2, es, ws, i); }
  }

  /** The cap is one exactly when no two registrations overlap. */
  lemma CapSafeIff(p: Params, maxProbes: nat, k: nat)
    requires maxProbes > 0
    ensures CapSafe(p, maxProbes, k) <==> k <= 1
  {
    if k <= 1 {
      forall es: seq<Event>, ws: seq<World>, n: nat
        | IsRun(p, maxProbes, k, es, ws) && n < |ws| && Probes(ws[0]) <= maxProbes
        ensures Probes(ws[n]) <= maxProbes
      {
        BoundKept(p, maxProbes, k, es, ws, n, maxProbes);
      }
    } else {
      var es, ws := SomeOvershoot(p, maxProbes, k);
    }
  }
}
