/** Campuses, buildings and probes: three tables held together by the handlers' checks only,
    since the probes table carries no foreign key. */
module Catalog {
  import opened Wire
  import opened Text
  import opened Import
  import TargetStore

  datatype Probe = Probe(
    tokenHash: string, campus: string, campusName: string, groupCode: string, groupName: string,
    building: string, buildingName: string, network: string, enabled: bool, description: string, selfRegistered: bool)

  datatype Locations = Locations(campuses: map<string, string>, buildings: Buildings, probes: map<string, Probe>)

  type StoreError = TargetStore.StoreError

  predicate ForeignKey(c: Locations) { forall b :: b in c.buildings ==> c.buildings[b].campus in c.campuses }

  predicate Placed(c: Locations) {
    forall p :: p in c.probes ==> c.probes[p].building in c.buildings
                                  && c.buildings[c.probes[p].building].campus == c.probes[p].campus
  }

  predicate TokensDistinct(c: Locations) {
    forall p, q :: p in c.probes && q in c.probes && c.probes[p].tokenHash == c.probes[q].tokenHash ==> p == q
  }

  /** Every building's campus exists; every probe's building exists and lies in the probe's own
      campus; no two probes share a token. */
  predicate Inv(c: Locations) { ForeignKey(c) && Placed(c) && TokensDistinct(c) }

  /** Every code a building or a probe names exists. */
  predicate Covered(c: Locations) {
    ForeignKey(c) && forall p :: p in c.probes ==> c.probes[p].campus in c.campuses && c.probes[p].building in c.buildings
  }

  lemma PlacedIsCovered(c: Locations)
    requires Inv(c)
    ensures Covered(c)
  {
    forall p | p in c.probes ensures c.probes[p].campus in c.campuses { assert c.probes[p].building in c.buildings; }
  }

  const EMPTY := Locations(map[], map[], map[])

  // ----- Deleting ------------------------------------------------------------------------

  /** A probe that names the campus, or one of its buildings, keeps it. */
  predicate CampusInUse(c: Locations, code: string) {
    exists p :: p in c.probes &&
      (c.probes[p].campus == code ||
       (c.probes[p].building in c.buildings && c.buildings[c.probes[p].building].campus == code))
  }

  predicate BuildingInUse(c: Locations, code: string) { exists p :: p in c.probes && c.probes[p].building == code }

  function WithoutCampus(c: Locations, code: string): Locations {
    c.(campuses := c.campuses - {code}, buildings := map b | b in c.buildings && c.buildings[b].campus != code :: c.buildings[b])
  }

  function CampusDeleted(c: Locations, code: string): Locations {
    if CampusInUse(c, code) || code !in c.campuses then c else WithoutCampus(c, code)
  }

  function BuildingDeleted(c: Locations, code: string): Locations {
    if BuildingInUse(c, code) then c else c.(buildings := c.buildings - {code})
  }

  // ----- Creating probes -----------------------------------------------------------------

  const MAX_ATTEMPTS: nat := 5

  datatype ProbeForm = ProbeForm(campus: string, building: string, network: string, description: string)

  function Trimmed(f: ProbeForm): ProbeForm {
    ProbeForm(TrimSpace(f.campus), TrimSpace(f.building), TrimSpace(f.network), TrimSpace(f.description))
  }

  predicate ValidNetwork(n: string) { n == "wired" || n == "wireless" }

  /** Both codes exist and agree. */
  predicate Located(c: Locations, campus: string, building: string) {
    ValidCode(campus) && ValidCode(building) && campus in c.campuses && building in c.buildings
    && c.buildings[building].campus == campus
  }

  predicate Acceptable(c: Locations, f: ProbeForm) {
    Located(c, f.campus, f.building) && |f.description| <= 256 && ValidNetwork(f.network)
  }

  function NewProbe(c: Locations, f: ProbeForm, tokenHash: string, selfRegistered: bool): Probe
    requires Located(c, f.campus, f.building)
  {
    var b := c.buildings[f.building];
    Probe(tokenHash, f.campus, c.campuses[f.campus], b.groupCode, b.groupName, f.building, b.name, f.network, true,
          f.description, selfRegistered)
  }

  function ProbeID(f: ProbeForm, suffix: string): string { f.campus + "-" + f.building + "-" + suffix }

  predicate TokenTaken(c: Locations, tokenHash: string) { exists p :: p in c.probes && c.probes[p].tokenHash == tokenHash }

  /** Both columns are UNIQUE. */
  predicate Insertable(c: Locations, id: string, p: Probe) { id !in c.probes && !TokenTaken(c, p.tokenHash) }

  /** The first of at most five random suffixes whose ID is free. */
  function Inserted(c: Locations, f: ProbeForm, p: Probe, suffixes: seq<string>): (r: Option<string>)
    ensures r.Some? ==> Insertable(c, r.value, p) && exists s :: s in suffixes && r.value == ProbeID(f, s)
    ensures r == None ==> forall s :: s in suffixes ==> !Insertable(c, ProbeID(f, s), p)
    decreases suffixes
  {
    if suffixes == [] then None
    else if Insertable(c, ProbeID(f, suffixes[0]), p) then Some(ProbeID(f, suffixes[0]))
    else
      assert suffixes == [suffixes[0]] + suffixes[1..];
      Inserted(c, f, p, suffixes[1..])
  }

  function AtMostFive(suffixes: seq<string>): seq<string> {
    if |suffixes| <= MAX_ATTEMPTS then suffixes else suffixes[..MAX_ATTEMPTS]
  }

  function CreateProbe(c: Locations, f: ProbeForm, tokenHash: string, suffixes: seq<string>, selfRegistered: bool): Locations {
    if !Acceptable(c, f) then c
    else
      var p := NewProbe(c, f, tokenHash, selfRegistered);
      match Inserted(c, f, p, AtMostFive(suffixes))
      case Some(id) => c.(probes := c.probes[id := p])
      case None => c
  }

  // ----- Handlers, one atomic step each --------------------------------------------------

  datatype Op =
    | CampusCreate(code: string, name: string)
    | CampusRename(code: string, name: string)
    | CampusDelete(code: string)
    | BuildingCreate(code: string, campus: string, groupCode: string, groupName: string, name: string)
    | BuildingUpdate(code: string, groupCode: string, groupName: string, name: string)
    | BuildingDelete(code: string)
    | BuildingImport(campus: string, text: string, groupCode: string, groupName: string)
    | ProbeCreate(form: ProbeForm, tokenHash: string, suffixes: seq<string>)
    | ProbeRegister(form: ProbeForm, tokenHash: string, suffixes: seq<string>, allowed: bool, maxProbes: nat)
    | ProbeToggle(id: string)
    | ProbeRotate(id: string, tokenHash: string)
    | ProbeDelete(id: string)
    | Restart(pick: set<string> -> string)

  function CampusCreated(c: Locations, code: string, name: string): Locations {
    if ValidCode(code) && ValidName(name) && code !in c.campuses then c.(campuses := c.campuses[code := name]) else c
  }

  function CampusRenamed(c: Locations, code: string, name: string): Locations {
    if ValidCode(code) && ValidName(name) && code in c.campuses then c.(campuses := c.campuses[code := name]) else c
  }

  /** The create form lets an empty building code through; everything else must be a valid code. */
  function CreateBuilding(c: Locations, code: string, b: Building): Locations {
    if (code == "" || ValidCode(code)) && b.campus in c.campuses && b.campus != ""
       && ValidGroup(b.groupCode, b.groupName, b.name) && code !in c.buildings
    then c.(buildings := c.buildings[code := b])
    else c
  }

  function UpdateBuilding(c: Locations, code: string, groupCode: string, groupName: string, name: string): Locations {
    if code in c.buildings && c.buildings[code].campus in c.campuses && c.buildings[code].campus != ""
       && ValidGroup(groupCode, groupName, name)
    then c.(buildings := c.buildings[code := Building(c.buildings[code].campus, groupCode, groupName, name)])
    else c
  }

  function ImportText(c: Locations, campus: string, text: string, groupCode: string, groupName: string): Locations {
    if campus == "" || campus !in c.campuses then c
    else c.(buildings := Applied(c.buildings, campus, Parse(text, groupCode, groupName)))
  }

  function Rotate(c: Locations, id: string, tokenHash: string): Locations {
    if id !in c.probes || (TokenTaken(c, tokenHash) && c.probes[id].tokenHash != tokenHash) then c
    else c.(probes := c.probes[id := c.probes[id].(tokenHash := tokenHash)])
  }

  function Toggle(c: Locations, id: string): Locations {
    if id !in c.probes then c else c.(probes := c.probes[id := c.probes[id].(enabled := !c.probes[id].enabled)])
  }

  function Next(c: Locations, op: Op): Locations {
    match op
    case CampusCreate(code, name) => CampusCreated(c, TrimSpace(code), TrimSpace(name))
    case CampusRename(code, name) => CampusRenamed(c, code, TrimSpace(name))
    case CampusDelete(code) => CampusDeleted(c, code)
    case BuildingCreate(code, campus, groupCode, groupName, name) =>
      CreateBuilding(c, TrimSpace(code), Building(TrimSpace(campus), TrimSpace(groupCode), TrimSpace(groupName), TrimSpace(name)))
    case BuildingUpdate(code, groupCode, groupName, name) =>
      UpdateBuilding(c, code, TrimSpace(groupCode), TrimSpace(groupName), TrimSpace(name))
    case BuildingDelete(code) => BuildingDeleted(c, code)
    case BuildingImport(campus, text, groupCode, groupName) =>
      ImportText(c, TrimSpace(campus), text, TrimSpace(groupCode), TrimSpace(groupName))
    case ProbeCreate(form, tokenHash, suffixes) => CreateProbe(c, Trimmed(form), tokenHash, suffixes, false)
    case ProbeRegister(form, tokenHash, suffixes, allowed, maxProbes) =>
      if allowed && |c.probes| < maxProbes then CreateProbe(c, Trimmed(form), tokenHash, suffixes, true) else c
    case ProbeToggle(id) => Toggle(c, id)
    case ProbeRotate(id, tokenHash) => Rotate(c, id, tokenHash)
    case ProbeDelete(id) => c.(probes := c.probes - {id})
    case Restart(pick) => Backfilled(c, pick)
  }

  // ----- Start-up: the catalog of a database that predates it ----------------------------

  function Campuses(c: Locations): set<string> { set p | p in c.probes :: c.probes[p].campus }

  function ProbesAt(c: Locations, campus: string): set<string> { set p | p in c.probes && c.probes[p].campus == campus }

  function ProbesIn(c: Locations, building: string): set<string> { set p | p in c.probes && c.probes[p].building == building }

  /** `pick` is the row SQLite returns for a group. */
  ghost predicate Picks(pick: set<string> -> string) { forall s: set<string> :: s != {} ==> pick(s) in s }

  function At(c: Locations, id: string): Probe {
    if id in c.probes then c.probes[id] else Probe("", "", "", "", "", "", "", "", false, "", false)
  }

  /** Acts only while no campus exists; inserts what is not there yet. */
  function Backfilled(c: Locations, pick: set<string> -> string): Locations {
    if c.campuses != map[] then c
    else
      var names := map p | p in c.probes :: c.probes[p].campus;
      var codes := map p | p in c.probes :: c.probes[p].building;
      Locations(
        map k | k in names.Values :: At(c, pick(ProbesAt(c, k))).campusName,
        (map b | b in codes.Values :: BuildingFrom(At(c, pick(ProbesIn(c, b))))) + c.buildings,
        c.probes)
  }

  function BuildingFrom(p: Probe): Building { Building(p.campus, p.groupCode, p.groupName, p.buildingName) }

  /** On a legacy database every code a probe names exists afterwards, and buildings have campuses. */
  lemma BackfillCovers(c: Locations, pick: set<string> -> string)
    requires Picks(pick) && c.campuses == map[] && ForeignKey(c)
    ensures var d := Backfilled(c, pick);
            ForeignKey(d) && d.probes == c.probes
            && forall p :: p in d.probes ==> d.probes[p].campus in d.campuses && d.probes[p].building in d.buildings
  {
    var d := Backfilled(c, pick);
    forall p | p in c.probes ensures c.probes[p].campus in d.campuses && c.probes[p].building in d.buildings {
      var names := map q | q in c.probes :: c.probes[q].campus;
      var codes := map q | q in c.probes :: c.probes[q].building;
      assert names[p] in names.Values && codes[p] in codes.Values;
    }
    forall b | b in d.buildings ensures d.buildings[b].campus in d.campuses {
      assert b !in c.buildings;
      PickedFrom(c, pick, b);
      var q := pick(ProbesIn(c, b));
      var names := map q | q in c.probes :: c.probes[q].campus;
      assert names[q] in names.Values;
    }
  }

  lemma PickedFrom(c: Locations, pick: set<string> -> string, b: string)
    requires Picks(pick) && c.campuses == map[] && b !in c.buildings && b in Backfilled(c, pick).buildings
    ensures pick(ProbesIn(c, b)) in c.probes && c.probes[pick(ProbesIn(c, b))].building == b
  {
    var codes := map q | q in c.probes :: c.probes[q].building;
    assert b in codes.Values;
    var q :| q in codes && codes[q] == b;
    assert q in ProbesIn(c, b);
  }

  /** No building code is used in two campuses. */
  predicate BuildingsNotShared(c: Locations) {
    forall p, q :: p in c.probes && q in c.probes && c.probes[p].building == c.probes[q].building ==>
      c.probes[p].campus == c.probes[q].campus
  }

  /** Whichever rows SQLite returns, the backfilled catalog satisfies the invariant exactly when no
      building code was used in two campuses. */
  lemma BackfillConsistentIff(c: Locations, pick: set<string> -> string)
    requires Picks(pick) && c.campuses == map[] && c.buildings == map[] && TokensDistinct(c)
    ensures Inv(Backfilled(c, pick)) <==> BuildingsNotShared(c)
  {
    PlacedIff(c, pick);
    RestHolds(c, pick);
  }

  lemma RestHolds(c: Locations, pick: set<string> -> string)
    requires Picks(pick) && c.campuses == map[] && c.buildings == map[] && TokensDistinct(c)
    ensures ForeignKey(Backfilled(c, pick)) && TokensDistinct(Backfilled(c, pick))
  {
    BackfillCovers(c, pick);
  }

  lemma PlacedIff(c: Locations, pick: set<string> -> string)
    requires Picks(pick) && c.campuses == map[] && c.buildings == map[]
    ensures Placed(Backfilled(c, pick)) <==> BuildingsNotShared(c)
  {
    if BuildingsNotShared(c) { NotSharedPlaced(c, pick); }
    if Placed(Backfilled(c, pick)) {
      BackfillCovers(c, pick);
      PlacedNotShared(c, Backfilled(c, pick));
    }
  }

  lemma NotSharedPlaced(c: Locations, pick: set<string> -> string)
    requires Picks(pick) && c.campuses == map[] && c.buildings == map[] && BuildingsNotShared(c)
    ensures Placed(Backfilled(c, pick))
  {
    var d := Backfilled(c, pick);
    forall p | p in d.probes
      ensures d.probes[p].building in d.buildings && d.buildings[d.probes[p].building].campus == d.probes[p].campus
    {
      BackfilledBuilding(c, pick, p);
    }
  }

  lemma PlacedNotShared(c: Locations, d: Locations)
    requires Placed(d) && d.probes == c.probes
    ensures BuildingsNotShared(c)
  {
    forall p, q | p in c.probes && q in c.probes && c.probes[p].building == c.probes[q].building
      ensures c.probes[p].campus == c.probes[q].campus
    {
      assert d.buildings[d.probes[p].building].campus == d.probes[p].campus;
      assert d.buildings[d.probes[q].building].campus == d.probes[q].campus;
    }
  }

  lemma BackfilledBuilding(c: Locations, pick: set<string> -> string, p: string)
    requires Picks(pick) && c.campuses == map[] && c.buildings == map[] && p in c.probes
    ensures var b, q := c.probes[p].building, pick(ProbesIn(c, c.probes[p].building));
            q in c.probes && c.probes[q].building == b && b in Backfilled(c, pick).buildings
            && Backfilled(c, pick).buildings[b].campus == c.probes[q].campus
  {
    BackfillCovers(c, pick);
    PickedFrom(c, pick, c.probes[p].building);
  }

  /** Once every code exists, a restart finds nothing to do. */
  lemma BackfillIdle(c: Locations, pick: set<string> -> string)
    requires Covered(c)
    ensures Backfilled(c, pick) == c
  {
    if c.campuses == map[] {
      assert forall b :: b !in c.buildings;
      assert forall p :: p !in c.probes;
    }
  }

  // ----- The invariant -------------------------------------------------------------------

  lemma DeletesKeepInv(c: Locations, code: string)
    requires Inv(c)
    ensures Inv(CampusDeleted(c, code)) && Inv(BuildingDeleted(c, code))
  {
  }

  lemma {:induction false} AppliedKeepsRows(b: Buildings, campus: string, lines: seq<Line>)
    ensures forall k :: k in Applied(b, campus, lines) ==>
              if k in b then Applied(b, campus, lines)[k] == b[k] else Applied(b, campus, lines)[k].campus == campus
    ensures b.Keys <= Applied(b, campus, lines).Keys
  {
    if lines != [] { AppliedKeepsRows(b, campus, lines[..|lines| - 1]); }
  }

  lemma CreateKeepsInv(c: Locations, f: ProbeForm, tokenHash: string, suffixes: seq<string>, selfRegistered: bool)
    requires Inv(c)
    ensures Inv(CreateProbe(c, f, tokenHash, suffixes, selfRegistered))
  {
  }

  lemma CampusEditsKeepInv(c: Locations, code: string, name: string)
    requires Inv(c)
    ensures Inv(CampusCreated(c, code, name)) && Inv(CampusRenamed(c, code, name))
  {
  }

  lemma BuildingEditsKeepInv(c: Locations, code: string, b: Building)
    requires Inv(c)
    ensures Inv(CreateBuilding(c, code, b)) && Inv(UpdateBuilding(c, code, b.groupCode, b.groupName, b.name))
  {
  }

  lemma ImportKeepsInv(c: Locations, campus: string, text: string, groupCode: string, groupName: string)
    requires Inv(c)
    ensures Inv(ImportText(c, campus, text, groupCode, groupName))
  {
    AppliedKeepsRows(c.buildings, campus, Parse(text, groupCode, groupName));
  }

  lemma ProbeEditsKeepInv(c: Locations, id: string, tokenHash: string)
    requires Inv(c)
    ensures Inv(Toggle(c, id)) && Inv(Rotate(c, id, tokenHash)) && Inv(c.(probes := c.probes - {id}))
  {
  }

  lemma NextKeepsInv(c: Locations, op: Op)
    requires Inv(c)
    ensures Inv(Next(c, op))
  {
    match op
    case CampusCreate(code, name) => CampusEditsKeepInv(c, TrimSpace(code), TrimSpace(name));
    case CampusRename(code, name) => CampusEditsKeepInv(c, code, TrimSpace(name));
    case CampusDelete(code) => DeletesKeepInv(c, code);
    case BuildingCreate(code, campus, groupCode, groupName, name) =>
      BuildingEditsKeepInv(c, TrimSpace(code), Building(TrimSpace(campus), TrimSpace(groupCode), TrimSpace(groupName), TrimSpace(name)));
    case BuildingUpdate(code, groupCode, groupName, name) =>
      BuildingEditsKeepInv(c, code, Building("", TrimSpace(groupCode), TrimSpace(groupName), TrimSpace(name)));
    case BuildingDelete(code) => DeletesKeepInv(c, code);
    case BuildingImport(campus, text, groupCode, groupName) =>
      ImportKeepsInv(c, TrimSpace(campus), text, TrimSpace(groupCode), TrimSpace(groupName));
    case ProbeCreate(form, tokenHash, suffixes) => CreateKeepsInv(c, Trimmed(form), tokenHash, suffixes, false);
    case ProbeRegister(form, tokenHash, suffixes, _, _) => CreateKeepsInv(c, Trimmed(form), tokenHash, suffixes, true);
    case ProbeToggle(id) => ProbeEditsKeepInv(c, id, "");
    case ProbeRotate(id, tokenHash) => ProbeEditsKeepInv(c, id, tokenHash);
    case ProbeDelete(id) => ProbeEditsKeepInv(c, id, "");
    case Restart(pick) => PlacedIsCovered(c); BackfillIdle(c, pick);
  }

  function Run(c: Locations, ops: seq<Op>): Locations
    decreases ops
  {
    if ops == [] then c else Run(Next(c, ops[0]), ops[1..])
  }

  /** Every run of handlers and restarts from an empty database keeps the tables consistent. */
  lemma {:induction false} RunsKeepInv(c: Locations, ops: seq<Op>)
    requires Inv(c)
    ensures Inv(Run(c, ops))
    decreases ops
  {
    if ops != [] {
      NextKeepsInv(c, ops[0]);
      RunsKeepInv(Next(c, ops[0]), ops[1..]);
    }
  }

  lemma EveryRunFromEmpty(ops: seq<Op>)
    ensures Inv(Run(EMPTY, ops))
  {
    RunsKeepInv(EMPTY, ops);
  }

  // ----- Databases that predate the catalog ----------------------------------------------

  lemma DeletesKeepCovered(c: Locations, code: string)
    requires Covered(c)
    ensures Covered(CampusDeleted(c, code)) && Covered(BuildingDeleted(c, code))
  {
  }

  lemma EditsKeepCovered(c: Locations, code: string, name: string, b: Building)
    requires Covered(c)
    ensures Covered(CampusCreated(c, code, name)) && Covered(CampusRenamed(c, code, name))
    ensures Covered(CreateBuilding(c, code, b)) && Covered(UpdateBuilding(c, code, b.groupCode, b.groupName, b.name))
  {
  }

  lemma ImportKeepsCovered(c: Locations, campus: string, text: string, groupCode: string, groupName: string)
    requires Covered(c)
    ensures Covered(ImportText(c, campus, text, groupCode, groupName))
  {
    AppliedKeepsRows(c.buildings, campus, Parse(text, groupCode, groupName));
  }

  lemma CreateKeepsCovered(c: Locations, f: ProbeForm, tokenHash: string, suffixes: seq<string>, selfRegistered: bool)
    requires Covered(c)
    ensures Covered(CreateProbe(c, f, tokenHash, suffixes, selfRegistered))
  {
  }

  lemma ProbeEditsKeepCovered(c: Locations, id: string, tokenHash: string)
    requires Covered(c)
    ensures Covered(Toggle(c, id)) && Covered(Rotate(c, id, tokenHash)) && Covered(c.(probes := c.probes - {id}))
  {
  }

  /** No handler leaves a dangling code, wherever the probes were filed. */
  lemma NextKeepsCovered(c: Locations, op: Op)
    requires Covered(c)
    ensures Covered(Next(c, op))
  {
    match op
    case CampusCreate(code, name) => EditsKeepCovered(c, TrimSpace(code), TrimSpace(name), Building("", "", "", ""));
    case CampusRename(code, name) => EditsKeepCovered(c, code, TrimSpace(name), Building("", "", "", ""));
    case CampusDelete(code) => DeletesKeepCovered(c, code);
    case BuildingCreate(code, campus, groupCode, groupName, name) =>
      EditsKeepCovered(c, TrimSpace(code), "", Building(TrimSpace(campus), TrimSpace(groupCode), TrimSpace(groupName), TrimSpace(name)));
    case BuildingUpdate(code, groupCode, groupName, name) =>
      EditsKeepCovered(c, code, "", Building("", TrimSpace(groupCode), TrimSpace(groupName), TrimSpace(name)));
    case BuildingDelete(code) => DeletesKeepCovered(c, code);
    case BuildingImport(campus, text, groupCode, groupName) =>
      ImportKeepsCovered(c, TrimSpace(campus), text, TrimSpace(groupCode), TrimSpace(groupName));
    case ProbeCreate(form, tokenHash, suffixes) => CreateKeepsCovered(c, Trimmed(form), tokenHash, suffixes, false);
    case ProbeRegister(form, tokenHash, suffixes, _, _) => CreateKeepsCovered(c, Trimmed(form), tokenHash, suffixes, true);
    case ProbeToggle(id) => ProbeEditsKeepCovered(c, id, "");
    case ProbeRotate(id, tokenHash) => ProbeEditsKeepCovered(c, id, tokenHash);
    case ProbeDelete(id) => ProbeEditsKeepCovered(c, id, "");
    case Restart(pick) => BackfillIdle(c, pick);
  }

  lemma {:induction false} RunsKeepCovered(c: Locations, ops: seq<Op>)
    requires Covered(c)
    ensures Covered(Run(c, ops))
    decreases ops
  {
    if ops != [] {
      NextKeepsCovered(c, ops[0]);
      RunsKeepCovered(Next(c, ops[0]), ops[1..]);
    }
  }

  /** Open a database that predates the catalog, then do anything: every code named exists. */
  lemma EveryRunFromLegacy(c: Locations, pick: set<string> -> string, ops: seq<Op>)
    requires Picks(pick) && c.campuses == map[] && ForeignKey(c)
    ensures Covered(Run(Next(c, Restart(pick)), ops))
  {
    BackfillCovers(c, pick);
    RunsKeepCovered(Backfilled(c, pick), ops);
  }

  predicate CampusNamed(c: Locations, code: string) { exists p :: p in c.probes && c.probes[p].campus == code }

  /** Some probe filed under another campus is in one of this campus's buildings. */
  predicate NamedFromElsewhere(c: Locations, code: string) {
    exists p :: p in c.probes && c.probes[p].campus != code
                && c.probes[p].building in c.buildings && c.buildings[c.probes[p].building].campus == code
  }

  /** What deleting a campus would be if only the probes that name it were counted. */
  function DeletedByCampusAlone(c: Locations, code: string): Locations {
    if CampusNamed(c, code) || code !in c.campuses then c else WithoutCampus(c, code)
  }

  /** The count over buildings is what covers such probes, and is needed for nothing else. */
  lemma CampusCountEnoughIff(c: Locations, code: string)
    requires Covered(c)
    ensures Covered(DeletedByCampusAlone(c, code)) <==> CampusNamed(c, code) || !NamedFromElsewhere(c, code)
  {
    var d := DeletedByCampusAlone(c, code);
    if p :| p in c.probes && c.probes[p].campus != code
            && c.probes[p].building in c.buildings && c.buildings[c.probes[p].building].campus == code {
      assert !CampusNamed(c, code) ==> code in c.campuses && c.probes[p].building !in d.buildings && p in d.probes;
    }
  }

  /** While every probe lies in its own campus there are no such probes. */
  lemma CampusCountEnoughWhenPlaced(c: Locations, code: string)
    requires Inv(c)
    ensures CampusInUse(c, code) <==> CampusNamed(c, code)
    ensures Inv(DeletedByCampusAlone(c, code))
  {
  }

  lemma CampusCountMisses(d: Locations, code: string, p: string)
    requires Covered(d) && !CampusNamed(d, code) && p in d.probes && d.buildings[d.probes[p].building].campus == code
    ensures !Covered(DeletedByCampusAlone(d, code))
  {
    CampusCountEnoughIff(d, code);
    assert NamedFromElsewhere(d, code);
  }

  lemma LoneProbeDeleted(b: Locations, p: string, q: string)
    requires Covered(b) && p in b.probes && q in b.probes && b.probes[p].campus != b.probes[q].campus
    requires b.buildings[b.probes[p].building].campus == b.probes[q].campus
    requires forall r :: r in b.probes && b.probes[r].campus == b.probes[q].campus ==> r == q
    ensures var d := Next(b, ProbeDelete(q)); Covered(d) && !Covered(DeletedByCampusAlone(d, b.probes[q].campus))
  {
    ProbeEditsKeepCovered(b, q, "");
    CampusCountMisses(b.(probes := b.probes - {q}), b.probes[q].campus, p);
  }

  /** A legacy database gets there: two probes share a building across campuses, the backfill files the
      building under the second one's campus, and that probe, alone in its campus, is deleted. */
  lemma LegacyNeedsBothCounts(c: Locations, pick: set<string> -> string, p: string, q: string)
    requires Picks(pick) && c.campuses == map[] && c.buildings == map[] && p in c.probes && q in c.probes
    requires q == pick(ProbesIn(c, c.probes[p].building)) && c.probes[q].campus != c.probes[p].campus
    requires forall r :: r in c.probes && c.probes[r].campus == c.probes[q].campus ==> r == q
    ensures var d := Next(Backfilled(c, pick), ProbeDelete(q));
            Covered(d) && !Covered(DeletedByCampusAlone(d, c.probes[q].campus))
  {
    BackfillCovers(c, pick);
    BackfilledBuilding(c, pick, p);
    LoneProbeDeleted(Backfilled(c, pick), p, q);
  }

  // ----- What reaches a label ------------------------------------------------------------

  predicate CleanProbe(p: Probe) {
    ValidCode(p.campus) && ValidCode(p.building) && ValidCode(p.groupCode) && ValidNetwork(p.network)
  }

  /** No free text in a code a metric carries. */
  predicate Clean(c: Locations) {
    && (forall p :: p in c.probes ==> CleanProbe(c.probes[p]))
    && forall b :: b in c.buildings ==> ValidCode(c.buildings[b].groupCode)
  }

  lemma BuildingEditsKeepClean(c: Locations, code: string, b: Building)
    requires Clean(c)
    ensures Clean(CreateBuilding(c, code, b)) && Clean(UpdateBuilding(c, code, b.groupCode, b.groupName, b.name))
  {
  }

  lemma {:induction false} AppliedClean(b: Buildings, campus: string, lines: seq<Line>)
    requires forall k :: k in b ==> ValidCode(b[k].groupCode)
    ensures forall k :: k in Applied(b, campus, lines) ==> ValidCode(Applied(b, campus, lines)[k].groupCode)
  {
    if lines != [] { AppliedClean(b, campus, lines[..|lines| - 1]); }
  }

  lemma CreateKeepsClean(c: Locations, f: ProbeForm, tokenHash: string, suffixes: seq<string>, selfRegistered: bool)
    requires Clean(c)
    ensures Clean(CreateProbe(c, f, tokenHash, suffixes, selfRegistered))
  {
  }

  lemma ProbeEditsKeepClean(c: Locations, id: string, tokenHash: string)
    requires Clean(c)
    ensures Clean(Toggle(c, id)) && Clean(Rotate(c, id, tokenHash)) && Clean(c.(probes := c.probes - {id}))
  {
  }

  lemma DeletesKeepClean(c: Locations, code: string)
    requires Clean(c)
    ensures Clean(CampusDeleted(c, code)) && Clean(BuildingDeleted(c, code))
  {
  }

  lemma BackfillClean(c: Locations, pick: set<string> -> string)
    requires Clean(c) && Picks(pick)
    ensures Clean(Backfilled(c, pick))
  {
    var d := Backfilled(c, pick);
    forall b | b in d.buildings ensures ValidCode(d.buildings[b].groupCode) {
      if c.campuses == map[] && b !in c.buildings { PickedFrom(c, pick, b); }
    }
  }

  /** The rows SQLite may return at a restart. */
  ghost predicate PicksRows(op: Op) { op.Restart? ==> Picks(op.pick) }

  lemma CampusEditsKeepClean(c: Locations, code: string, name: string)
    requires Clean(c)
    ensures Clean(CampusCreated(c, code, name)) && Clean(CampusRenamed(c, code, name))
  {
  }

  lemma ImportKeepsClean(c: Locations, campus: string, text: string, groupCode: string, groupName: string)
    requires Clean(c)
    ensures Clean(ImportText(c, campus, text, groupCode, groupName))
  {
    AppliedClean(c.buildings, campus, Parse(text, groupCode, groupName));
  }

  predicate OnProbes(op: Op) { op.ProbeToggle? || op.ProbeRotate? || op.ProbeDelete? }

  lemma ProbeOpsKeepClean(c: Locations, op: Op)
    requires Clean(c) && OnProbes(op)
    ensures Clean(Next(c, op))
  {
    match op
    case ProbeToggle(id) => ProbeEditsKeepClean(c, id, "");
    case ProbeRotate(id, tokenHash) => ProbeEditsKeepClean(c, id, tokenHash);
    case ProbeDelete(id) => ProbeEditsKeepClean(c, id, "");
  }

  lemma CreationsKeepClean(c: Locations, op: Op)
    requires Clean(c) && (op.ProbeCreate? || op.ProbeRegister?)
    ensures Clean(Next(c, op))
  {
    match op
    case ProbeCreate(form, tokenHash, suffixes) => CreateKeepsClean(c, Trimmed(form), tokenHash, suffixes, false);
    case ProbeRegister(form, tokenHash, suffixes, _, _) => CreateKeepsClean(c, Trimmed(form), tokenHash, suffixes, true);
  }

  lemma LocationOpsKeepClean(c: Locations, op: Op)
    requires Clean(c) && !OnProbes(op) && !op.ProbeCreate? && !op.ProbeRegister? && !op.Restart?
    ensures Clean(Next(c, op))
  {
    match op
    case CampusCreate(code, name) => CampusEditsKeepClean(c, TrimSpace(code), TrimSpace(name));
    case CampusRename(code, name) => CampusEditsKeepClean(c, code, TrimSpace(name));
    case CampusDelete(code) => DeletesKeepClean(c, code);
    case BuildingCreate(code, campus, groupCode, groupName, name) =>
      BuildingEditsKeepClean(c, TrimSpace(code), Building(TrimSpace(campus), TrimSpace(groupCode), TrimSpace(groupName), TrimSpace(name)));
    case BuildingUpdate(code, groupCode, groupName, name) =>
      BuildingEditsKeepClean(c, code, Building("", TrimSpace(groupCode), TrimSpace(groupName), TrimSpace(name)));
    case BuildingDelete(code) => DeletesKeepClean(c, code);
    case BuildingImport(campus, text, groupCode, groupName) =>
      ImportKeepsClean(c, TrimSpace(campus), text, TrimSpace(groupCode), TrimSpace(groupName));
  }

  lemma NextKeepsClean(c: Locations, op: Op)
    requires Clean(c) && PicksRows(op)
    ensures Clean(Next(c, op))
  {
    if OnProbes(op) {
      ProbeOpsKeepClean(c, op);
    } else if op.ProbeCreate? || op.ProbeRegister? {
      CreationsKeepClean(c, op);
    } else if op.Restart? {
      BackfillClean(c, op.pick);
    } else {
      LocationOpsKeepClean(c, op);
    }
  }

  /** Every run from a clean database, an empty one among them, stays clean. */
  lemma {:induction false} RunsKeepClean(c: Locations, ops: seq<Op>)
    requires Clean(c) && forall i :: 0 <= i < |ops| ==> PicksRows(ops[i])
    ensures Clean(Run(c, ops))
    decreases ops
  {
    if ops != [] {
      NextKeepsClean(c, ops[0]);
      RunsKeepClean(Next(c, ops[0]), ops[1..]);
    }
  }

  /** So the empty building code the create form lets in never reaches a probe. */
  lemma EmptyCodeReachesNoProbe(ops: seq<Op>, p: string)
    requires (forall i :: 0 <= i < |ops| ==> PicksRows(ops[i])) && p in Run(EMPTY, ops).probes
    ensures CleanProbe(Run(EMPTY, ops).probes[p]) && Run(EMPTY, ops).probes[p].building != ""
  {
    RunsKeepClean(EMPTY, ops);
  }

  /** The create form accepts exactly one code that is not a valid one: the empty code. */
  lemma CreatedCodeValidIff(c: Locations, code: string, b: Building)
    requires CreateBuilding(c, code, b) != c
    ensures ValidCode(code) <==> code != ""
  {
  }

  lemma EmptyCodeAccepted()
    ensures var c := EMPTY.(campuses := map["a" := "A"]);
            "" in CreateBuilding(c, "", Building("a", "g", "G", "N")).buildings && !ValidCode("")
  {
  }

  // ----- What each edit leaves -----------------------------------------------------------

  /** Creating adds one campus under a valid, free code; renaming changes one name. */
  lemma CampusEditsLeave(c: Locations, code: string, name: string)
    ensures var d := CampusCreated(c, code, name);
            && d == c.(campuses := d.campuses)
            && forall k :: (k in d.campuses <==> k in c.campuses || (k == code && ValidCode(code) && ValidName(name)))
                           && (k in d.campuses ==> d.campuses[k] == if k in c.campuses then c.campuses[k] else name)
    ensures var d := CampusRenamed(c, code, name);
            && d == c.(campuses := d.campuses) && d.campuses.Keys == c.campuses.Keys
            && forall k :: k in d.campuses ==>
                 d.campuses[k] == if k == code && ValidCode(code) && ValidName(name) then name else c.campuses[k]
  {
  }

  /** Deleting an unused campus takes it and its buildings; no other campus, building or probe goes. */
  lemma CampusDeleteLeaves(c: Locations, code: string)
    requires code in c.campuses
    ensures var d := CampusDeleted(c, code);
            && d.probes == c.probes && (CampusInUse(c, code) ==> d == c)
            && (!CampusInUse(c, code) ==>
                  && (forall k :: (k in d.campuses <==> k in c.campuses && k != code)
                                  && (k in d.campuses ==> d.campuses[k] == c.campuses[k]))
                  && forall b :: (b in d.buildings <==> b in c.buildings && c.buildings[b].campus != code)
                                 && (b in d.buildings ==> d.buildings[b] == c.buildings[b]))
  {
  }

  lemma BuildingDeleteLeaves(c: Locations, code: string)
    ensures var d := BuildingDeleted(c, code);
            && d == c.(buildings := d.buildings) && (BuildingInUse(c, code) ==> d == c)
            && (!BuildingInUse(c, code) ==>
                  forall b :: (b in d.buildings <==> b in c.buildings && b != code)
                              && (b in d.buildings ==> d.buildings[b] == c.buildings[b]))
  {
  }

  /** Creating a building adds it as typed, under a free code and an existing campus. */
  lemma BuildingCreateLeaves(c: Locations, code: string, b: Building)
    ensures var d := CreateBuilding(c, code, b);
            var added := code !in c.buildings && b.campus in c.campuses && b.campus != ""
                         && (code == "" || ValidCode(code)) && ValidGroup(b.groupCode, b.groupName, b.name);
            && d == c.(buildings := d.buildings) && (!added ==> d == c)
            && (added ==> forall k :: (k in d.buildings <==> k in c.buildings || k == code)
                                      && (k in d.buildings ==> d.buildings[k] == if k == code then b else c.buildings[k]))
  {
  }

  /** Editing a building changes its group and name; its campus and every other building stay. */
  lemma BuildingUpdateLeaves(c: Locations, code: string, groupCode: string, groupName: string, name: string)
    ensures var d := UpdateBuilding(c, code, groupCode, groupName, name);
            && d == c.(buildings := d.buildings) && d.buildings.Keys == c.buildings.Keys
            && (forall k :: k in d.buildings && k != code ==> d.buildings[k] == c.buildings[k])
            && (code in c.buildings && c.buildings[code].campus in c.campuses && c.buildings[code].campus != ""
                && ValidGroup(groupCode, groupName, name) ==>
                  d.buildings[code].campus == c.buildings[code].campus && d.buildings[code].groupCode == groupCode
                  && d.buildings[code].groupName == groupName && d.buildings[code].name == name)
  {
  }

  /** The form holds an existing building of an existing campus, a network type and a short enough description. */
  predicate ProbeFormAccepted(c: Locations, f: ProbeForm) {
    && ValidCode(f.campus) && ValidCode(f.building) && f.campus in c.campuses && f.building in c.buildings
    && c.buildings[f.building].campus == f.campus && f.network in {"wired", "wireless"} && |f.description| <= 256
  }

  /** `d` is `c` with one enabled probe more, under a free ID, at the form's place as the catalog has it. */
  predicate CreatedAs(c: Locations, d: Locations, f: ProbeForm, tokenHash: string, selfRegistered: bool, id: string)
    requires ProbeFormAccepted(c, f)
  {
    id !in c.probes
    && d == c.(probes := c.probes[id := Probe(
         tokenHash, f.campus, c.campuses[f.campus], c.buildings[f.building].groupCode, c.buildings[f.building].groupName,
         f.building, c.buildings[f.building].name, f.network, true, f.description, selfRegistered)])
  }

  /** A probe is created only for an accepted form, under a free ID made of its codes and a draw, and its row
      holds what the form and the catalog say. */
  lemma ProbeCreateLeaves(c: Locations, f: ProbeForm, tokenHash: string, suffixes: seq<string>, selfRegistered: bool)
    ensures var d := CreateProbe(c, f, tokenHash, suffixes, selfRegistered);
            d != c ==>
              && ProbeFormAccepted(c, f)
              && exists i :: 0 <= i < |suffixes| && i < 5 && CreatedAs(c, d, f, tokenHash, selfRegistered, f.campus + "-" + f.building + "-" + suffixes[i])
  {
    if Acceptable(c, f) {
      var p := NewProbe(c, f, tokenHash, selfRegistered);
      var r := Inserted(c, f, p, AtMostFive(suffixes));
      if r.Some? {
        var s :| s in AtMostFive(suffixes) && r.value == ProbeID(f, s);
        var i :| 0 <= i < |AtMostFive(suffixes)| && AtMostFive(suffixes)[i] == s;
        assert CreatedAs(c, CreateProbe(c, f, tokenHash, suffixes, selfRegistered), f, tokenHash, selfRegistered, ProbeID(f, suffixes[i]));
      }
    }
  }

  /** And one is created whenever the form is accepted, the token is new and a draw gives a free ID. */
  lemma ProbeIsCreated(c: Locations, f: ProbeForm, tokenHash: string, suffixes: seq<string>, selfRegistered: bool)
    requires ProbeFormAccepted(c, f) && forall p :: p in c.probes ==> c.probes[p].tokenHash != tokenHash
    requires exists i :: 0 <= i < |suffixes| && i < 5 && f.campus + "-" + f.building + "-" + suffixes[i] !in c.probes
    ensures |CreateProbe(c, f, tokenHash, suffixes, selfRegistered).probes| == |c.probes| + 1
  {
    var i :| 0 <= i < |suffixes| && i < 5 && f.campus + "-" + f.building + "-" + suffixes[i] !in c.probes;
    var s := AtMostFive(suffixes)[i];
    assert s in AtMostFive(suffixes) && ProbeID(f, s) !in c.probes;
    var p := NewProbe(c, f, tokenHash, selfRegistered);
    assert Insertable(c, ProbeID(f, s), p);
  }

  ghost predicate SpaceAside(typed: string, s: string) {
    Bare(s) && exists l, r :: AllSpace(l) && AllSpace(r) && typed == l + s + r
  }

  /** White space around what is typed into the probe form never matters. */
  lemma SpaceNeverMatters(f: ProbeForm, s: ProbeForm)
    requires SpaceAside(f.campus, s.campus) && SpaceAside(f.building, s.building)
    requires SpaceAside(f.network, s.network) && SpaceAside(f.description, s.description)
    ensures Trimmed(f) == s
  {
    TypedIs(f.campus, s.campus);
    TypedIs(f.building, s.building);
    TypedIs(f.network, s.network);
    TypedIs(f.description, s.description);
  }

  lemma TypedIs(typed: string, s: string)
    requires SpaceAside(typed, s)
    ensures TrimSpace(typed) == s
  {
    var l, r :| AllSpace(l) && AllSpace(r) && typed == l + s + r;
    OuterSpaceGoes(l, s, r);
  }

  /** Every backfilled row is that of some probe: its campus's name, its building's campus, group and name. */
  lemma BackfillRows(c: Locations, pick: set<string> -> string, k: string)
    requires Picks(pick) && c.campuses == map[] && c.buildings == map[]
    ensures k in Backfilled(c, pick).campuses ==>
              exists p :: p in c.probes && c.probes[p].campus == k && Backfilled(c, pick).campuses[k] == c.probes[p].campusName
    ensures k in Backfilled(c, pick).buildings ==>
              exists p :: p in c.probes && c.probes[p].building == k
                && Backfilled(c, pick).buildings[k] ==
                     Building(c.probes[p].campus, c.probes[p].groupCode, c.probes[p].groupName, c.probes[p].buildingName)
  {
    if k in Backfilled(c, pick).campuses {
      var names := map q | q in c.probes :: c.probes[q].campus;
      assert k in names.Values;
      var q :| q in names && names[q] == k;
      assert q in ProbesAt(c, k);
      assert pick(ProbesAt(c, k)) in ProbesAt(c, k);
    }
    if k in Backfilled(c, pick).buildings { PickedFrom(c, pick, k); }
  }

  /** A second toggle undoes the first. */
  lemma ToggleTwice(c: Locations, id: string)
    ensures Toggle(Toggle(c, id), id) == c
    ensures id in c.probes ==> Toggle(c, id).probes[id].enabled == !c.probes[id].enabled
  {
    if id in c.probes {
      var p := c.probes[id];
      assert p.(enabled := !p.enabled).(enabled := p.enabled) == p;
    }
  }

  // ----- Importing twice -----------------------------------------------------------------

  /** None: a bad campus or nothing to import. */
  function ImportReport(c: Locations, campus: string, text: string, groupCode: string, groupName: string): Option<Report> {
    var code, lines := TrimSpace(campus), Parse(text, TrimSpace(groupCode), TrimSpace(groupName));
    if code == "" || code !in c.campuses || lines == [] then None else Some(ReportOf(c.buildings, code, lines))
  }

  lemma ImportTextTwice(c: Locations, campus: string, text: string, groupCode: string, groupName: string)
    ensures var once := ImportText(c, campus, text, groupCode, groupName);
            ImportText(once, campus, text, groupCode, groupName) == once
  {
    ImportAgain(c.buildings, campus, campus, Parse(text, groupCode, groupName));
  }

  /** Submitting the form a second time changes nothing, adds none, skips every good line and fails
      the same lines with the same problems. */
  lemma ImportTwice(c: Locations, op: Op)
    requires op.BuildingImport?
    ensures var once := Next(c, op);
            var lines := Parse(op.text, TrimSpace(op.groupCode), TrimSpace(op.groupName));
            && Next(once, op) == once
            && match ImportReport(c, op.campus, op.text, op.groupCode, op.groupName)
               case None => once == c
               case Some(first) =>
                 && ImportReport(once, op.campus, op.text, op.groupCode, op.groupName) == Some(Report(0, GoodCodes(lines), first.failed))
                 && |GoodCodes(lines)| == first.added + |first.skipped|
  {
    match op
    case BuildingImport(campus, text, groupCode, groupName) =>
      ImportTextTwice(c, TrimSpace(campus), text, TrimSpace(groupCode), TrimSpace(groupName));
      ImportAgain(c.buildings, TrimSpace(campus), TrimSpace(campus), Parse(text, TrimSpace(groupCode), TrimSpace(groupName)));
  }

  // ----- The store -----------------------------------------------------------------------

  class Store {
    var campuses: map<string, string>
    var buildings: Buildings
    var probes: map<string, Probe>

    function Value(): Locations
      reads this
    {
      Locations(campuses, buildings, probes)
    }

    constructor ()
      ensures Value() == EMPTY
    {
      campuses, buildings, probes := map[], map[], map[];
    }

    /** One transaction: the count spans both references, and nothing is left half deleted. */
    method DeleteCampus(code: string) returns (err: Option<StoreError>)
      requires ForeignKey(Value())
      modifies this
      ensures Value() == CampusDeleted(old(Value()), code)
      ensures err == if CampusInUse(old(Value()), code) then Some(TargetStore.InUse)
                     else if code !in old(campuses) then Some(TargetStore.NotFound) else None
    {
      ghost var before := Value();
      var users := set p | p in probes && (probes[p].campus == code ||
                       (probes[p].building in buildings && buildings[probes[p].building].campus == code));
      assert users == {} <==> !CampusInUse(before, code) by {
        if p :| p in probes && (probes[p].campus == code ||
                (probes[p].building in buildings && buildings[probes[p].building].campus == code)) { assert p in users; }
      }
      if |users| > 0 {
        return Some(TargetStore.InUse);
      }
      var kept := map b | b in buildings && buildings[b].campus != code :: buildings[b];
      if code !in campuses {
        assert kept == buildings;
        return Some(TargetStore.NotFound);
      }
      buildings, campuses := kept, campuses - {code};
      err := None;
    }

    method DeleteBuilding(code: string) returns (err: Option<StoreError>)
      modifies this
      ensures Value() == BuildingDeleted(old(Value()), code)
      ensures err == if BuildingInUse(old(Value()), code) then Some(TargetStore.InUse)
                     else if code !in old(buildings) then Some(TargetStore.NotFound) else None
    {
      var users := set p | p in probes && probes[p].building == code;
      assert users == {} <==> !BuildingInUse(Value(), code) by {
        if p :| p in probes && probes[p].building == code { assert p in users; }
      }
      if |users| > 0 {
        return Some(TargetStore.InUse);
      }
      err := if code in buildings then None else Some(TargetStore.NotFound);
      buildings := buildings - {code};
    }

    /** True means the code was taken. */
    method InsertBuilding(code: string, b: Building) returns (duplicate: bool)
      modifies `buildings
      ensures duplicate == (code in old(buildings))
      ensures buildings == if code in old(buildings) then old(buildings) else old(buildings)[code := b]
    {
      duplicate := code in buildings;
      if !duplicate {
        buildings := buildings[code := b];
      }
    }

    /** The importer's loop over the parsed lines. */
    method ImportLines(campus: string, lines: seq<Line>) returns (report: Report)
      modifies `buildings
      ensures buildings == Applied(old(buildings), campus, lines)
      ensures report == ReportOf(old(buildings), campus, lines)
    {
      ghost var before := buildings;
      var added := 0;
      var skipped: seq<string> := [];
      var failed: seq<(nat, Problem)> := [];
      for i := 0 to |lines|
        invariant buildings == Applied(before, campus, lines[..i])
        invariant added == |buildings| - |before|
        invariant skipped == Skips(before, campus, lines[..i]) && failed == Failures(lines[..i])
      {
        var l := lines[i];
        assert lines[..i + 1][..i] == lines[..i] && lines[..i + 1][i] == l;
        if l.problem != None {
          failed := failed + [(l.number, l.problem.value)];
          continue;
        }
        if !ValidCode(l.code) || !ValidGroup(l.groupCode, l.groupName, l.name) {
          failed := failed + [(l.number, InvalidField)];
          continue;
        }
        var duplicate := InsertBuilding(l.code, RowOf(campus, l));
        if duplicate {
          skipped := skipped + [l.code];
          continue;
        }
        added := added + 1;
      }
      assert lines[..|lines|] == lines;
      Conservation(before, campus, lines);
      report := Report(added, skipped, failed);
    }

    method HandleBuildingImport(campus: string, text: string, groupCode: string, groupName: string)
      returns (report: Option<Report>)
      modifies this
      ensures Value() == Next(old(Value()), BuildingImport(campus, text, groupCode, groupName))
      ensures report == ImportReport(old(Value()), campus, text, groupCode, groupName)
    {
      var campusCode := TrimSpace(campus);
      if campusCode == "" || campusCode !in campuses {
        return None;
      }
      var lines := ParseLines(text, TrimSpace(groupCode), TrimSpace(groupName));
      if |lines| == 0 {
        return None;
      }
      var r := ImportLines(campusCode, lines);
      report := Some(r);
    }

    method ParseLines(text: string, groupCode: string, groupName: string) returns (lines: seq<Line>)
      ensures lines == Parse(text, groupCode, groupName)
    {
      lines := ParseBuildingImport(text, groupCode, groupName);
    }

    /** The retry loop around the insert; `suffixes` are the random draws. */
    method InsertProbe(f: ProbeForm, p: Probe, suffixes: seq<string>) returns (id: Option<string>)
      modifies `probes
      ensures id == Inserted(old(Value()), f, p, AtMostFive(suffixes))
      ensures probes == match id case Some(k) => old(probes)[k := p] case None => old(probes)
    {
      var draws := AtMostFive(suffixes);
      for attempt := 0 to |draws|
        invariant probes == old(probes)
        invariant Inserted(Value(), f, p, draws) == Inserted(Value(), f, p, draws[attempt..])
      {
        assert draws[attempt..][0] == draws[attempt] && draws[attempt..][1..] == draws[attempt + 1..];
        var k := ProbeID(f, draws[attempt]);
        if k !in probes && !TokenTaken(Value(), p.tokenHash) {
          probes := probes[k := p];
          return Some(k);
        }
      }
      id := None;
    }

    method SetProbeEnabled(id: string, enabled: bool) returns (err: Option<StoreError>)
      modifies `probes
      ensures err == if id in old(probes) then None else Some(TargetStore.NotFound)
      ensures probes == if id in old(probes) then old(probes)[id := old(probes)[id].(enabled := enabled)] else old(probes)
    {
      if id !in probes {
        return Some(TargetStore.NotFound);
      }
      probes := probes[id := probes[id].(enabled := enabled)];
      err := None;
    }

    /** The token column is UNIQUE: a hash another probe holds is refused. */
    method UpdateProbeToken(id: string, tokenHash: string) returns (err: Option<StoreError>)
      modifies `probes
      ensures Value() == Rotate(old(Value()), id, tokenHash)
      ensures err.Some? ==> probes == old(probes)
      ensures err == None <==> id in old(probes) && forall p :: p in old(probes) && old(probes)[p].tokenHash == tokenHash ==>
                                                              old(probes)[id].tokenHash == tokenHash
    {
      if id !in probes {
        return Some(TargetStore.NotFound);
      }
      if TokenTaken(Value(), tokenHash) && probes[id].tokenHash != tokenHash {
        return Some(TargetStore.Duplicate);
      }
      probes := probes[id := probes[id].(tokenHash := tokenHash)];
      err := None;
    }

    method DeleteProbe(id: string) returns (err: Option<StoreError>)
      modifies `probes
      ensures err == if id in old(probes) then None else Some(TargetStore.NotFound)
      ensures probes == old(probes) - {id}
    {
      err := if id in probes then None else Some(TargetStore.NotFound);
      probes := probes - {id};
    }

    method HandleProbeCreate(form: ProbeForm, tokenHash: string, suffixes: seq<string>) returns (id: Option<string>)
      modifies this
      ensures Value() == Next(old(Value()), ProbeCreate(form, tokenHash, suffixes))
      ensures id == None ==> Value() == old(Value())
    {
      var f := Trimmed(form);
      if !Located(Value(), f.campus, f.building) || |f.description| > 256 || !ValidNetwork(f.network) {
        return None;
      }
      id := InsertProbe(f, NewProbe(Value(), f, tokenHash, false), suffixes);
    }
  }
}
