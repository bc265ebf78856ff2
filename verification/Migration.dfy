/** Start-up: numbered migrations, catalog backfill and target seeding, each in its own transaction,
    so that a crash between two of them is repaired by the next start. */
module Migration {
  import opened Wire
  import opened Catalog
  import TargetStore

  /** What exists, and the rows in it. Timestamps are not modelled. */
  datatype Schema = Schema(
    baseTables: bool, catalogTables: bool, probeColumns002: bool, catalog: Locations, targets: TargetStore.Tables)

  /** The database file; `ledger` is the schema_migrations table, if it exists. */
  datatype Disk = Disk(ledger: Option<set<nat>>, schema: Schema)

  /** A numbered script; None is an SQL error, which rolls the transaction back. */
  datatype Script = Script(version: nat, sql: Schema -> Option<Schema>)

  predicate Numbered(ms: seq<Script>) { forall i, j :: 0 <= i < j < |ms| ==> ms[i].version < ms[j].version }

  datatype Outcome = Outcome(disk: Disk, ok: bool)

  function Applied(d: Disk): set<nat> { if d.ledger.Some? then d.ledger.value else {} }

  function WithLedger(d: Disk): Disk { d.(ledger := Some(Applied(d))) }

  /** One migration's transaction: the script and its ledger row together. */
  function Record(d: Disk, m: Script, s: Schema): Disk { Disk(Some(Applied(d) + {m.version}), s) }

  /** `applied` is the ledger as read at the start of the run. */
  function ApplyPending(d: Disk, applied: set<nat>, ms: seq<Script>): Outcome
    decreases ms
  {
    if ms == [] then Outcome(d, true)
    else if ms[0].version in applied then ApplyPending(d, applied, ms[1..])
    else match ms[0].sql(d.schema)
      case None => Outcome(d, false)
      case Some(s) => ApplyPending(Record(d, ms[0], s), applied, ms[1..])
  }

  const DEFAULT_TARGETS: seq<TargetStore.NewTarget> := [
    TargetStore.NewTarget("campus_dns", TargetStore.TargetRow("校园 DNS", "", "地址待管理员填写", true), ["icmp", "dns"]),
    TargetStore.NewTarget("aliyun_dns", TargetStore.TargetRow("阿里 DNS", "223.5.5.5", "", true), ["icmp"]),
    TargetStore.NewTarget("dnspod_dns", TargetStore.TargetRow("DNSPod DNS", "119.29.29.29", "", true), ["icmp"]),
    TargetStore.NewTarget("cloudflare_dns", TargetStore.TargetRow("Cloudflare DNS", "1.1.1.1", "", true), ["icmp"]),
    TargetStore.NewTarget("cqu_mirror", TargetStore.TargetRow("CQU 镜像站", "https://mirrors.cqu.edu.cn/", "", true), ["http"])]

  function PutAll(t: TargetStore.Tables, news: seq<TargetStore.NewTarget>): TargetStore.Tables
    decreases news
  {
    if news == [] then t else PutAll(TargetStore.Put(t, news[0]), news[1..])
  }

  function SeededWith(t: TargetStore.Tables, seeds: seq<TargetStore.NewTarget>): TargetStore.Tables {
    if t.targets != map[] then t else PutAll(t, seeds)
  }

  function SeededTables(t: TargetStore.Tables): TargetStore.Tables { SeededWith(t, DEFAULT_TARGETS) }

  /** Seeding an empty table puts every target of a list with distinct IDs there as listed. */
  lemma {:induction false} PutAllPuts(t: TargetStore.Tables, news: seq<TargetStore.NewTarget>, i: nat)
    requires i < |news| && forall j, k :: 0 <= j < k < |news| ==> news[j].id != news[k].id
    ensures var u := PutAll(t, news);
            news[i].id in u.targets && u.targets[news[i].id] == news[i].row
            && TargetStore.TypesOf(u, news[i].id) == set x | x in news[i].types
    decreases news
  {
    var first, rest := TargetStore.Put(t, news[0]), news[1..];
    if i == 0 {
      TargetStore.PutTypes(t, news[0], news[0].id);
      PutAllSpares(first, rest, news[0].id);
    } else {
      assert rest[i - 1] == news[i];
      PutAllPuts(first, rest, i - 1);
    }
  }

  lemma {:induction false} PutAllSpares(t: TargetStore.Tables, news: seq<TargetStore.NewTarget>, id: string)
    requires id in t.targets && forall i :: 0 <= i < |news| ==> news[i].id != id
    ensures var u := PutAll(t, news);
            id in u.targets && u.targets[id] == t.targets[id] && TargetStore.TypesOf(u, id) == TargetStore.TypesOf(t, id)
    decreases news
  {
    if news != [] {
      TargetStore.PutTypes(t, news[0], id);
      PutAllSpares(TargetStore.Put(t, news[0]), news[1..], id);
    }
  }

  /** So an empty table holds all five defaults afterwards, and any other table is left alone. */
  lemma SeedingLeaves(t: TargetStore.Tables, i: nat)
    requires i < |DEFAULT_TARGETS|
    ensures t.targets != map[] ==> SeededTables(t) == t
    ensures t.targets == map[] ==>
              var u, n := SeededTables(t), DEFAULT_TARGETS[i];
              n.id in u.targets && u.targets[n.id] == n.row && TargetStore.TypesOf(u, n.id) == set x | x in n.types
  {
    if t.targets == map[] { PutAllPuts(t, DEFAULT_TARGETS, i); }
  }

  function Backfill(d: Disk, pick: set<string> -> string): Disk {
    d.(schema := d.schema.(catalog := Backfilled(d.schema.catalog, pick)))
  }

  function Seed(d: Disk): Disk { d.(schema := d.schema.(targets := SeededTables(d.schema.targets))) }

  /** A complete run. */
  function Migrated(d: Disk, ms: seq<Script>, pick: set<string> -> string): Outcome {
    var r := ApplyPending(WithLedger(d), Applied(d), ms);
    if r.ok then Outcome(Seed(Backfill(r.disk, pick)), true) else r
  }

  /** What a run leaves on disk when it is cut off after `k` transactions. */
  function CutAfter(d: Disk, ms: seq<Script>, pick: set<string> -> string, k: nat): Disk {
    if k == 0 then d else CutPending(WithLedger(d), Applied(d), ms, pick, k - 1)
  }

  function CutPending(d: Disk, applied: set<nat>, ms: seq<Script>, pick: set<string> -> string, k: nat): Disk
    decreases ms
  {
    if ms == [] then (if k == 0 then d else if k == 1 then Backfill(d, pick) else Seed(Backfill(d, pick)))
    else if ms[0].version in applied then CutPending(d, applied, ms[1..], pick, k)
    else if k == 0 then d
    else match ms[0].sql(d.schema)
      case None => d
      case Some(s) => CutPending(Record(d, ms[0], s), applied, ms[1..], pick, k - 1)
  }

  // ----- A cut run leaves nothing a complete run would notice ----------------------------

  lemma {:induction false} ReadOnlyVersions(d: Disk, a: set<nat>, b: set<nat>, ms: seq<Script>)
    requires forall i :: 0 <= i < |ms| ==> (ms[i].version in a <==> ms[i].version in b)
    ensures ApplyPending(d, a, ms) == ApplyPending(d, b, ms)
    decreases ms
  {
    if ms != [] {
      if ms[0].version in a {
        ReadOnlyVersions(d, a, b, ms[1..]);
      } else if ms[0].sql(d.schema).Some? {
        ReadOnlyVersions(Record(d, ms[0], ms[0].sql(d.schema).value), a, b, ms[1..]);
      }
    }
  }

  function Finish(r: Outcome, pick: set<string> -> string): Outcome {
    if r.ok then Outcome(Seed(Backfill(r.disk, pick)), true) else r
  }

  /** Once a run has got past its backfill, the row choices of later runs no longer matter. */
  lemma FinishAgain(d: Disk, pick: set<string> -> string, later: set<string> -> string)
    ensures Seed(Backfill(Backfill(d, pick), later)) == Seed(Backfill(d, pick))
    ensures Seed(Backfill(Seed(Backfill(d, pick)), later)) == Seed(Backfill(d, pick))
  {
    BackfillTwice(d.schema.catalog, pick, later);
    SeedTwice(d.schema.targets);
  }

  lemma CampusBackfilled(c: Locations, pick: set<string> -> string, p: string)
    requires c.campuses == map[] && p in c.probes
    ensures c.probes[p].campus in Backfilled(c, pick).campuses
  {
    var names := map q | q in c.probes :: c.probes[q].campus;
    assert names[p] in names.Values;
  }

  lemma BackfillTwice(c: Locations, pick: set<string> -> string, later: set<string> -> string)
    ensures Backfilled(Backfilled(c, pick), later) == Backfilled(c, pick)
  {
    var d := Backfilled(c, pick);
    forall p | p in c.probes && c.campuses == map[] ensures c.probes[p].campus in d.campuses { CampusBackfilled(c, pick, p); }
    if c.campuses == map[] && d.campuses == map[] {
      assert c.probes == map[];
    }
  }

  lemma SeedTwice(t: TargetStore.Tables)
    ensures SeededTables(SeededTables(t)) == SeededTables(t)
  {
    if t.targets == map[] {
      PutAllKeeps(TargetStore.Put(t, DEFAULT_TARGETS[0]), DEFAULT_TARGETS[1..], DEFAULT_TARGETS[0].id);
    }
  }

  lemma {:induction false} PutAllKeeps(t: TargetStore.Tables, news: seq<TargetStore.NewTarget>, id: string)
    requires id in t.targets
    ensures id in PutAll(t, news).targets
    decreases news
  {
    if news != [] { PutAllKeeps(TargetStore.Put(t, news[0]), news[1..], id); }
  }

  /** Everything up to `ms` is settled: each version is in the ledger exactly if it was read there or
      is one of those settled since, none of which is still to come. */
  predicate Settled(d: Disk, applied: set<nat>, ms: seq<Script>) {
    d.ledger.Some? && applied <= d.ledger.value
    && forall i :: 0 <= i < |ms| ==> (ms[i].version in d.ledger.value <==> ms[i].version in applied)
  }

  /** A run of `CutPending` gets past its backfill. */
  predicate PendingReaches(d: Disk, applied: set<nat>, ms: seq<Script>, k: nat)
    decreases ms
  {
    if ms == [] then k > 0
    else if ms[0].version in applied then PendingReaches(d, applied, ms[1..], k)
    else k > 0 && match ms[0].sql(d.schema)
      case None => false
      case Some(s) => PendingReaches(Record(d, ms[0], s), applied, ms[1..], k - 1)
  }

  lemma {:induction false} CutPendingInvisible(
      d: Disk, applied: set<nat>, ms: seq<Script>, pick: set<string> -> string, k: nat, later: set<string> -> string)
    requires Numbered(ms) && Settled(d, applied, ms)
    ensures var c := CutPending(d, applied, ms, pick, k);
            && c.ledger.Some? && d.ledger.value <= c.ledger.value
            && (forall v :: v in c.ledger.value ==> v in d.ledger.value || exists i :: 0 <= i < |ms| && ms[i].version == v)
            && Finish(ApplyPending(c, c.ledger.value, ms), later)
               == Finish(ApplyPending(d, applied, ms), if PendingReaches(d, applied, ms, k) then pick else later)
    decreases ms
  {
    if ms == [] {
      FinishAgain(d, pick, later);
    } else {
      var m, rest := ms[0], ms[1..];
      if m.version in applied {
        CutPendingInvisible(d, applied, rest, pick, k, later);
      } else if k == 0 {
        ReadOnlyVersions(d, applied, d.ledger.value, ms);
      } else if m.sql(d.schema) == None {
        ReadOnlyVersions(d, applied, d.ledger.value, ms);
      } else {
        var d' := Record(d, m, m.sql(d.schema).value);
        CutPendingInvisible(d', applied, rest, pick, k - 1, later);
        assert m.version in CutPending(d', applied, rest, pick, k - 1).ledger.value;
      }
    }
  }

  /** A run cut off after `after` transactions, in which SQLite chose rows by `pick`. */
  datatype Cut = Cut(after: nat, pick: set<string> -> string)

  predicate Reaches(d: Disk, ms: seq<Script>, k: nat) { k > 0 && PendingReaches(WithLedger(d), Applied(d), ms, k - 1) }

  /** A complete run after a cut one ends as if the cut run had never been, except that the rows are those
      chosen by the cut run if it got past its backfill. */
  lemma CutInvisible(d: Disk, ms: seq<Script>, cut: Cut, later: set<string> -> string)
    requires Numbered(ms)
    ensures Migrated(CutAfter(d, ms, cut.pick, cut.after), ms, later)
            == Migrated(d, ms, if Reaches(d, ms, cut.after) then cut.pick else later)
  {
    if cut.after > 0 {
      CutPendingInvisible(WithLedger(d), Applied(d), ms, cut.pick, cut.after - 1, later);
      var c := CutAfter(d, ms, cut.pick, cut.after);
      assert WithLedger(c) == c;
    }
  }

  function CutRuns(d: Disk, ms: seq<Script>, cuts: seq<Cut>): Disk
    decreases cuts
  {
    if cuts == [] then d else CutRuns(CutAfter(d, ms, cuts[0].pick, cuts[0].after), ms, cuts[1..])
  }

  /** The row choice that decides: that of the first run to get past its backfill. */
  function Deciding(d: Disk, ms: seq<Script>, cuts: seq<Cut>, last: set<string> -> string): set<string> -> string
    decreases cuts
  {
    if cuts == [] then last
    else if Reaches(d, ms, cuts[0].after) then cuts[0].pick
    else Deciding(CutAfter(d, ms, cuts[0].pick, cuts[0].after), ms, cuts[1..], last)
  }

  /** Any number of runs cut off anywhere, then a complete one: the same disk as one run. */
  lemma {:induction false} CrashesInvisible(d: Disk, ms: seq<Script>, cuts: seq<Cut>, last: set<string> -> string)
    requires Numbered(ms)
    ensures Migrated(CutRuns(d, ms, cuts), ms, last) == Migrated(d, ms, Deciding(d, ms, cuts, last))
    decreases cuts
  {
    if cuts != [] {
      var c := CutAfter(d, ms, cuts[0].pick, cuts[0].after);
      CrashesInvisible(c, ms, cuts[1..], last);
      CutInvisible(d, ms, cuts[0], Deciding(c, ms, cuts[1..], last));
    }
  }

  lemma {:induction false} LongCutIsComplete(d: Disk, applied: set<nat>, ms: seq<Script>, pick: set<string> -> string, k: nat)
    requires k >= |ms| + 2
    ensures CutPending(d, applied, ms, pick, k) == Finish(ApplyPending(d, applied, ms), pick).disk
    decreases ms
  {
    if ms != [] {
      if ms[0].version in applied { LongCutIsComplete(d, applied, ms[1..], pick, k); }
      else if ms[0].sql(d.schema).Some? {
        LongCutIsComplete(Record(d, ms[0], ms[0].sql(d.schema).value), applied, ms[1..], pick, k - 1);
      }
    }
  }

  lemma {:induction false} LongCutReaches(d: Disk, applied: set<nat>, ms: seq<Script>, k: nat)
    requires k >= |ms| + 2
    ensures PendingReaches(d, applied, ms, k) <==> ApplyPending(d, applied, ms).ok
    decreases ms
  {
    if ms != [] {
      if ms[0].version in applied { LongCutReaches(d, applied, ms[1..], k); }
      else if ms[0].sql(d.schema).Some? {
        LongCutReaches(Record(d, ms[0], ms[0].sql(d.schema).value), applied, ms[1..], k - 1);
      }
    }
  }

  /** A further run changes nothing, whatever rows it would choose, whether the first succeeded or
      stopped at an error. */
  lemma MigrateAgain(d: Disk, ms: seq<Script>, pick: set<string> -> string, later: set<string> -> string)
    requires Numbered(ms)
    ensures Migrated(Migrated(d, ms, pick).disk, ms, later) == Migrated(d, ms, pick)
  {
    var k := |ms| + 3;
    LongCutIsComplete(WithLedger(d), Applied(d), ms, pick, k - 1);
    LongCutReaches(WithLedger(d), Applied(d), ms, k - 1);
    CutInvisible(d, ms, Cut(k, pick), later);
  }

  // ----- The two migrations of this repository -------------------------------------------

  function Init001(s: Schema): Option<Schema> { Some(s.(baseTables := true)) }

  /** ADD COLUMN fails without the table, and where the column already is. */
  function Catalog002(s: Schema): Option<Schema> {
    if !s.baseTables || s.probeColumns002 then None else Some(s.(catalogTables := true, probeColumns002 := true))
  }

  const MIGRATIONS := [Script(1, Init001), Script(2, Catalog002)]

  /** The ledger tells the truth. */
  predicate Truthful(d: Disk) {
    && (1 in Applied(d) ==> d.schema.baseTables)
    && (2 in Applied(d) <==> d.schema.probeColumns002)
    && (2 in Applied(d) ==> d.schema.baseTables && d.schema.catalogTables)
  }

  /** The second script cannot run twice: only its ledger row, written with it, makes restarts work. */
  lemma SecondScriptNotRepeatable(s: Schema)
    ensures Catalog002(s).Some? ==> Catalog002(Catalog002(s).value) == None
  {
  }

  /** Exactly when a start succeeds, whatever the ledger and the tables say. */
  lemma StartsIff(d: Disk, pick: set<string> -> string)
    ensures Migrated(d, MIGRATIONS, pick).ok <==>
              2 in Applied(d) || (!d.schema.probeColumns002 && (1 in Applied(d) ==> d.schema.baseTables))
  {
    var ms, w := MIGRATIONS, WithLedger(d);
    var rest := [Script(2, Catalog002)];
    assert ms[1..] == rest && rest[1..] == [] && ms[0].sql == Init001 && rest[0].sql == Catalog002;
    var d1 := if 1 in Applied(d) then w else Record(w, ms[0], w.schema.(baseTables := true));
    assert ApplyPending(w, Applied(d), ms) == ApplyPending(d1, Applied(d), rest);
    assert 2 !in Applied(d) && Catalog002(d1.schema).Some? ==>
      ApplyPending(d1, Applied(d), rest) == ApplyPending(Record(d1, rest[0], Catalog002(d1.schema).value), Applied(d), []);
  }

  /** Were the script committed without its ledger row, no later start would ever succeed. */
  lemma TornScriptIsFatal(d: Disk, cuts: seq<Cut>, last: set<string> -> string)
    requires 2 !in Applied(d) && Catalog002(d.schema).Some?
    ensures var torn := d.(schema := Catalog002(d.schema).value);
            !Migrated(CutRuns(torn, MIGRATIONS, cuts), MIGRATIONS, last).ok
  {
    var torn := d.(schema := Catalog002(d.schema).value);
    CrashesInvisible(torn, MIGRATIONS, cuts, last);
    StartsIff(torn, Deciding(torn, MIGRATIONS, cuts, last));
  }

  /** From a fresh, half migrated or complete database, however often start-up was cut off, the next
      complete start-up succeeds and leaves every table in place. */
  lemma StartUpSucceeds(d: Disk, cuts: seq<Cut>, last: set<string> -> string)
    requires Truthful(d)
    ensures var r := Migrated(CutRuns(d, MIGRATIONS, cuts), MIGRATIONS, last);
            && r.ok && {1, 2} <= Applied(r.disk)
            && r.disk.schema.baseTables && r.disk.schema.catalogTables && r.disk.schema.probeColumns002
            && r.disk.schema.targets.targets != map[]
  {
    CrashesInvisible(d, MIGRATIONS, cuts, last);
    BothApplied(d);
    SeedLeavesTargets(ApplyPending(WithLedger(d), Applied(d), MIGRATIONS).disk.schema.targets);
  }

  lemma BothApplied(d: Disk)
    requires Truthful(d)
    ensures var r := ApplyPending(WithLedger(d), Applied(d), MIGRATIONS);
            && r.ok && {1, 2} <= Applied(r.disk)
            && r.disk.schema.baseTables && r.disk.schema.catalogTables && r.disk.schema.probeColumns002
            && r.disk.schema.catalog == d.schema.catalog && r.disk.schema.targets == d.schema.targets
  {
    var ms, w := MIGRATIONS, WithLedger(d);
    var rest := [Script(2, Catalog002)];
    assert ms[1..] == rest && rest[1..] == [] && ms[0].sql == Init001 && rest[0].sql == Catalog002;
    var d1 := if 1 in Applied(d) then w else Record(w, ms[0], w.schema.(baseTables := true));
    assert ApplyPending(w, Applied(d), ms) == ApplyPending(d1, Applied(d), rest);
    var d2 := if 2 in Applied(d) then d1 else Record(d1, rest[0], d1.schema.(catalogTables := true, probeColumns002 := true));
    assert ApplyPending(d1, Applied(d), rest) == ApplyPending(d2, Applied(d), []);
  }

  /** Opening a database that predates the catalog makes every code its probes name exist. */
  lemma OpenCoversLegacy(d: Disk, pick: set<string> -> string)
    requires Truthful(d) && Picks(pick) && d.schema.catalog.campuses == map[] && ForeignKey(d.schema.catalog)
    ensures var r := Migrated(d, MIGRATIONS, pick);
            && r.ok && r.disk.schema.catalog.probes == d.schema.catalog.probes && ForeignKey(r.disk.schema.catalog)
            && forall p :: p in d.schema.catalog.probes ==>
                 d.schema.catalog.probes[p].campus in r.disk.schema.catalog.campuses
                 && d.schema.catalog.probes[p].building in r.disk.schema.catalog.buildings
  {
    BothApplied(d);
    BackfillCovers(d.schema.catalog, pick);
  }

  lemma SeedLeavesTargets(t: TargetStore.Tables)
    ensures SeededTables(t).targets != map[]
  {
    if t.targets == map[] {
      PutAllKeeps(TargetStore.Put(t, DEFAULT_TARGETS[0]), DEFAULT_TARGETS[1..], DEFAULT_TARGETS[0].id);
    }
  }

  // ----- The program ---------------------------------------------------------------------

  class Database {
    var disk: Disk

    constructor (d: Disk)
      ensures disk == d
    {
      disk := d;
    }

    method Migrate(ms: seq<Script>, pick: set<string> -> string) returns (ok: bool)
      modifies this
      ensures Outcome(disk, ok) == Migrated(old(disk), ms, pick)
    {
      disk := WithLedger(disk);
      var applied := disk.ledger.value;
      ghost var all := ApplyPending(disk, applied, ms);
      assert ms[0..] == ms;
      for i := 0 to |ms|
        invariant all == ApplyPending(disk, applied, ms[i..])
      {
        assert ms[i..][0] == ms[i] && ms[i..][1..] == ms[i + 1..];
        if ms[i].version in applied {
          continue;
        }
        var s := ms[i].sql(disk.schema);
        if s == None {
          return false;
        }
        disk := Record(disk, ms[i], s.value);
      }
      BackfillCatalog(pick);
      SeedTargets();
      ok := true;
    }

    method BackfillCatalog(pick: set<string> -> string)
      modifies this
      ensures disk == Backfill(old(disk), pick)
    {
      disk := Backfill(disk, pick);
    }

    method SeedTargets()
      modifies this
      ensures disk == Seed(old(disk))
    {
      var t := disk.schema.targets;
      if |t.targets| > 0 {
        return;
      }
      assert DEFAULT_TARGETS[0..] == DEFAULT_TARGETS;
      ghost var seeded := PutAll(t, DEFAULT_TARGETS);
      for i := 0 to |DEFAULT_TARGETS|
        invariant seeded == PutAll(t, DEFAULT_TARGETS[i..])
      {
        assert DEFAULT_TARGETS[i..][0] == DEFAULT_TARGETS[i] && DEFAULT_TARGETS[i..][1..] == DEFAULT_TARGETS[i + 1..];
        t := TargetStore.Put(t, DEFAULT_TARGETS[i]);
      }
      disk := disk.(schema := disk.schema.(targets := t));
    }
  }
}
